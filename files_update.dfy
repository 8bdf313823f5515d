/** The `PATCH` handler that adds paths to, or removes paths from, the list
    of files a user's configuration selects (app/frame/api/files/update/route.ts).
    The session, the configuration lookup and the write are the handler's
    I/O: the first two are inputs here and the write is part of the
    outcome. */
module FilesUpdate {
  import opened Common
  import opened Seqs

  /** The JSON body: a field may be absent. */
  datatype Request = Request(operation: Option<string>, filePaths: Option<seq<string>>)

  datatype User = User(apiKey: Option<string>)

  datatype Session = Session(user: Option<User>)

  /** The stored configuration; its `filePaths` may be unset. */
  datatype StoredConfig = StoredConfig(filePaths: Option<seq<string>>)

  datatype Body = Message(text: string) | FilePathsBody(filePaths: seq<string>)

  datatype Response = Response(status: nat, body: Body)

  /** `updateUserFilePaths(apiKey, paths)`. */
  datatype Write = Write(apiKey: string, filePaths: seq<string>)

  datatype Outcome = Outcome(response: Response, write: Option<Write>)

  /** JavaScript truthiness of an optional string: absent and `""` are
      falsy. */
  predicate Present(s: Option<string>)
  {
    s.Some? && s.value != ""
  }

  /** `!operation || !filePaths`: an array, even an empty one, is truthy. */
  predicate Malformed(request: Request)
  {
    !Present(request.operation) || request.filePaths.None?
  }

  /** The list to store, from the stored list and the request: "add"
      appends the requested paths after the stored ones without
      deduplicating, "remove" filters (see `RemoveKeepsOthers`), and any
      other operation clears the list. */
  function UpdatedFilePaths(operation: string, stored: Option<seq<string>>, filePaths: seq<string>): (r: seq<string>)
    ensures operation == "add" ==>
              && |r| == |stored.GetOr([])| + |filePaths|
              && r[..|stored.GetOr([])|] == stored.GetOr([])
              && r[|stored.GetOr([])|..] == filePaths
              && multiset(r) == multiset(stored.GetOr([])) + multiset(filePaths)
    ensures operation == "remove" ==> |r| <= |stored.GetOr([])|
    ensures operation != "remove" && operation != "add" ==> r == []
  {
    if operation == "remove" then
      (if stored.Some? then Filter(stored.value, (path: string) => path !in filePaths) else [])
    else if operation == "add" then
      stored.GetOr([]) + filePaths
    else []
  }

  /** Whether the caller has a session, a user with an API key, and a
      configuration stored under that key. */
  predicate Authorized(session: Option<Session>, configByApiKey: string -> Option<StoredConfig>)
  {
    && session.Some?
    && session.value.user.Some?
    && Present(session.value.user.value.apiKey)
    && configByApiKey(session.value.user.value.apiKey.value).Some?
  }

  /** `PATCH`. A request without an operation or without paths is refused
      with 400 before the session is looked at; a well-formed request from
      a caller without a session, an API key or a stored configuration is
      refused with 401; only an authorised well-formed request writes, and
      it is answered with a 200 that echoes exactly the list written under
      the caller's key. */
  function Patch(request: Request, session: Option<Session>, configByApiKey: string -> Option<StoredConfig>): (out: Outcome)
    ensures Malformed(request) ==> out == Outcome(Response(400, Message("Missing operation or filePath")), None)
    ensures !Malformed(request) && !Authorized(session, configByApiKey) ==>
              out == Outcome(Response(401, Message("Unauthorized")), None)
    ensures out.write.Some? <==> !Malformed(request) && Authorized(session, configByApiKey)
    ensures out.write.Some? ==>
              && out.response == Response(200, FilePathsBody(out.write.value.filePaths))
              && session.value.user.value.apiKey == Some(out.write.value.apiKey)
              && out.write.value.filePaths
                 == UpdatedFilePaths(request.operation.value,
                                     configByApiKey(out.write.value.apiKey).value.filePaths,
                                     request.filePaths.value)
  {
    if Malformed(request) then
      Outcome(Response(400, Message("Missing operation or filePath")), None)
    else if session.None? then
      Outcome(Response(401, Message("Unauthorized")), None)
    else if session.value.user.None? || !Present(session.value.user.value.apiKey) then
      Outcome(Response(401, Message("Unauthorized")), None)
    else
      var apiKey := session.value.user.value.apiKey.value;
      var config := configByApiKey(apiKey);
      if config.None? then
        Outcome(Response(401, Message("Unauthorized")), None)
      else
        var updated := UpdatedFilePaths(request.operation.value, config.value.filePaths, request.filePaths.value);
        Outcome(Response(200, FilePathsBody(updated)), Some(Write(apiKey, updated)))
  }

  /** "remove" keeps exactly the stored paths that are not in the request,
      in their stored order and with their multiplicity. */
  lemma RemoveKeepsOthers(stored: Option<seq<string>>, filePaths: seq<string>)
    ensures var r := UpdatedFilePaths("remove", stored, filePaths);
      && IsSubseq(r, stored.GetOr([]))
      && (forall p :: p in r <==> p in stored.GetOr([]) && p !in filePaths)
      && (forall p :: p !in filePaths ==> multiset(r)[p] == multiset(stored.GetOr([]))[p])
  {
    var s := stored.GetOr([]);
    var keep := (path: string) => path !in filePaths;
    if stored.Some? {
      forall p ensures p in Filter(s, keep) <==> p in s && p !in filePaths {
        FilterMembers(s, keep, p);
      }
      forall p | p !in filePaths ensures multiset(Filter(s, keep))[p] == multiset(s)[p] {
        FilterCount(s, keep, p);
      }
    } else {
      SubseqRefl<string>([]);
    }
  }

  /** Removing only paths that are not stored leaves the list as it was. */
  lemma {:induction false} RemoveDisjointIsIdentity(stored: seq<string>, filePaths: seq<string>)
    requires forall p :: p in stored ==> p !in filePaths
    ensures UpdatedFilePaths("remove", Some(stored), filePaths) == stored
    decreases |stored|
  {
    if stored != [] {
      RemoveDisjointIsIdentity(stored[1..], filePaths);
    }
  }
}
