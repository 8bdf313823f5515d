/** Shared vocabulary of the retrieval pipeline: optional values and the
    knowledge-base chunk record that every stage reads. */
module Common {

  datatype Option<+T> = None | Some(value: T)
  {
    function GetOr(default: T): T
    {
      match this
      case Some(v) => v
      case None => default
    }
  }

  /** A stored knowledge-base passage (the `Chunk` table of schema.ts).
      The pipeline only reads chunks; it never changes or stores them. */
  datatype Chunk = Chunk(id: string, filePath: string, content: string, embedding: seq<real>)

  function Min(a: int, b: int): int { if a <= b then a else b }
  function Max(a: int, b: int): int { if a >= b then a else b }
  function MinR(a: real, b: real): real { if a <= b then a else b }
  function MaxR(a: real, b: real): real { if a >= b then a else b }

  /** `Array.prototype.find(c => c.id === id)`: the first chunk with that id. */
  function FindById(chunks: seq<Chunk>, id: string): (r: Option<Chunk>)
    ensures r.Some? ==> r.value in chunks && r.value.id == id
    ensures r.None? <==> forall c :: c in chunks ==> c.id != id
    ensures chunks != [] && chunks[0].id == id ==> r == Some(chunks[0])
    ensures r.Some? ==> exists i :: 0 <= i < |chunks| && chunks[i] == r.value
                                    && forall j :: 0 <= j < i ==> chunks[j].id != id
  {
    if chunks == [] then None
    else if chunks[0].id == id then Some(chunks[0])
    else
      var rest := FindById(chunks[1..], id);
      assert rest.Some? ==> exists i :: 0 <= i < |chunks| && chunks[i] == rest.value
                                        && forall j :: 0 <= j < i ==> chunks[j].id != id by {
        if rest.Some? {
          var k :| 0 <= k < |chunks[1..]| && chunks[1..][k] == rest.value
                   && forall j :: 0 <= j < k ==> chunks[1..][j].id != id;
          assert chunks[k + 1] == rest.value;
          forall j | 0 <= j < k + 1 ensures chunks[j].id != id {
            if j > 0 { assert chunks[j] == chunks[1..][j - 1]; }
          }
        }
      }
      rest
  }
}
