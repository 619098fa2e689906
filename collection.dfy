/** What the three JSON-file collection routes share: the HTTP responses they build,
    the I/O failures they can meet, and the id lookups `findIndex` and `filter` perform. */
module Collection {
  import opened Json
  import opened Seqs

  /** The JSON body of a route's answer. */
  datatype Body =
    | Item(record: Record)          // one record
    | Items(records: seq<Record>)   // the whole collection
    | Error(error: string)          // `{ error: ... }`
    | Message(message: string)      // `{ message: ... }`
    | Succeeded                     // `{ success: true }`

  /** A response: the status code and the body (`NextResponse.json` defaults to 200). */
  datatype Response = Response(status: int, body: Body)

  /** The file-system outcomes of one request: whether reading and parsing the data
      file throws, and whether writing it back throws. */
  datatype Faults = Faults(readFails: bool, writeFails: bool)

  /** `r.id === id` */
  predicate HasId(r: Record, id: Option<Value>) {
    StrictEquals(Lookup(r, "id"), id)
  }

  /** `records.findIndex(r => r.id === id)`: the first index whose record has that id, or -1. */
  function FindIndex(rs: seq<Record>, id: Option<Value>): (i: int)
    ensures -1 <= i < |rs|
    ensures i == -1 <==> forall j | 0 <= j < |rs| :: !HasId(rs[j], id)
    ensures i >= 0 ==> HasId(rs[i], id) && forall j | 0 <= j < i :: !HasId(rs[j], id)
  {
    if rs == [] then -1
    else if HasId(rs[0], id) then 0
    else
      var k := FindIndex(rs[1..], id);
      if k == -1 then -1 else k + 1
  }

  /** The DELETE query parameter `id` is missing or empty, so `!id` holds. */
  predicate MissingId(id: Option<string>) {
    id.None? || id.value == ""
  }

  /** The callback `r => r.id !== id` of DELETE's filter. */
  function Survives(id: string): Record -> bool {
    (x: Record) => !HasId(x, Some(Str(id)))
  }

  /** `records.filter(r => r.id !== id)` for the query parameter `id`. */
  function WithoutId(rs: seq<Record>, id: string): (r: seq<Record>)
    ensures forall i | 0 <= i < |r| :: !HasId(r[i], Some(Str(id)))
    ensures multiset(r) <= multiset(rs)
  {
    Filter(rs, Survives(id))
  }

  /** Deleting keeps every other record, as often as it occurred, in the original order. */
  lemma WithoutIdKeepsOthers(rs: seq<Record>, id: string, x: Record)
    requires !HasId(x, Some(Str(id)))
    ensures multiset(WithoutId(rs, id))[x] == multiset(rs)[x]
    ensures IsSubsequence(WithoutId(rs, id), rs)
  {
    FilterKeepsMatches(rs, Survives(id), x);
    FilterIsSubsequence(rs, Survives(id));
  }

  /** The filtered list is as long as the original exactly when no record has the id,
      and then it is the original list. */
  lemma WithoutIdSameLength(rs: seq<Record>, id: string)
    ensures |WithoutId(rs, id)| == |rs| <==> FindIndex(rs, Some(Str(id))) == -1
    ensures |WithoutId(rs, id)| == |rs| ==> WithoutId(rs, id) == rs
  {
    FilterKeepsAll(rs, Survives(id));
  }

  /** With a duplicated id, one deletion removes every copy: the list can shrink by more than one. */
  lemma WithoutIdRemovesDuplicates(a: Record, b: Record, c: Record, id: string)
    requires HasId(a, Some(Str(id))) && HasId(b, Some(Str(id))) && !HasId(c, Some(Str(id)))
    ensures WithoutId([a, c, b], id) == [c]
  {
    var keep := Survives(id);
    assert [b][1..] == [] && Filter([b], keep) == [];
    assert [c, b][1..] == [b] && Filter([c, b], keep) == [c];
    assert [a, c, b][1..] == [c, b];
  }
}
