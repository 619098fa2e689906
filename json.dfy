/** The JSON records the site stores and passes around, with the JavaScript
    operations on them that its decision rules use: property reads, truthiness,
    strict equality and `includes`. */
module Json {

  datatype Option<+T> = None | Some(value: T)

  /** The values record fields hold: strings, and arrays of strings (a project's `images`). */
  datatype Value = Str(s: string) | Strs(items: seq<string>)

  /** A JSON object; a key that is absent reads as `undefined`. Whether a key is
      present is what `'brief' in item` tests. */
  type Record = map<string, Value>

  /** `r.key`, with None standing for `undefined`. */
  function Lookup(r: Record, key: string): (v: Option<Value>)
    ensures v.Some? <==> key in r
    ensures v.Some? ==> v.value == r[key]
  {
    if key in r then Some(r[key]) else None
  }

  /** JavaScript truthiness of a property read: `undefined` and `''` are falsy, arrays are truthy. */
  predicate Truthy(v: Option<Value>) {
    match v
    case None => false
    case Some(Str(s)) => s != ""
    case Some(Strs(_)) => true
  }

  /** `a === b` on two property reads: `undefined === undefined` holds, strings compare
      by content, and two arrays read from different parsed objects are never identical. */
  predicate StrictEquals(a: Option<Value>, b: Option<Value>) {
    match (a, b)
    case (None, None) => true
    case (Some(Str(x)), Some(Str(y))) => x == y
    case _ => false
  }

  /** Strict equality is equality restricted to `undefined` and strings. */
  lemma StrictEqualsIsEquality(a: Option<Value>, b: Option<Value>)
    ensures StrictEquals(a, b) <==> a == b && (a.None? || a.value.Str?)
  {
  }

  /** `sub` occurs in `s` starting at index `i`. */
  predicate OccursAt(sub: string, s: string, i: nat) {
    i + |sub| <= |s| && s[i..i + |sub|] == sub
  }

  /** `s.includes(sub)` on strings. */
  predicate IsSubstring(sub: string, s: string) {
    exists i: nat :: i <= |s| && OccursAt(sub, s, i)
  }

  /** A string that lacks the first character of `sub` does not contain `sub`. */
  lemma NotSubstringWithoutHead(sub: string, s: string)
    requires |sub| > 0 && sub[0] !in s
    ensures !IsSubstring(sub, s)
  {
    forall i: nat | i <= |s| ensures !OccursAt(sub, s, i) {
      if i + |sub| <= |s| {
        assert s[i..i + |sub|][0] == s[i];
      }
    }
  }

  /** `v.includes(sub)`: a substring test on a string, a membership test on an array. */
  predicate Includes(v: Value, sub: string) {
    match v
    case Str(s) => IsSubstring(sub, s)
    case Strs(xs) => sub in xs
  }
}
