/** The slice of JavaScript the wizard relies on: values with their truthiness,
    object literals merged by spread, `path.join`, and the string operations
    `indexOf` and `replace` with a string pattern. */
module Js {

  datatype Option<+T> = None | Some(value: T)

  /** A JavaScript value, as far as the wizard stores one in an object. */
  datatype Value = Undef | Bool(b: bool) | Num(n: int) | Str(s: string) | List(items: seq<string>)

  /** An object: a key may be absent, or present and hold `undefined`. */
  type Bag = map<string, Value>

  /** JavaScript truthiness. Arrays are truthy even when empty. */
  predicate TruthyValue(v: Value) {
    match v
    case Undef => false
    case Bool(b) => b
    case Num(n) => n != 0
    case Str(s) => s != ""
    case List(_) => true
  }

  /** `o.key` is truthy; an absent key reads as `undefined`. */
  predicate Truthy(o: Bag, key: string) {
    key in o && TruthyValue(o[key])
  }

  /** `o.key` is present and holds `v`. */
  predicate Holds(o: Bag, key: string, v: Value) {
    key in o && o[key] == v
  }

  /** The key is absent from both objects or present in both with the same value. */
  predicate SameKey(a: Bag, b: Bag, key: string) {
    (key in a <==> key in b) && (key in a ==> a[key] == b[key])
  }

  /** `{...a, ...b}`: every key of `b` wins, even one that holds `undefined`. */
  function Spread(a: Bag, b: Bag): (r: Bag)
    ensures r.Keys == a.Keys + b.Keys
    ensures forall k :: k in b ==> r[k] == b[k]
    ensures forall k :: k in a && k !in b ==> r[k] == a[k]
  {
    a + b
  }

  /** `path.join(base, part)`, without the normalisation of `..` segments. */
  function Join(base: string, part: string): string {
    base + "/" + part
  }

  /** `pat` occurs in `s` starting at index `i`. */
  predicate OccursAt(s: string, pat: string, i: int) {
    0 <= i && i + |pat| <= |s| && s[i..i + |pat|] == pat
  }

  lemma OccursAtTail(s: string, pat: string, j: int)
    requires |s| > 0 && 0 <= j
    ensures OccursAt(s[1..], pat, j) <==> OccursAt(s, pat, j + 1)
  {
    if j + |pat| <= |s[1..]| {
      assert s[1..][j..j + |pat|] == s[j + 1..j + 1 + |pat|];
    }
  }

  /** `s.indexOf(pat)`: the first index where `pat` occurs, or -1 when it never does. */
  function IndexOf(s: string, pat: string): (r: int)
    ensures -1 <= r <= |s|
    ensures r == -1 <==> forall j :: 0 <= j <= |s| ==> !OccursAt(s, pat, j)
    ensures r >= 0 ==> OccursAt(s, pat, r) && forall j :: 0 <= j < r ==> !OccursAt(s, pat, j)
  {
    if |s| < |pat| then
      -1
    else if s[..|pat|] == pat then
      assert OccursAt(s, pat, 0);
      0
    else
      assert !OccursAt(s, pat, 0);
      var i := IndexOf(s[1..], pat);
      forall j | 1 <= j <= |s|
        ensures OccursAt(s, pat, j) <==> OccursAt(s[1..], pat, j - 1)
      {
        OccursAtTail(s, pat, j - 1);
      }
      if i < 0 then -1 else assert OccursAt(s, pat, i + 1); i + 1
  }

  /** For a one-character pattern an occurrence is just that character at that index. */
  lemma OccursAtChar(s: string, c: char, j: int)
    ensures OccursAt(s, [c], j) <==> 0 <= j < |s| && s[j] == c
  {
    if 0 <= j < |s| {
      assert s[j..j + 1] == [s[j]];
    }
  }

  /** `s.indexOf(c) === -1` exactly when the character `c` does not occur in `s`. */
  lemma IndexOfCharMissing(s: string, c: char)
    ensures IndexOf(s, [c]) == -1 <==> c !in s
  {
    if c in s {
      var k :| 0 <= k < |s| && s[k] == c;
      OccursAtChar(s, c, k);
    } else {
      forall j | 0 <= j <= |s|
        ensures !OccursAt(s, [c], j)
      {
        OccursAtChar(s, c, j);
      }
    }
  }

  /** `s.replace(pat, rep)` with a string pattern: only the first occurrence is replaced. */
  function ReplaceFirst(s: string, pat: string, rep: string): (r: string)
    ensures (forall j :: 0 <= j <= |s| ==> !OccursAt(s, pat, j)) ==> r == s
    ensures forall i :: OccursAt(s, pat, i) && (forall j :: 0 <= j < i ==> !OccursAt(s, pat, j)) ==>
      r == s[..i] + rep + s[i + |pat|..]
  {
    var i := IndexOf(s, pat);
    if i < 0 then s else s[..i] + rep + s[i + |pat|..]
  }
}
