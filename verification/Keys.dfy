/** The keys of an insertion-ordered Map: a sequence without duplicates. */
module Keys {

  ghost predicate Distinct(s: seq<nat>) {
    forall i, j :: 0 <= i < j < |s| ==> s[i] != s[j]
  }

  function Elements(s: seq<nat>): (e: set<nat>)
    ensures forall x :: x in e <==> x in s
  {
    set x | x in s
  }

  function IndexOf(s: seq<nat>, x: nat): (k: nat)
    requires x in s
    ensures k < |s| && s[k] == x
    ensures forall j :: 0 <= j < k ==> s[j] != x
  {
    if s[0] == x then 0 else 1 + IndexOf(s[1..], x)
  }

  lemma IndexUnique(s: seq<nat>, x: nat, k: nat)
    requires Distinct(s) && k < |s| && s[k] == x
    ensures IndexOf(s, x) == k
  {}

  /** Cutting a key out: the rest keeps its order. */
  function Without(s: seq<nat>, x: nat): (r: seq<nat>) {
    if x in s then s[..IndexOf(s, x)] + s[IndexOf(s, x) + 1..] else s
  }

  lemma WithoutKeys(s: seq<nat>, x: nat)
    requires Distinct(s)
    ensures var r := Without(s, x);
            && Distinct(r)
            && (forall y :: y in r <==> y in s && y != x)
            && |r| == |s| - (if x in s then 1 else 0)
            && (|s| > 0 && s[0] != x ==> |r| > 0 && r[0] == s[0])
  {}

  /** What is before x keeps its place when x goes; what is behind moves up by one. */
  lemma WithoutIndex(s: seq<nat>, x: nat, y: nat)
    requires Distinct(s) && x in s && y in s && x != y
    ensures y in Without(s, x) && Distinct(Without(s, x))
    ensures IndexOf(Without(s, x), y) == if IndexOf(s, x) < IndexOf(s, y) then IndexOf(s, y) - 1 else IndexOf(s, y)
  {
    WithoutKeys(s, x);
    var r, i, j := Without(s, x), IndexOf(s, x), IndexOf(s, y);
    IndexUnique(r, y, if i < j then j - 1 else j);
  }
}
