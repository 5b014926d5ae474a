/** Python's `list.remove(x)`: drops the first occurrence of `x`. */
module Lists {

  /** The position of the first occurrence of `x` in `s`. */
  function IndexOf<T(==)>(s: seq<T>, x: T): (i: nat)
    requires x in s
    ensures i < |s| && s[i] == x && x !in s[..i]
  {
    if s[0] == x then 0
    else
      assert s[1..][IndexOf(s[1..], x)] == x;
      assert s[..1 + IndexOf(s[1..], x)] == [s[0]] + s[1..][..IndexOf(s[1..], x)];
      1 + IndexOf(s[1..], x)
  }

  /** `s` without its first occurrence of `x`; the rest keeps its order. */
  function RemoveFirst<T(==)>(s: seq<T>, x: T): (r: seq<T>)
    requires x in s
    ensures |r| == |s| - 1
    ensures multiset(r) == multiset(s) - multiset{x}
    ensures forall k :: 0 <= k < IndexOf(s, x) ==> r[k] == s[k]
    ensures forall k :: IndexOf(s, x) <= k < |r| ==> r[k] == s[k + 1]
  {
    var i := IndexOf(s, x);
    DropCounts(s, i);
    s[..i] + s[i + 1..]
  }

  /** Dropping position `i` removes one copy of `s[i]` and nothing else. */
  lemma DropCounts<T>(s: seq<T>, i: nat)
    requires i < |s|
    ensures multiset(s[..i] + s[i + 1..]) == multiset(s) - multiset{s[i]}
  {
    assert s == s[..i] + [s[i]] + s[i + 1..];
    assert multiset(s) == multiset(s[..i]) + multiset{s[i]} + multiset(s[i + 1..]);
  }
}
