/** Character search within strings, shared by URL parsing and path splitting. */
module Text {

  /** The position of the first occurrence of `c` in `s`. */
  function IndexOf(s: string, c: char): (i: nat)
    requires c in s
    ensures i < |s| && s[i] == c
    ensures c !in s[..i]
  {
    if s[0] == c then 0
    else
      assert s == [s[0]] + s[1..];
      var j := IndexOf(s[1..], c);
      assert s[..j + 1] == [s[0]] + s[1..][..j];
      j + 1
  }

  /** A sequence is its part before `i`, its element at `i`, and its part after. */
  lemma Around<T>(s: seq<T>, i: nat)
    requires i < |s|
    ensures s == s[..i] + [s[i]] + s[i + 1..]
  {
  }

  /** In `head + [c] + tail` with no `c` in `head`, the first `c` is the one after `head`. */
  lemma FirstAfter(head: string, c: char, tail: string)
    requires c !in head
    ensures c in head + [c] + tail
    ensures IndexOf(head + [c] + tail, c) == |head|
  {
    var s := head + [c] + tail;
    assert s[|head|] == c;
    var i := IndexOf(s, c);
    assert forall j :: 0 <= j < i ==> s[j] != c by {
      assert forall j :: 0 <= j < i ==> s[j] == s[..i][j];
    }
    assert forall j :: 0 <= j < |head| ==> s[j] == head[j];
  }
}
