/**
  File paths as the uploader treats them (uploader.go, `appendMediaItems`):
  the name sent with the upload is the last `/`-separated segment of the path.
 */
module Paths {
  import Text

  /** No `/` anywhere in `s`. */
  predicate Slashless(s: string)
  {
    forall j :: 0 <= j < |s| ==> s[j] != '/'
  }

  predicate EndsWith(s: string, suffix: string)
  {
    |suffix| <= |s| && s[|s| - |suffix|..] == suffix
  }

  /** `strings.Split(s, "/")`: the segments between separators, in order. */
  function Split(s: string): (parts: seq<string>)
    ensures |parts| >= 1
    decreases |s|
  {
    if Slashless(s) then [s]
    else
      var i := Text.IndexOf(s, '/');
      [s[..i]] + Split(s[i + 1..])
  }

  /** No segment holds a separator, and there is one segment exactly when `s` has no `/`. */
  lemma {:induction false} SplitSegments(s: string)
    ensures forall i :: 0 <= i < |Split(s)| ==> Slashless(Split(s)[i])
    ensures |Split(s)| == 1 <==> Slashless(s)
    ensures Slashless(s) ==> Split(s) == [s]
    decreases |s|
  {
    if !Slashless(s) {
      var i := Text.IndexOf(s, '/');
      SplitSegments(s[i + 1..]);
      assert Split(s) == [s[..i]] + Split(s[i + 1..]);
    }
  }

  /** The inverse of `Split`: the segments rejoined with `/`. */
  function Join(parts: seq<string>): (path: string)
    requires |parts| >= 1
  {
    if |parts| == 1 then parts[0] else parts[0] + "/" + Join(parts[1..])
  }

  /** A suffix of `t` is a suffix of anything ending in `t`. */
  lemma SuffixOfSuffix(a: string, t: string, suffix: string)
    requires EndsWith(t, suffix)
    ensures EndsWith(a + t, suffix)
  {
    assert (a + t)[|a + t| - |suffix|..] == t[|t| - |suffix|..];
  }

  /** Whatever ends with `a + t` ends with `t`. */
  lemma ShorterSuffix(s: string, a: string, t: string)
    requires EndsWith(s, a + t)
    ensures EndsWith(s, t)
  {
    assert s[|s| - |t|..] == (a + t)[|a|..];
  }

  /** Several segments joined end with `/` and the last segment. */
  lemma {:induction false} JoinLast(parts: seq<string>)
    requires |parts| >= 2
    ensures EndsWith(Join(parts), "/" + parts[|parts| - 1])
    decreases |parts|
  {
    var last := parts[|parts| - 1];
    if |parts| == 2 {
      SuffixOfSuffix(parts[0], "/" + last, "/" + last);
      assert Join(parts) == parts[0] + ("/" + last);
    } else {
      JoinLast(parts[1..]);
      assert parts[1..][|parts[1..]| - 1] == last;
      SuffixOfSuffix(parts[0] + "/", Join(parts[1..]), "/" + last);
    }
  }

  lemma {:induction false} SplitThenJoin(s: string)
    ensures Join(Split(s)) == s
    decreases |s|
  {
    if !Slashless(s) {
      SplitSegments(s);
      var i := Text.IndexOf(s, '/');
      var parts := Split(s);
      var rest := Split(s[i + 1..]);
      assert parts == [s[..i]] + rest;
      assert parts[1..] == rest;
      assert |parts| > 1;
      SplitThenJoin(s[i + 1..]);
      calc {
        Join(parts);
        parts[0] + "/" + Join(parts[1..]);
        s[..i] + "/" + s[i + 1..];
        { Text.Around(s, i); }
        s;
      }
    }
  }

  lemma {:induction false} JoinThenSplit(parts: seq<string>)
    requires |parts| >= 1
    requires forall i :: 0 <= i < |parts| ==> Slashless(parts[i])
    ensures Split(Join(parts)) == parts
  {
    if |parts| > 1 {
      var head, tail := parts[0], Join(parts[1..]);
      JoinThenSplit(parts[1..]);
      assert Slashless(head);
      var s := Join(parts);
      assert s == head + "/" + tail;
      Text.FirstAfter(head, '/', tail);
      assert s[..|head|] == head;
      assert s[|head| + 1..] == tail;
    }
  }

  /** The file name the uploader sends: the last `/`-separated segment of the path. */
  function Filename(path: string): (name: string)
  {
    var parts := Split(path);
    parts[|parts| - 1]
  }

  /**
    The file name holds no `/`; it is the whole path when the path has none,
    and otherwise follows the path's last `/`.
   */
  lemma FilenameAfterSlash(path: string)
    ensures Slashless(Filename(path))
    ensures Slashless(path) ==> Filename(path) == path
    ensures !Slashless(path) ==> EndsWith(path, "/" + Filename(path))
  {
    SplitSegments(path);
    if !Slashless(path) {
      SplitThenJoin(path);
      JoinLast(Split(path));
    }
  }

  /**
    The file name is the text after the last `/`: a suffix of the path, empty
    when the path ends in `/`.
   */
  lemma FilenameIsLastSegment(path: string)
    ensures EndsWith(path, Filename(path))
    ensures |path| > 0 && path[|path| - 1] == '/' ==> Filename(path) == ""
  {
    var name := Filename(path);
    FilenameAfterSlash(path);
    if !Slashless(path) {
      ShorterSuffix(path, "/", name);
    }
    assert name == "" || path[|path| - 1] == name[|name| - 1];
  }
}
