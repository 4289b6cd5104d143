/** The browser client's remote-path arithmetic: the path of an entry inside
    the current directory, the parent of the current directory, and the
    non-empty segments a path is shown as. */
module Paths {
  import opened JsString

  /** The path of entry `name` inside directory `cur`; the root has no
      trailing separator to reuse. */
  function ChildPath(cur: string, name: string): string
  {
    if cur == "/" then "/" + name else cur + "/" + name
  }

  /** The directory the ".." row leads to: every piece of `cur` but the
      last, joined again, and the root when that leaves nothing. */
  function ParentPath(cur: string): string
  {
    var parts := Split(cur);
    var joined := Join(parts[..|parts| - 1]);
    if joined == "" then "/" else joined
  }

  /** The index of the last separator among the first `n` characters of
      `s`, or -1 when there is none. */
  function LastSlashBefore(s: string, n: nat): (k: int)
    requires n <= |s|
    ensures -1 <= k < n
    ensures k >= 0 ==> s[k] == '/'
    ensures forall i :: k < i < n ==> s[i] != '/'
  {
    if n == 0 then -1
    else if s[n - 1] == '/' then n - 1
    else LastSlashBefore(s, n - 1)
  }

  /** The index of the last separator in `s`, or -1 when there is none. */
  function LastSlash(s: string): int
  {
    LastSlashBefore(s, |s|)
  }

  /** The parent is everything before the last separator, or the root when
      that is empty or there is no separator at all. */
  lemma ParentIsPrefix(cur: string)
    ensures var k := LastSlash(cur);
            ParentPath(cur) == if k <= 0 then "/" else cur[..k]
  {
    var k := LastSlash(cur);
    var parts := Split(cur);
    if k == -1 {
      assert forall i :: 0 <= i < |cur| ==> cur[i] != '/';
      SplitNoSeparator(cur);
      assert parts[..|parts| - 1] == [];
    } else {
      var head, tail := cur[..k], cur[k + 1..];
      assert forall j :: 0 <= j < |tail| ==> tail[j] == cur[k + 1 + j] != '/';
      assert cur == head + "/" + tail;
      SplitAround(head, tail);
      SplitNoSeparator(tail);
      assert parts == Split(head) + [tail];
      assert parts[..|parts| - 1] == Split(head);
      JoinSplit(head);
    }
  }

  /** Opening a directory row and then the ".." row comes back to where the
      user was, for a name without separators in a non-empty directory. */
  lemma ParentOfChild(cur: string, name: string)
    requires cur != ""
    requires '/' !in name
    ensures ParentPath(ChildPath(cur, name)) == cur
  {
    var head := if cur == "/" then "" else cur;
    assert ChildPath(cur, name) == head + "/" + name;
    SplitAround(head, name);
    SplitNoSeparator(name);
    var parts := Split(ChildPath(cur, name));
    assert parts[..|parts| - 1] == Split(head);
    JoinSplit(head);
  }

  /** Going up from a path and then into the entry named by its last
      segment comes back to the path, unless the parent is written "/"
      without being the root's only separator. */
  lemma ChildOfParent(p: string)
    requires LastSlash(p) >= 0
    requires LastSlash(p) == 0 || p[..LastSlash(p)] != "/"
    ensures ChildPath(ParentPath(p), p[LastSlash(p) + 1..]) == p
  {
    ParentIsPrefix(p);
    var k := LastSlash(p);
    var head, tail := p[..k], p[k + 1..];
    assert p == head + "/" + tail;
    assert ParentPath(p) == if k == 0 then "/" else head;
  }

  // ---------------------------------------------------------------------
  // Segments: path.split('/').filter(part => part !== '')
  // ---------------------------------------------------------------------

  function NonEmpty(parts: seq<string>): (r: seq<string>)
    ensures |r| <= |parts|
    ensures forall i :: 0 <= i < |r| ==> r[i] != "" && r[i] in parts
    decreases |parts|
  {
    if |parts| == 0 then []
    else (if parts[0] == "" then [] else [parts[0]]) + NonEmpty(parts[1..])
  }

  lemma {:induction false} NonEmptyAppend(a: seq<string>, b: seq<string>)
    ensures NonEmpty(a + b) == NonEmpty(a) + NonEmpty(b)
    decreases |a|
  {
    if |a| == 0 {
      assert a + b == b;
    } else {
      assert (a + b)[0] == a[0];
      assert (a + b)[1..] == a[1..] + b;
      NonEmptyAppend(a[1..], b);
    }
  }

  lemma {:induction false} NonEmptyKeepsAll(parts: seq<string>)
    requires forall i :: 0 <= i < |parts| ==> parts[i] != ""
    ensures NonEmpty(parts) == parts
    decreases |parts|
  {
    if |parts| > 0 {
      NonEmptyKeepsAll(parts[1..]);
      assert [parts[0]] + parts[1..] == parts;
    }
  }

  /** The non-empty segments of a path, as the breadcrumb shows them. */
  function Segments(path: string): (segs: seq<string>)
    ensures forall i :: 0 <= i < |segs| ==> segs[i] != "" && '/' !in segs[i]
  {
    NonEmpty(Split(path))
  }

  /** Opening an entry adds its name as one more segment. */
  lemma SegmentsOfChild(cur: string, name: string)
    requires name != "" && '/' !in name
    ensures Segments(ChildPath(cur, name)) == Segments(cur) + [name]
  {
    var head := if cur == "/" then "" else cur;
    assert ChildPath(cur, name) == head + "/" + name;
    SplitAround(head, name);
    SplitNoSeparator(name);
    NonEmptyAppend(Split(head), [name]);
    if cur == "/" {
      assert cur == "" + "/" + "";
      SplitAround("", "");
      assert Split("") == [""];
    }
  }

  /** A root-anchored join of segments has exactly those segments. */
  lemma {:induction false} RootedJoinSegments(segs: seq<string>)
    requires forall i :: 0 <= i < |segs| ==> segs[i] != "" && '/' !in segs[i]
    ensures Segments("/" + Join(segs)) == segs
  {
    var joined := Join(segs);
    assert "/" + joined == "" + "/" + joined;
    SplitAround("", joined);
    assert Split("") == [""];
    if |segs| == 0 {
      assert Split("/" + joined) == ["", ""];
      assert NonEmpty(["", ""]) == [];
    } else {
      SplitJoin(segs);
      assert Split("/" + joined) == [""] + segs;
      NonEmptyAppend([""], segs);
      NonEmptyKeepsAll(segs);
      assert NonEmpty([""]) == [];
    }
  }
}
