/** The breadcrumb bar the browser client draws for the current directory:
    a root item and one item per non-empty segment, each knowing which
    directory a click on it loads. */
module Breadcrumb {
  import opened Common
  import opened JsString
  import opened Paths

  /** One breadcrumb item: its text, whether it is highlighted as the
      current directory, and the directory a click loads (`None` when a
      click does nothing). */
  datatype Crumb = Crumb(text: string, active: bool, target: Option<string>)

  /** The root item; clicking it loads "/" unless the path already is "/". */
  function RootCrumb(path: string): Crumb
  {
    Crumb("/", path == "/", if path != "/" then Some("/") else None)
  }

  /** The directory that the item of segment `i` loads: the segments up to
      and including `i`, anchored at the root. */
  function SegmentTarget(segs: seq<string>, i: nat): string
    requires i < |segs|
  {
    "/" + Join(segs[..i + 1])
  }

  /** The item of segment `i`: the last one is highlighted and inert, every
      other one loads its segment target. */
  function SegmentCrumb(segs: seq<string>, i: nat): Crumb
    requires i < |segs|
  {
    Crumb(segs[i], i == |segs| - 1, if i < |segs| - 1 then Some(SegmentTarget(segs, i)) else None)
  }

  /** The whole bar for `path`, as a reference definition. */
  function Crumbs(path: string): seq<Crumb>
  {
    var segs := Segments(path);
    [RootCrumb(path)] + seq(|segs|, i requires 0 <= i < |segs| => SegmentCrumb(segs, i))
  }

  /** Appending one piece to a non-empty sequence of pieces appends it after
      a separator. */
  lemma {:induction false} JoinSnoc(parts: seq<string>, x: string)
    requires |parts| >= 1
    ensures Join(parts + [x]) == Join(parts) + "/" + x
    decreases |parts|
  {
    if |parts| > 1 {
      assert (parts + [x])[1..] == parts[1..] + [x];
      JoinSnoc(parts[1..], x);
    }
  }

  /** Each segment target extends the previous one by a separator and the
      segment. */
  lemma SegmentTargetStep(segs: seq<string>, i: nat)
    requires i < |segs|
    ensures SegmentTarget(segs, i)
            == (if i == 0 then "" else SegmentTarget(segs, i - 1)) + "/" + segs[i]
  {
    assert segs[..i + 1] == segs[..i] + [segs[i]];
    if i > 0 {
      JoinSnoc(segs[..i], segs[i]);
    } else {
      assert segs[..1] == [segs[0]];
    }
  }

  /** `updateBreadcrumb(path)`: accumulates the target of each segment item
      by appending "/" and the segment to the previous one. */
  method UpdateBreadcrumb(path: string) returns (crumbs: seq<Crumb>)
    ensures crumbs == Crumbs(path)
  {
    var segs := Segments(path);
    crumbs := [RootCrumb(path)];
    var built := "";
    var index := 0;
    while index < |segs|
      invariant 0 <= index <= |segs|
      invariant built == if index == 0 then "" else SegmentTarget(segs, index - 1)
      invariant |crumbs| == index + 1 && crumbs[0] == RootCrumb(path)
      invariant forall k :: 0 <= k < index ==> crumbs[k + 1] == SegmentCrumb(segs, k)
    {
      SegmentTargetStep(segs, index);
      built := built + "/" + segs[index];
      crumbs := crumbs + [Crumb(segs[index], index == |segs| - 1,
                                if index < |segs| - 1 then Some(built) else None)];
      index := index + 1;
    }
  }

  /** One item per segment plus the root; an item is inert exactly when it
      is highlighted; only the last item can be highlighted, and the root is
      highlighted exactly when the path is "/". */
  lemma CrumbsShape(path: string)
    ensures var c := Crumbs(path);
      && |c| == |Segments(path)| + 1
      && (c[0].active <==> path == "/")
      && (|c| > 1 ==> c[|c| - 1].active)
      && (forall i :: 0 <= i < |c| ==> (c[i].target.None? <==> c[i].active))
      && (forall i :: 0 <= i < |c| && c[i].active ==> i == |c| - 1)
      && (forall i :: 1 <= i < |c| ==> c[i].text == Segments(path)[i - 1])
  {
    var segs := Segments(path);
    var c := Crumbs(path);
    assert c[0] == RootCrumb(path);
    forall i | 1 <= i < |c|
      ensures c[i] == SegmentCrumb(segs, i - 1)
    {
    }
  }

  /** Clicking item `i` loads a directory whose segments are the first `i`
      segments of the current path. */
  lemma {:induction false} CrumbsNavigate(path: string)
    ensures var c := Crumbs(path);
      forall i :: 0 <= i < |c| && c[i].target.Some? ==>
        Segments(c[i].target.value) == Segments(path)[..i]
  {
    var c := Crumbs(path);
    var segs := Segments(path);
    forall i | 0 <= i < |c| && c[i].target.Some?
      ensures Segments(c[i].target.value) == segs[..i]
    {
      if i == 0 {
        RootedJoinSegments([]);
      } else {
        RootedJoinSegments(segs[..i]);
      }
    }
  }
}
