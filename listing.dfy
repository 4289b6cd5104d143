/** The order in which the browser client shows a directory listing:
    directories before files, and within each kind by name. The client sorts
    the listing array in place with this comparator. */
module Listing {
  import opened Wire

  /** Name order. The client compares names with the browser's
      locale-aware comparison; the model stands it in by lexicographic
      order on character codes. */
  predicate NameLe(a: string, b: string)
    decreases |a|
  {
    |a| == 0 || (|b| > 0 && (a[0] < b[0] || (a[0] == b[0] && NameLe(a[1..], b[1..]))))
  }

  lemma {:induction false} NameLeTotal(a: string, b: string)
    ensures NameLe(a, b) || NameLe(b, a)
    decreases |a|
  {
    if |a| > 0 && |b| > 0 && a[0] == b[0] {
      NameLeTotal(a[1..], b[1..]);
    }
  }

  lemma {:induction false} NameLeTransitive(a: string, b: string, c: string)
    requires NameLe(a, b) && NameLe(b, c)
    ensures NameLe(a, c)
    decreases |a|
  {
    if |a| > 0 && a[0] == b[0] && b[0] == c[0] {
      NameLeTransitive(a[1..], b[1..], c[1..]);
    }
  }

  /** The comparator's verdict "x may come before y" (a result of at most
      zero): a directory before a file, and by name within one kind. */
  predicate Precedes(x: ListItem, y: ListItem)
  {
    if x.kind != y.kind then x.kind == Directory else NameLe(x.name, y.name)
  }

  lemma PrecedesTotal(x: ListItem, y: ListItem)
    ensures Precedes(x, y) || Precedes(y, x)
  {
    NameLeTotal(x.name, y.name);
  }

  lemma PrecedesTransitive(x: ListItem, y: ListItem, z: ListItem)
    requires Precedes(x, y) && Precedes(y, z)
    ensures Precedes(x, z)
  {
    if x.kind == y.kind == z.kind {
      NameLeTransitive(x.name, y.name, z.name);
    }
  }

  predicate Sorted(s: seq<ListItem>)
  {
    forall i, j :: 0 <= i < j < |s| ==> Precedes(s[i], s[j])
  }

  /** What a sorted listing looks like on screen: no file is shown above a
      directory, and entries of one kind are in name order. */
  lemma SortedShape(s: seq<ListItem>)
    requires Sorted(s)
    ensures forall i, j :: 0 <= i < j < |s| ==> !(s[i].kind == File && s[j].kind == Directory)
    ensures forall i, j :: 0 <= i < j < |s| && s[i].kind == s[j].kind ==> NameLe(s[i].name, s[j].name)
  {
  }

  method Swap(a: array<ListItem>, i: int, j: int)
    requires 0 <= i < j < a.Length
    modifies a
    ensures a[i] == old(a[j]) && a[j] == old(a[i])
    ensures forall k :: 0 <= k < a.Length && k != i && k != j ==> a[k] == old(a[k])
    ensures multiset(a[..]) == old(multiset(a[..]))
  {
    a[i], a[j] := a[j], a[i];
  }

  /** `files.sort(...)`: sorts the listing in place, by insertion, into the
      comparator's order. */
  method SortListing(a: array<ListItem>)
    modifies a
    ensures Sorted(a[..])
    ensures multiset(a[..]) == old(multiset(a[..]))
  {
    var i := 0;
    while i < a.Length
      invariant 0 <= i <= a.Length
      invariant forall p, q :: 0 <= p < q < i ==> Precedes(a[p], a[q])
      invariant multiset(a[..]) == old(multiset(a[..]))
    {
      var j := i;
      while j > 0 && !Precedes(a[j - 1], a[j])
        invariant 0 <= j <= i
        invariant forall p, q :: 0 <= p < q <= i && p != j && q != j ==> Precedes(a[p], a[q])
        invariant forall q :: j < q <= i ==> Precedes(a[j], a[q])
        invariant multiset(a[..]) == old(multiset(a[..]))
      {
        PrecedesTotal(a[j - 1], a[j]);
        Swap(a, j - 1, j);
        j := j - 1;
      }
      forall p | 0 <= p < j
        ensures Precedes(a[p], a[j])
      {
        if p < j - 1 {
          PrecedesTransitive(a[p], a[j - 1], a[j]);
        }
      }
      i := i + 1;
    }
  }
}
