/**
 The shared PXE boot menu: pointing its default at an image and arming that image's kernel line
 for one deploy, then putting everything back.
 */
module Pxe {
  import opened Basics
  import opened Decimal

  // ------------------------------------------------- the argument segment of a kernel line

  const OPENING: string := "erst_disable"
  const NFS: string := " pxe_via_nfs="
  const BUSID: string := " pxe_net_busid="

  predicate At(s: string, p: string, i: nat) { i + |p| <= |s| && s[i..i + |p|] == p }

  predicate MarkerAt(s: string, i: nat) { At(s, NFS, i) || At(s, BUSID, i) }

  function MarkerLength(s: string, i: nat): (n: nat)
    requires MarkerAt(s, i)
    ensures 0 < n && i + n <= |s| && s[i] == ' '
  {
    if At(s, NFS, i) then |NFS| else |BUSID|
  }

  function FindOpening(s: string, from: nat): (r: Option<nat>)
    requires from <= |s|
    ensures r.Some? ==>
              from <= r.value && At(s, OPENING, r.value) && forall i :: from <= i < r.value ==> !At(s, OPENING, i)
    ensures r.None? ==> forall i :: from <= i < |s| ==> !At(s, OPENING, i)
    decreases |s| - from
  {
    if At(s, OPENING, from) then Some(from) else if from == |s| then None else FindOpening(s, from + 1)
  }

  function FindMarker(s: string, from: nat): (r: Option<nat>)
    requires from <= |s|
    ensures r.Some? ==> from <= r.value && MarkerAt(s, r.value) && forall i :: from <= i < r.value ==> !MarkerAt(s, i)
    ensures r.None? ==> forall i :: from <= i < |s| ==> !MarkerAt(s, i)
    decreases |s| - from
  {
    if MarkerAt(s, from) then Some(from) else if from == |s| then None else FindMarker(s, from + 1)
  }

  /** Where the custom arguments of a kernel line stand: behind the first opening word,
      before the first marker after it. */
  function Segment(s: string): (r: Option<(nat, nat)>)
    ensures r.Some? ==> r.value.0 <= r.value.1 && MarkerAt(s, r.value.1)
  {
    var o := FindOpening(s, 0);
    if o.None? then None
    else
      var m := FindMarker(s, o.value + |OPENING|);
      if m.None? then None else Some((o.value + |OPENING|, m.value))
  }

  function ArgsOf(s: string): string {
    match Segment(s)
    case None => ""
    case Some((a, b)) => TrimSpace(s[a..b])
  }

  /** Every segment of the line replaced, from left to right. */
  function ReplaceSegments(s: string, mid: string): string
    decreases |s|
  {
    match Segment(s)
    case None => s
    case Some((a, b)) =>
      var e := b + MarkerLength(s, b);
      s[..a] + mid + s[b..e] + ReplaceSegments(s[e..], mid)
  }

  function Spaced(args: string): string { if args == "" then "" else " " + args }

  function WithArgs(s: string, args: string): string { ReplaceSegments(s, Spaced(args)) }

  predicate NoMarker(s: string) { forall i :: 0 <= i < |s| ==> !MarkerAt(s, i) }

  /** One segment, and nothing behind it that would read as another. */
  predicate OneSegment(s: string) {
    Segment(s).Some? &&
    var b := Segment(s).value.1;
    Segment(s[b + MarkerLength(s, b)..]).None?
  }

  lemma OneReplaced(s: string, mid: string)
    requires OneSegment(s)
    ensures var (a, b) := Segment(s).value; ReplaceSegments(s, mid) == s[..a] + mid + s[b..]
  {
    hide MarkerAt;
    hide MarkerLength;
    hide Segment;
    var (a, b) := Segment(s).value;
    var e := b + MarkerLength(s, b);
    assert s[b..] == s[b..e] + s[e..];
    assert ReplaceSegments(s[e..], mid) == s[e..];
  }

  lemma InnerChars(p: string)
    requires p == NFS || p == BUSID
    ensures forall j :: 0 < j < |p| ==> p[j] != ' '
  {
  }

  lemma PieceStaysPut(mid: string, rest: string, i: nat, p: string)
    requires p == NFS || p == BUSID
    requires i < |mid| && |rest| > 0 && rest[0] == ' ' && At(mid + rest, p, i)
    ensures At(mid, p, i)
  {
    var s := mid + rest;
    InnerChars(p);
    var piece := s[i..i + |p|];
    assert forall j :: 0 <= j < |p| ==> piece[j] == s[i + j];
    assert s[|mid|] == ' ';
    assert s[i..i + |p|] == mid[i..i + |p|];
  }

  /** A marker that starts in one part stays in it: its only space is its first character. */
  lemma MarkerStaysPut(mid: string, rest: string, i: nat)
    requires i < |mid| && |rest| > 0 && rest[0] == ' '
    ensures MarkerAt(mid + rest, i) ==> MarkerAt(mid, i)
  {
    if At(mid + rest, NFS, i) { PieceStaysPut(mid, rest, i, NFS); }
    if At(mid + rest, BUSID, i) { PieceStaysPut(mid, rest, i, BUSID); }
  }

  lemma ShiftedAt(head: string, rest: string, p: string, i: nat)
    ensures At(head + rest, p, |head| + i) <==> At(rest, p, i)
  {
    var s := head + rest;
    if i + |p| <= |rest| {
      assert s[|head| + i..|head| + i + |p|] == rest[i..i + |p|];
    }
  }

  lemma ShiftedMarker(head: string, rest: string, i: nat)
    ensures MarkerAt(head + rest, |head| + i) <==> MarkerAt(rest, i)
    ensures MarkerAt(rest, i) ==> MarkerLength(head + rest, |head| + i) == MarkerLength(rest, i)
  {
    ShiftedAt(head, rest, NFS, i);
    ShiftedAt(head, rest, BUSID, i);
  }

  lemma PrefixAt(head: string, r1: string, r2: string, p: string, i: nat)
    requires i + |p| <= |head|
    ensures At(head + r1, p, i) <==> At(head + r2, p, i)
  {
    assert (head + r1)[i..i + |p|] == head[i..i + |p|];
    assert (head + r2)[i..i + |p|] == head[i..i + |p|];
  }

  /** The first opening of a line stays the first when what follows it changes. */
  lemma SameOpening(head: string, r1: string, r2: string, o: nat)
    requires FindOpening(head + r1, 0) == Some(o) && |head| == o + |OPENING|
    ensures FindOpening(head + r2, 0) == Some(o)
  {
    forall i | 0 <= i <= o ensures At(head + r1, OPENING, i) <==> At(head + r2, OPENING, i) {
      PrefixAt(head, r1, r2, OPENING, i);
    }
  }

  lemma MarkerFound(s: string, from: nat, k: nat)
    requires from <= k <= |s| && MarkerAt(s, k) && forall j :: from <= j < k ==> !MarkerAt(s, j)
    ensures FindMarker(s, from) == Some(k)
  {
    assert k < |s|;
    hide MarkerAt;
  }

  /** The first marker behind `head` in head + mid + rest, when rest begins with one. */
  lemma NextMarker(head: string, mid: string, rest: string)
    requires MarkerAt(rest, 0) && NoMarker(mid)
    ensures FindMarker(head + mid + rest, |head|) == Some(|head| + |mid|)
  {
    hide MarkerAt;
    hide MarkerLength;
    hide FindMarker;
    var s := head + mid + rest;
    assert s == head + (mid + rest) && s == (head + mid) + rest;
    ShiftedMarker(head + mid, rest, 0);
    assert MarkerLength(rest, 0) > 0;
    forall j | |head| <= j < |head| + |mid| ensures !MarkerAt(s, j) {
      ShiftedMarker(head, mid + rest, j - |head|);
      MarkerStaysPut(mid, rest, j - |head|);
    }
    MarkerFound(s, |head|, |head| + |mid|);
  }

  /** A line of one segment, taken apart. */
  ghost predicate Parts(s: string, head: string, seg: string, rest: string) {
    s == head + seg + rest && Segment(s) == Some((|head|, |head| + |seg|)) && MarkerAt(rest, 0)
  }

  lemma TakenApart(s: string)
    requires Segment(s).Some?
    ensures var (a, b) := Segment(s).value; Parts(s, s[..a], s[a..b], s[b..])
    ensures var (a, b) := Segment(s).value; MarkerLength(s, b) == MarkerLength(s[b..], 0)
  {
    var (a, b) := Segment(s).value;
    assert s == s[..a] + s[a..b] + s[b..] && s == s[..b] + s[b..];
    ShiftedMarker(s[..b], s[b..], 0);
    hide Segment;
    hide MarkerAt;
    hide MarkerLength;
  }

  lemma SegmentIs(s: string, head: nat, seg: nat)
    ensures Segment(s) == Some((head, head + seg)) <==>
              && head >= |OPENING| && FindOpening(s, 0) == Some(head - |OPENING|)
              && head <= |s| && FindMarker(s, head) == Some(head + seg)
  {
    hide MarkerAt;
    hide At;
    hide FindOpening;
    hide FindMarker;
    if FindOpening(s, 0).Some? {
      OpeningFits(s);
    }
  }

  lemma OpeningFits(s: string)
    requires FindOpening(s, 0).Some?
    ensures FindOpening(s, 0).value + |OPENING| <= |s|
  {
  }

  lemma Reassembled(head: string, seg: string, mid: string, rest: string)
    requires Parts(head + seg + rest, head, seg, rest) && NoMarker(mid)
    ensures Parts(head + mid + rest, head, mid, rest)
  {
    hide MarkerAt;
    hide Segment;
    hide FindOpening;
    hide FindMarker;
    hide NoMarker;
    var s, t := head + seg + rest, head + mid + rest;
    SegmentIs(s, |head|, |seg|);
    assert s == head + (seg + rest) && t == head + (mid + rest);
    SameOpening(head, seg + rest, mid + rest, |head| - |OPENING|);
    NextMarker(head, mid, rest);
    SegmentIs(t, |head|, |mid|);
  }

  lemma OneIfRestClear(head: string, seg: string, rest: string)
    requires Parts(head + seg + rest, head, seg, rest)
    ensures OneSegment(head + seg + rest) <==> Segment(rest[MarkerLength(rest, 0)..]).None?
  {
    hide Segment;
    hide MarkerAt;
    hide MarkerLength;
    var s := head + seg + rest;
    TakenApart(s);
    var b := |head| + |seg|;
    assert s[b..] == rest;
    var n := MarkerLength(rest, 0);
    assert s[b + n..] == rest[n..];
  }

  /**
   Writing arguments that hold no marker gives a line with the same text around one segment, which
   reads back as those arguments; the next rewriting wipes out every trace of this one.
   */
  lemma WithArgsReads(s: string, args: string)
    requires OneSegment(s) && NoMarker(Spaced(args))
    ensures var t := WithArgs(s, args);
            var (a, b) := Segment(s).value;
            && t == s[..a] + Spaced(args) + s[b..]
            && OneSegment(t) && Segment(t) == Some((a, a + |Spaced(args)|)) && ArgsOf(t) == TrimSpace(args)
  {
    hide Segment;
    hide MarkerAt;
    hide NoMarker;
    hide MarkerLength;
    hide Spaced;
    hide ReplaceSegments;
    var (a, b) := Segment(s).value;
    var head, seg, rest, mid := s[..a], s[a..b], s[b..], Spaced(args);
    OneReplaced(s, mid);
    TakenApart(s);
    assert s == head + seg + rest;
    hide OneSegment;
    OneIfRestClear(head, seg, rest);
    Reassembled(head, seg, mid, rest);
    OneIfRestClear(head, mid, rest);
    var t := head + mid + rest;
    assert t[|head|..|head| + |mid|] == mid;
    TrimSpaced(args);
  }

  lemma TrimSpaced(args: string)
    ensures TrimSpace(Spaced(args)) == TrimSpace(args)
  {
    if args != "" {
      assert (" " + args)[1..] == args;
    }
  }

  lemma {:induction false} TrimmedLength(s: string)
    ensures |TrimLeft(s)| <= |s| && |TrimRight(s)| <= |s|
    decreases |s|
  {
    if s != [] {
      TrimmedLength(s[1..]);
      TrimmedLength(s[..|s| - 1]);
    }
  }

  lemma GrownAt(mid: string, rest: string, p: string, i: nat)
    requires At(mid, p, i)
    ensures At(mid + rest, p, i)
  {
    assert (mid + rest)[i..i + |p|] == mid[i..i + |p|];
  }

  lemma GrownMarker(mid: string, rest: string, i: nat)
    requires MarkerAt(mid, i)
    ensures MarkerAt(mid + rest, i) && i + |NFS| <= |mid|
  {
    if At(mid, NFS, i) { GrownAt(mid, rest, NFS, i); } else { GrownAt(mid, rest, BUSID, i); }
  }

  /** Arguments with a marker in them are cut short at it. */
  lemma MarkerCutsShort(s: string, args: string, i: nat)
    requires OneSegment(s) && i < |Spaced(args)| && MarkerAt(Spaced(args), i)
    ensures |ArgsOf(WithArgs(s, args))| < |args|
  {
    hide Segment;
    hide MarkerAt;
    hide MarkerLength;
    hide FindMarker;
    hide FindOpening;
    hide ReplaceSegments;
    var (a, b) := Segment(s).value;
    var head, seg, rest, mid := s[..a], s[a..b], s[b..], Spaced(args);
    OneReplaced(s, mid);
    TakenApart(s);
    hide OneSegment;
    assert s == head + seg + rest;
    var t := head + mid + rest;
    assert s == head + (seg + rest) && t == head + (mid + rest);
    SegmentIs(s, |head|, |seg|);
    SameOpening(head, seg + rest, mid + rest, |head| - |OPENING|);
    GrownMarker(mid, rest, i);
    ShiftedMarker(head, mid + rest, i);
    hide ArgsOf;
    hide NoMarker;
    CutAt(t, |head|, |head| + i);
    ShortArgs(t, |head| + i);
  }

  lemma ShortArgs(t: string, k: nat)
    requires Segment(t).Some? && Segment(t).value.1 <= k
    ensures |ArgsOf(t)| <= k - Segment(t).value.0
  {
    hide Segment;
    var (a, e) := Segment(t).value;
    TrimmedLength(t[a..e]);
    TrimmedLength(TrimLeft(t[a..e]));
  }

  lemma CutAt(t: string, from: nat, k: nat)
    requires from <= k <= |t| && MarkerAt(t, k) && from >= |OPENING| && FindOpening(t, 0) == Some(from - |OPENING|)
    ensures Segment(t).Some? && Segment(t).value.0 == from && from <= Segment(t).value.1 <= k
  {
    assert k < |t|;
    hide MarkerAt;
  }

  /** Trimmed arguments read back as they were written if and only if they hold no marker. */
  lemma ArgsComeBack(s: string, args: string)
    requires OneSegment(s) && TrimSpace(args) == args
    ensures ArgsOf(WithArgs(s, args)) == args <==> NoMarker(Spaced(args))
  {
    if NoMarker(Spaced(args)) {
      WithArgsReads(s, args);
    } else {
      var i :| 0 <= i < |Spaced(args)| && MarkerAt(Spaced(args), i);
      MarkerCutsShort(s, args, i);
    }
  }

  /** Only the last writing counts. */
  lemma LastWritingCounts(s: string, x: string, y: string)
    requires OneSegment(s) && NoMarker(Spaced(x))
    ensures OneSegment(WithArgs(s, x)) && WithArgs(WithArgs(s, x), y) == WithArgs(s, y)
  {
    WithArgsReads(s, x);
    var t := WithArgs(s, x);
    hide OneSegment;
    hide Segment;
    hide MarkerAt;
    hide ReplaceSegments;
    var (a, b) := Segment(s).value;
    OneReplaced(s, Spaced(y));
    OneReplaced(t, Spaced(y));
    assert t[..a] == s[..a] && t[a + |Spaced(x)|..] == s[b..];
  }

  lemma {:induction false} TrimLeftTwice(s: string)
    ensures TrimLeft(TrimLeft(s)) == TrimLeft(s) && (TrimLeft(s) != [] ==> !IsSpace(TrimLeft(s)[0]))
    decreases |s|
  {
    if s != [] && IsSpace(s[0]) { TrimLeftTwice(s[1..]); }
  }

  lemma {:induction false} TrimRightKeepsHead(s: string)
    ensures TrimRight(TrimRight(s)) == TrimRight(s) && TrimRight(s) <= s
    decreases |s|
  {
    if s != [] && IsSpace(s[|s| - 1]) { TrimRightKeepsHead(s[..|s| - 1]); }
  }

  lemma TrimTwice(s: string)
    ensures TrimSpace(TrimSpace(s)) == TrimSpace(s)
  {
    var l := TrimLeft(s);
    TrimLeftTwice(s);
    TrimRightKeepsHead(l);
    var r := TrimRight(l);
    if r != [] {
      assert r[0] == l[0] && !IsSpace(l[0]);
    }
  }
}
