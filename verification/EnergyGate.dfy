/** The gate that forwards only speech and some preroll (`speech/audio.py`). Whether a frame is
    loud is part of the frame; time is counted in samples. */
module EnergyGate {
  import opened Common

  datatype Frame = Frame(data: seq<Byte>, loud: bool)

  /** Preroll and hangover as the least numbers of samples that reach them: with a tolerance
      of 1e-9 s at 16 kHz, 0.3 s is 4800 samples and 1.5 s is 24000. */
  datatype Settings = Settings(preroll: int, hangover: int)

  predicate Audible(f: Frame) { |f.data| >= 4 }

  /** Duration in samples of four bytes; a rest of the frame does not count. */
  function Duration(f: Frame): nat { |f.data| / 4 }

  function Length(fs: seq<Frame>): nat {
    if |fs| == 0 then 0 else Duration(fs[0]) + Length(fs[1..])
  }

  // ---------------------------------------------------------------- the specification

  /** `Off`: no segment open, with the quiet frames since the last one. `On`: a segment, with
      the quiet frames since its last loud one. */
  datatype Segment = Off(quiets: seq<Frame>) | On(quiets: seq<Frame>)

  function NextSegment(c: Settings, s: Segment, f: Frame): Segment {
    if f.loud then On([])
    else if s.Off? then Off(s.quiets + [f])
    else if Length(s.quiets + [f]) >= c.hangover then Off([])
    else On(s.quiets + [f])
  }

  function After(c: Settings, hist: seq<Frame>): (s: Segment)
    ensures |s.quiets| <= |hist|
  {
    if |hist| == 0 then Off([]) else NextSegment(c, After(c, hist[..|hist| - 1]), hist[|hist| - 1])
  }

  /** `ring` is the shortest suffix of `quiets` that reaches the preroll, or all of it. */
  predicate IsPreroll(c: Settings, ring: seq<Frame>, quiets: seq<Frame>)
  {
    && IsSuffix(ring, quiets)
    && (ring == quiets || Length(ring) >= c.preroll)
    && (ring != [] ==> Length(ring[1..]) < c.preroll)
  }

  /** That suffix. */
  function Preroll(c: Settings, quiets: seq<Frame>): (r: seq<Frame>)
    ensures |r| <= |quiets|
  {
    if quiets == [] || Length(quiets[1..]) < c.preroll then quiets else Preroll(c, quiets[1..])
  }

  function Range(a: nat, b: nat): (r: seq<nat>)
    requires a <= b
    ensures |r| == b - a && forall i :: 0 <= i < b - a ==> r[i] == a + i
  {
    seq(b - a, i requires 0 <= i < b - a => a + i)
  }

  /** The indices of the frames forwarded at the last frame of `hist`, and at all of them. */
  function Forwards(c: Settings, hist: seq<Frame>): (idx: seq<nat>)
    requires hist != []
    ensures forall i :: 0 <= i < |idx| ==> idx[i] < |hist|
  {
    var n := |hist| - 1;
    var s := After(c, hist[..n]);
    if s.On? then [n]
    else if hist[n].loud then Range(n - |Preroll(c, s.quiets)|, n + 1)
    else []
  }

  function Forwarded(c: Settings, hist: seq<Frame>): (idx: seq<nat>)
    ensures forall i :: 0 <= i < |idx| ==> idx[i] < |hist|
  {
    if hist == [] then [] else Forwarded(c, hist[..|hist| - 1]) + Forwards(c, hist)
  }

  function Pick(hist: seq<Frame>, idx: seq<nat>): seq<Frame>
    requires forall i :: 0 <= i < |idx| ==> idx[i] < |hist|
  {
    seq(|idx|, i requires 0 <= i < |idx| => hist[idx[i]])
  }

  // ---------------------------------------------------------------- the gate as an object

  /** The gate's fields are those of a segment state. */
  predicate Fits(c: Settings, s: Segment, ring: seq<Frame>, ringS: int, inSegment: bool, quietS: int) {
    && inSegment == s.On? && ringS == Length(ring)
    && quietS == (if inSegment then Length(s.quiets) else 0)
    && (if inSegment then ring == [] else IsPreroll(c, ring, s.quiets))
  }

  class EnergyGate {
    const c: Settings
    var ring: seq<Frame>
    var ringS: int
    var inSegment: bool
    var quietS: int
    /** Audible frames since the last reset. */
    ghost var hist: seq<Frame>

    ghost predicate Valid()
      reads this
    {
      (forall f :: f in hist ==> Audible(f)) && Fits(c, After(c, hist), ring, ringS, inSegment, quietS)
    }

    constructor (settings: Settings)
      ensures Valid() && hist == [] && c == settings
    {
      c, ring, ringS, inSegment, quietS, hist := settings, [], 0, false, 0, [];
    }

    method Reset()
      requires Valid()
      modifies this
      ensures Valid() && hist == []
    {
      ring, ringS, inSegment, quietS, hist := [], 0, false, 0, [];
    }

    /** The frames to forward, and whether the segment ends here. */
    method Feed(f: Frame) returns (out: seq<Frame>, ended: bool)
      requires Valid()
      modifies this
      ensures Valid()
      ensures !Audible(f) ==> hist == old(hist) && out == [] && !ended
      ensures Audible(f) ==> hist == old(hist) + [f]
      ensures ended <==> Audible(f) && After(c, old(hist)).On? && After(c, hist).Off?
      ensures Audible(f) ==> out == Pick(hist, Forwards(c, hist))
    {
      if |f.data| < 4 {
        return [], false;
      }
      AfterSnoc(c, hist, f);
      OutputIs(c, hist, f, ring);
      if inSegment {
        ended := FeedSegment(f);
        return [f], ended;
      }
      out := FeedSilence(f);
      return out, false;
    }

    method FeedSilence(f: Frame) returns (out: seq<Frame>)
      requires Valid() && Audible(f) && !inSegment
      modifies this
      ensures Valid() && hist == old(hist) + [f] && out == if f.loud then old(ring) + [f] else []
    {
      AfterSnoc(c, hist, f);
      ghost var s, s1 := After(c, hist), After(c, hist + [f]);
      hist := hist + [f];
      if !f.loud {
        Remember(f, s.quiets);
        assert Fits(c, s1, ring, ringS, inSegment, quietS);
        return [];
      }
      out := ring + [f];
      ring, ringS, inSegment, quietS := [], 0, true, 0;
      assert Fits(c, s1, ring, ringS, inSegment, quietS);
    }

    /** True if the segment ends here. */
    method FeedSegment(f: Frame) returns (ended: bool)
      requires Valid() && Audible(f) && inSegment
      modifies this
      ensures Valid() && hist == old(hist) + [f] && ended == !inSegment
    {
      AfterSnoc(c, hist, f);
      LengthSnoc(After(c, hist).quiets, f);
      hist := hist + [f];
      if f.loud {
        quietS := 0;
        return false;
      }
      quietS := quietS + Duration(f);
      if quietS >= c.hangover {
        inSegment, quietS := false, 0;
        return true;
      }
      return false;
    }

    /** The ring after one more quiet frame. */
    method Remember(f: Frame, ghost quiets: seq<Frame>)
      requires Audible(f) && IsPreroll(c, ring, quiets) && ringS == Length(ring)
      modifies this`ring, this`ringS
      ensures IsPreroll(c, ring, quiets + [f]) && ringS == Length(ring)
    {
      ghost var all := quiets + [f];
      ghost var k := |quiets| - |ring|;
      RingGrows(c, ring, quiets, f);
      ring := ring + [f];
      ringS := ringS + Duration(f);
      Trim(all, k);
    }

    method Trim(ghost all: seq<Frame>, ghost start: nat)
      requires start <= |all| && ring == all[start..] && ringS == Length(ring)
      requires start == 0 || Length(ring) >= c.preroll
      modifies this`ring, this`ringS
      ensures IsPreroll(c, ring, all) && ringS == Length(ring)
    {
      ghost var k := start;
      while ring != [] && ringS - Duration(ring[0]) >= c.preroll
        invariant 0 <= k <= |all| && ring == all[k..] && ringS == Length(ring)
        invariant k == 0 || ringS >= c.preroll
        decreases |ring|
      {
        ringS := ringS - Duration(ring[0]);
        ring := ring[1..];
        k := k + 1;
      }
      TrimmedIsPreroll(c, all, k);
    }
  }

  lemma TrimmedIsPreroll(c: Settings, all: seq<Frame>, k: nat)
    requires k <= |all| && (k == 0 || Length(all[k..]) >= c.preroll)
    requires k < |all| ==> Length(all[k..]) - Duration(all[k]) < c.preroll
    ensures IsPreroll(c, all[k..], all)
  {
    if k < |all| { assert all[k..][1..] == all[k + 1..]; }
  }

  lemma AfterSnoc(c: Settings, hist: seq<Frame>, f: Frame)
    ensures After(c, hist + [f]) == NextSegment(c, After(c, hist), f)
  {
    assert (hist + [f])[..|hist|] == hist;
  }

  lemma {:induction false} LengthSnoc(fs: seq<Frame>, f: Frame)
    ensures Length(fs + [f]) == Length(fs) + Duration(f)
  {
    if |fs| == 0 {
      assert fs + [f] == [f] && [f][1..] == [];
    } else {
      assert (fs + [f])[1..] == fs[1..] + [f];
      LengthSnoc(fs[1..], f);
    }
  }

  lemma {:induction false} LengthSuffix(fs: seq<Frame>, k: nat)
    requires k <= |fs| && forall f :: f in fs ==> Audible(f)
    ensures Length(fs[k..]) <= Length(fs)
  {
    if k == 0 {
      assert fs[0..] == fs;
    } else {
      DurationPositive(fs[0]);
      LengthSuffix(fs[1..], k - 1);
      assert fs[1..][k - 1..] == fs[k..];
    }
  }

  lemma DurationPositive(f: Frame)
    requires Audible(f)
    ensures Duration(f) > 0
  {
  }

  lemma RingGrows(c: Settings, ring: seq<Frame>, quiets: seq<Frame>, f: Frame)
    requires Audible(f) && IsPreroll(c, ring, quiets)
    ensures ring + [f] == (quiets + [f])[|quiets| - |ring|..] && Length(ring + [f]) == Length(ring) + Duration(f)
    ensures |ring| == |quiets| || Length(ring + [f]) >= c.preroll
  {
    assert (quiets + [f])[|quiets| - |ring|..] == quiets[|quiets| - |ring|..] + [f];
    LengthSnoc(ring, f);
    DurationPositive(f);
  }

  /** There is only one such ring, so the gate's state is a function of what it was fed. */
  lemma PrerollIsUnique(c: Settings, a: seq<Frame>, b: seq<Frame>, quiets: seq<Frame>)
    requires (forall f :: f in quiets ==> Audible(f))
    requires IsPreroll(c, a, quiets) && IsPreroll(c, b, quiets)
    ensures a == b
  {
    if |a| < |b| {
      ShorterDoesNotReach(c, a, b, quiets);
    } else if |b| < |a| {
      ShorterDoesNotReach(c, b, a, quiets);
    }
  }

  lemma ShorterDoesNotReach(c: Settings, a: seq<Frame>, b: seq<Frame>, quiets: seq<Frame>)
    requires (forall f :: f in quiets ==> Audible(f))
    requires IsPreroll(c, b, quiets) && IsSuffix(a, quiets) && |a| < |b|
    ensures !IsPreroll(c, a, quiets)
  {
    assert a == b[1..][|b| - 1 - |a|..];
    LengthSuffix(b[1..], |b| - 1 - |a|);
  }

  lemma {:induction false} PrerollIs(c: Settings, quiets: seq<Frame>)
    ensures IsPreroll(c, Preroll(c, quiets), quiets)
  {
    if quiets != [] && Length(quiets[1..]) >= c.preroll {
      PrerollIs(c, quiets[1..]);
    }
  }

  lemma RangeHas(a: nat, b: nat, i: nat)
    requires a <= b
    ensures i in Range(a, b) <==> a <= i < b
  {
    if a <= i < b { assert Range(a, b)[i - a] == i; }
  }

  // ---------------------------------------------------------------- what is forwarded

  lemma SuffixSnoc(a: seq<Frame>, b: seq<Frame>, f: Frame)
    requires IsSuffix(a, b)
    ensures IsSuffix(a + [f], b + [f])
  {
    assert (b + [f])[|b| - |a|..] == b[|b| - |a|..] + [f];
  }

  /** The frames a segment state refers to are the last ones, quiet all of them; in an open
      segment a loud one comes right before. */
  predicate Trailing(s: Segment, hist: seq<Frame>) {
    && IsSuffix(s.quiets, hist) && (forall f :: f in s.quiets ==> !f.loud)
    && (s.On? ==> |s.quiets| < |hist| && hist[|hist| - |s.quiets| - 1].loud)
  }

  lemma TrailingSnoc(c: Settings, s: Segment, hist: seq<Frame>, f: Frame)
    requires Trailing(s, hist)
    ensures Trailing(NextSegment(c, s, f), hist + [f])
  {
    SuffixSnoc(s.quiets, hist, f);
  }

  lemma {:induction false} QuietsAreLast(c: Settings, hist: seq<Frame>)
    ensures Trailing(After(c, hist), hist)
  {
    if hist == [] {
    } else {
      var init, f := hist[..|hist| - 1], hist[|hist| - 1];
      QuietsAreLast(c, init);
      TrailingSnoc(c, After(c, init), init, f);
      assert init + [f] == hist;
    }
  }

  /** What the gate gives out, from its ring, is what the history says. */
  lemma OutputIs(c: Settings, hist: seq<Frame>, f: Frame, ring: seq<Frame>)
    requires forall g :: g in hist ==> Audible(g)
    requires After(c, hist).Off? ==> IsPreroll(c, ring, After(c, hist).quiets)
    ensures Pick(hist + [f], Forwards(c, hist + [f])) ==
            if After(c, hist).On? then [f] else if f.loud then ring + [f] else []
  {
    if After(c, hist).Off? && f.loud {
      RingIs(c, hist, ring);
      OutputOpens(c, hist, f, ring);
    } else {
      OutputOther(c, hist, f);
    }
  }

  lemma OutputOpens(c: Settings, hist: seq<Frame>, f: Frame, ring: seq<Frame>)
    requires After(c, hist).Off? && f.loud && |ring| == |Preroll(c, After(c, hist).quiets)| && IsSuffix(ring, hist)
    ensures Pick(hist + [f], Forwards(c, hist + [f])) == ring + [f]
  {
    ForwardsIs(c, hist, f);
    PickRange(hist, f, ring, Forwards(c, hist + [f]));
  }

  lemma OutputOther(c: Settings, hist: seq<Frame>, f: Frame)
    requires After(c, hist).On? || !f.loud
    ensures Pick(hist + [f], Forwards(c, hist + [f])) == if After(c, hist).On? then [f] else []
  {
    ForwardsIs(c, hist, f);
    PickLast(hist, f);
  }

  lemma ForwardsIs(c: Settings, hist: seq<Frame>, f: Frame)
    ensures var s, n := After(c, hist), |hist|;
            Forwards(c, hist + [f]) ==
              if s.On? then [n] else if f.loud then Range(n - |Preroll(c, s.quiets)|, n + 1) else []
  {
    assert (hist + [f])[..|hist|] == hist;
  }

  lemma PickLast(hist: seq<Frame>, f: Frame)
    ensures Pick(hist + [f], [|hist|]) == [f] && Pick(hist + [f], []) == []
  {
  }

  lemma RingIs(c: Settings, hist: seq<Frame>, ring: seq<Frame>)
    requires (forall g :: g in hist ==> Audible(g)) && IsPreroll(c, ring, After(c, hist).quiets)
    ensures ring == Preroll(c, After(c, hist).quiets) && IsSuffix(ring, hist)
  {
    var quiets := After(c, hist).quiets;
    QuietsAreLast(c, hist);
    PrerollIs(c, quiets);
    PrerollIsUnique(c, ring, Preroll(c, quiets), quiets);
    SuffixOfSuffix(ring, quiets, hist);
  }

  lemma SuffixOfSuffix(a: seq<Frame>, b: seq<Frame>, d: seq<Frame>)
    requires IsSuffix(a, b) && IsSuffix(b, d)
    ensures IsSuffix(a, d)
  {
    assert d[|d| - |b|..][|b| - |a|..] == d[|d| - |a|..];
  }

  lemma PickRange(hist: seq<Frame>, f: Frame, ring: seq<Frame>, idx: seq<nat>)
    requires IsSuffix(ring, hist) && idx == Range(|hist| - |ring|, |hist| + 1)
    ensures Pick(hist + [f], idx) == ring + [f]
  {
  }

  predicate Increasing(idx: seq<nat>) { forall a, b :: 0 <= a < b < |idx| ==> idx[a] < idx[b] }

  /** Forwarded frames are in order and none twice, across the whole history. */
  lemma {:induction false} ForwardedInOrder(c: Settings, hist: seq<Frame>)
    ensures Increasing(Forwarded(c, hist))
    ensures var n := if After(c, hist).Off? then |hist| - |After(c, hist).quiets| else |hist|;
            forall i :: 0 <= i < |Forwarded(c, hist)| ==> Forwarded(c, hist)[i] < n
  {
    if hist == [] {
    } else {
      ForwardedInOrder(c, hist[..|hist| - 1]);
    }
  }

  /** A loud frame `j` ends the silence that frame `i` is in, before the preroll has passed. */
  predicate OpensFor(c: Settings, hist: seq<Frame>, i: nat, j: nat) {
    && i < j < |hist| && hist[j].loud && (forall k :: i <= k < j ==> !hist[k].loud)
    && Length(hist[i + 1..j]) < c.preroll
  }

  /** Frame `i` is loud, or comes within a segment, or just before one. */
  ghost predicate Kept(c: Settings, hist: seq<Frame>, i: nat)
    requires i < |hist|
  {
    hist[i].loud || After(c, hist[..i]).On? || exists j :: OpensFor(c, hist, i, j)
  }

  lemma {:induction false} SilenceStaysOff(c: Settings, hist: seq<Frame>, i: nat)
    requires i <= |hist| && After(c, hist[..i]).Off? && forall k :: i <= k < |hist| ==> !hist[k].loud
    ensures After(c, hist).Off? && |After(c, hist).quiets| >= |hist| - i
  {
    if i == |hist| {
      assert hist[..i] == hist;
    } else {
      var init := hist[..|hist| - 1];
      assert init[..i] == hist[..i];
      SilenceStaysOff(c, init, i);
    }
  }

  lemma KeptBefore(c: Settings, hist: seq<Frame>, i: nat)
    requires i < |hist| - 1
    ensures var init := hist[..|hist| - 1];
            Kept(c, hist, i) <==> Kept(c, init, i) || OpensFor(c, hist, i, |hist| - 1)
  {
    var init := hist[..|hist| - 1];
    assert init[..i] == hist[..i];
    forall j | i < j < |init|
      ensures OpensFor(c, hist, i, j) <==> OpensFor(c, init, i, j)
    {
      assert init[i + 1..j] == hist[i + 1..j];
    }
    if exists j :: OpensFor(c, init, i, j) {
      var j :| OpensFor(c, init, i, j);
      assert OpensFor(c, hist, i, j);
    }
  }

  /** At the frame that opens a segment, with `quiets` before it: the preroll is exactly the
      frames the segment opens for. */
  lemma PrerollOpens(c: Settings, hist: seq<Frame>, i: nat)
    requires hist != [] && i < |hist| - 1 && (forall g :: g in hist ==> Audible(g))
    requires var s := After(c, hist[..|hist| - 1]); s.Off? && hist[|hist| - 1].loud && i >= |hist| - 1 - |s.quiets|
    ensures var p := Preroll(c, After(c, hist[..|hist| - 1]).quiets);
            OpensFor(c, hist, i, |hist| - 1) <==> i >= |hist| - 1 - |p|
  {
    var n := |hist| - 1;
    var init := hist[..n];
    PrerollCovers(c, init, i);
    QuietTail(c, init, i);
    assert hist[i + 1..n] == init[i + 1..];
    forall k | i <= k < n
      ensures !hist[k].loud
    {
      assert !init[k].loud;
    }
  }

  lemma QuietTail(c: Settings, init: seq<Frame>, i: nat)
    requires |init| - |After(c, init).quiets| <= i
    ensures forall k :: i <= k < |init| ==> !init[k].loud
  {
    QuietsAreLast(c, init);
    var quiets := After(c, init).quiets;
    forall k | i <= k < |init|
      ensures !init[k].loud
    {
      assert init[k] == quiets[k - (|init| - |quiets|)];
    }
  }

  lemma PrerollCovers(c: Settings, init: seq<Frame>, i: nat)
    requires i < |init| && (forall g :: g in init ==> Audible(g)) && |init| - |After(c, init).quiets| <= i
    ensures Length(init[i + 1..]) < c.preroll <==> i >= |init| - |Preroll(c, After(c, init).quiets)|
  {
    var quiets := After(c, init).quiets;
    QuietsAreLast(c, init);
    PrerollIs(c, quiets);
    SuffixOfSuffix(Preroll(c, quiets), quiets, init);
    SuffixOpens(c, init, quiets, Preroll(c, quiets), i);
  }

  lemma SuffixOpens(c: Settings, init: seq<Frame>, quiets: seq<Frame>, p: seq<Frame>, i: nat)
    requires i < |init| && (forall g :: g in init ==> Audible(g))
    requires IsPreroll(c, p, quiets) && IsSuffix(p, init) && |init| - |quiets| <= i
    ensures Length(init[i + 1..]) < c.preroll <==> i >= |init| - |p|
  {
    if i >= |init| - |p| { WithinPreroll(c, init, p, i); } else { BeforePreroll(c, init, p, i); }
  }

  lemma WithinPreroll(c: Settings, init: seq<Frame>, p: seq<Frame>, i: nat)
    requires |init| - |p| <= i < |init| && (forall g :: g in init ==> Audible(g)) && IsSuffix(p, init)
    requires Length(p[1..]) < c.preroll
    ensures Length(init[i + 1..]) < c.preroll
  {
    var k := i - (|init| - |p|);
    SliceOfSuffix(p, init, k);
    assert forall g :: g in p[1..] ==> g in init;
    LengthSuffix(p[1..], k);
  }

  lemma BeforePreroll(c: Settings, init: seq<Frame>, p: seq<Frame>, i: nat)
    requires i < |init| - |p| && (forall g :: g in init ==> Audible(g)) && IsSuffix(p, init)
    requires Length(p) >= c.preroll
    ensures Length(init[i + 1..]) >= c.preroll
  {
    var k := |init| - |p| - i - 1;
    assert p == init[i + 1..][k..];
    LengthSuffix(init[i + 1..], k);
  }

  lemma SliceOfSuffix(p: seq<Frame>, init: seq<Frame>, k: nat)
    requires IsSuffix(p, init) && k < |p|
    ensures init[|init| - |p| + k + 1..] == p[1..][k..]
  {
  }

  /** The forwarded frames are exactly the kept ones: every loud frame, every frame of an open
      segment, and of the silence before a segment what the preroll covers. */
  lemma {:induction false} ForwardedExactly(c: Settings, hist: seq<Frame>, i: nat)
    requires i < |hist| && forall g :: g in hist ==> Audible(g)
    ensures i in Forwarded(c, hist) <==> Kept(c, hist, i)
  {
    if i == |hist| - 1 {
      LastForwarded(c, hist);
    } else {
      ForwardedExactly(c, hist[..|hist| - 1], i);
      EarlierForwarded(c, hist, i);
    }
  }

  lemma LastForwarded(c: Settings, hist: seq<Frame>)
    requires hist != []
    ensures |hist| - 1 in Forwarded(c, hist) <==> Kept(c, hist, |hist| - 1)
  {
    var n := |hist| - 1;
    assert n !in Forwarded(c, hist[..n]);
    assert forall j :: !OpensFor(c, hist, n, j);
    ForwardsLast(c, hist);
  }

  /** Frame `i` is in the preroll that the last frame makes the gate forward, exactly if the
      segment opens for it, unless it was kept before. */
  lemma PrerollIsOpening(c: Settings, hist: seq<Frame>, i: nat)
    requires i < |hist| - 1 && (forall g :: g in hist ==> Audible(g)) && !Kept(c, hist[..|hist| - 1], i)
    ensures i in Forwards(c, hist) <==> OpensFor(c, hist, i, |hist| - 1)
  {
    var n := |hist| - 1;
    var init := hist[..n];
    var s := After(c, init);
    ForwardsEarlier(c, hist, i);
    if s.Off? && hist[n].loud && i >= n - |s.quiets| {
      PrerollOpens(c, hist, i);
    } else if OpensFor(c, hist, i, n) {
      assert init[..i] == hist[..i];
      SilenceStaysOff(c, init, i);
    }
  }

  lemma EarlierForwarded(c: Settings, hist: seq<Frame>, i: nat)
    requires i < |hist| - 1 && forall g :: g in hist ==> Audible(g)
    requires i in Forwarded(c, hist[..|hist| - 1]) <==> Kept(c, hist[..|hist| - 1], i)
    ensures i in Forwarded(c, hist) <==> Kept(c, hist, i)
  {
    KeptBefore(c, hist, i);
    if !Kept(c, hist[..|hist| - 1], i) { PrerollIsOpening(c, hist, i); }
  }

  lemma ForwardsLast(c: Settings, hist: seq<Frame>)
    requires hist != []
    ensures |hist| - 1 in Forwards(c, hist) <==> hist[|hist| - 1].loud || After(c, hist[..|hist| - 1]).On?
  {
    var n := |hist| - 1;
    var s := After(c, hist[..n]);
    if s.Off? && hist[n].loud {
      RangeHas(n - |Preroll(c, s.quiets)|, n + 1, n);
    }
  }

  lemma ForwardsEarlier(c: Settings, hist: seq<Frame>, i: nat)
    requires i < |hist| - 1
    ensures var s := After(c, hist[..|hist| - 1]);
            i in Forwards(c, hist) <==> s.Off? && hist[|hist| - 1].loud && i >= |hist| - 1 - |Preroll(c, s.quiets)|
  {
    var n := |hist| - 1;
    var s := After(c, hist[..n]);
    if s.Off? && hist[n].loud {
      RangeHas(n - |Preroll(c, s.quiets)|, n + 1, i);
    }
  }

  // ---------------------------------------------------------------- when a segment ends

  /** The quiet frames since the last loud one. */
  function QuietRun(hist: seq<Frame>): seq<Frame> {
    if hist == [] || hist[|hist| - 1].loud then [] else QuietRun(hist[..|hist| - 1]) + [hist[|hist| - 1]]
  }

  lemma {:induction false} OpenQuiets(c: Settings, hist: seq<Frame>)
    requires After(c, hist).On?
    ensures After(c, hist).quiets == QuietRun(hist)
  {
    if hist != [] && !hist[|hist| - 1].loud {
      OpenQuiets(c, hist[..|hist| - 1]);
    }
  }

  /** A segment opens exactly at a loud frame, and ends exactly when the quiet time since the
      last loud one reaches the hangover. */
  lemma SegmentEndsExactly(c: Settings, hist: seq<Frame>, f: Frame)
    ensures After(c, hist).Off? ==> (After(c, hist + [f]).On? <==> f.loud)
    ensures After(c, hist).On? ==>
              (After(c, hist + [f]).Off? <==> !f.loud && Length(QuietRun(hist + [f])) >= c.hangover)
  {
    AfterSnoc(c, hist, f);
    assert (hist + [f])[..|hist|] == hist;
    if After(c, hist).On? { OpenQuiets(c, hist); }
  }
}
