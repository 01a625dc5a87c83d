/** Pacing of reply audio to playback rate with a small lead (`pacing.py`). */
module Pacing {
  import opened Common

  const BYTES_PER_S := 48000.0
  const FRAME_BYTES := 9600

  /** A monotone clock whose `Sleep` lasts at least as long as asked. */
  class Clock {
    var now: real

    constructor ()
    {
      now := 0.0;
    }

    method Read() returns (t: real)
      modifies this
      ensures t == now >= old(now)
    {
      var later: real := *;
      now := MaxReal(now, later);
      t := now;
    }

    method Sleep(d: real)
      modifies this
      ensures now >= old(now) && now >= old(now) + d
    {
      var later: real := *;
      now := MaxReal(MaxReal(now, now + d), later);
    }
  }

  /** One frame given out: the clock reading it was paced by, the sleep asked for, the time it
      was given out, and its size. */
  datatype Release = Release(read: real, asked: real, at: real, size: nat)

  function MaxReal(a: real, b: real): real { if a >= b then a else b }

  /** Playing time of `n` bytes. */
  function Playing(n: nat): real { n as real / BYTES_PER_S }

  /** When the client, playing frames as they come, would be through with all of them. */
  function PlayEnd(log: seq<Release>): real {
    if |log| == 0 then 0.0
    else
      var last := log[|log| - 1];
      MaxReal(PlayEnd(log[..|log| - 1]), last.read) + Playing(last.size)
  }

  /** The one frame was given out no sooner than `lead` before its turn to play, and sleep was
      asked for only as far as that needs. */
  predicate Timely(before: seq<Release>, r: Release, lead: real) {
    var start := MaxReal(PlayEnd(before), r.read);
    && r.size <= FRAME_BYTES && r.at >= r.read && r.at >= start - lead
    && (if start - r.read > lead then r.asked == start - r.read - lead else r.asked == 0.0)
    && (before != [] ==> r.read >= before[|before| - 1].at)
  }

  /** Every frame was given out in time, in order. */
  predicate Paced(log: seq<Release>, lead: real) {
    log == [] || (Paced(log[..|log| - 1], lead) && Timely(log[..|log| - 1], log[|log| - 1], lead))
  }

  /** The releases `log` are those of `frames`. */
  predicate Carries(log: seq<Release>, frames: seq<seq<Byte>>) {
    |log| == |frames| && forall i :: 0 <= i < |log| ==> log[i].size == |frames[i]|
  }

  /** All frames are full, but for a shorter and non-empty last one if `rest`. */
  predicate Full(frames: seq<seq<Byte>>, rest: bool) {
    forall i :: 0 <= i < |frames| ==>
      0 < |frames[i]| <= FRAME_BYTES && (i < |frames| - 1 || !rest ==> |frames[i]| == FRAME_BYTES)
  }

  /** `frames` is `chunk` up to `i`, cut as it should be. */
  predicate IsCut(chunk: seq<Byte>, frames: seq<seq<Byte>>, i: nat) {
    i <= |chunk| && Concat(frames) == chunk[..i] && Full(frames, i == |chunk|)
  }

  lemma CutFrame(chunk: seq<Byte>, frames: seq<seq<Byte>>, i: nat, end: nat)
    requires i < end <= |chunk| && end - i <= FRAME_BYTES && (end < |chunk| ==> end - i == FRAME_BYTES)
    requires IsCut(chunk, frames, i)
    ensures IsCut(chunk, frames + [chunk[i..end]], end)
  {
    ConcatSnoc(frames, chunk[i..end]);
    assert chunk[..end] == chunk[..i] + chunk[i..end];
  }

  lemma CarriesSnoc(log: seq<Release>, frames: seq<seq<Byte>>, r: Release, frame: seq<Byte>)
    requires Carries(log, frames) && r.size == |frame|
    ensures Carries(log + [r], frames + [frame])
  {
  }

  /** `log` is `was` and the releases of `frames`. */
  predicate Added(was: seq<Release>, log: seq<Release>, frames: seq<seq<Byte>>) {
    was <= log && Carries(log[|was|..], frames)
  }

  lemma AddedNone(log: seq<Release>)
    ensures Added(log, log, [])
  {
  }

  lemma AddedSnoc(was: seq<Release>, log: seq<Release>, frames: seq<seq<Byte>>, r: Release, frame: seq<Byte>)
    requires Added(was, log, frames) && r.size == |frame|
    ensures Added(was, log + [r], frames + [frame])
  {
    CarriesSnoc(log[|was|..], frames, r, frame);
    assert (log + [r])[|was|..] == log[|was|..] + [r];
  }

  class AudioPacer {
    const lead: real
    const enabled: bool
    var playEnd: real
    /** The frames paced in this turn. */
    ghost var log: seq<Release>

    ghost predicate Valid(clock: Clock)
      reads this, clock
    {
      playEnd == PlayEnd(log) && Paced(log, lead) && (log != [] ==> clock.now >= log[|log| - 1].at)
    }

    constructor (lead: real, enabled: bool, clock: Clock)
      ensures Valid(clock) && log == [] && this.lead == lead && this.enabled == enabled
    {
      this.lead, this.enabled, playEnd := lead, enabled, 0.0;
      log := [];
    }

    /** Frames concatenate to the chunk; when enabled they are full but for the last, and their
        releases extend a log that stays paced. */
    method Frames(chunk: seq<Byte>, clock: Clock) returns (frames: seq<seq<Byte>>)
      requires Valid(clock)
      modifies this, clock
      ensures Valid(clock) && Concat(frames) == chunk
      ensures !enabled ==> frames == [chunk] && log == old(log)
      ensures enabled ==> Added(old(log), log, frames) && Full(frames, true)
    {
      frames := [];
      if !enabled {
        ConcatSnoc([], chunk);
        return [chunk];
      }
      var i := 0;
      AddedNone(log);
      while i < |chunk|
        invariant 0 <= i <= |chunk| && Valid(clock) && IsCut(chunk, frames, i) && Added(old(log), log, frames)
      {
        var end := if i + FRAME_BYTES <= |chunk| then i + FRAME_BYTES else |chunk|;
        var frame := chunk[i..end];
        ghost var before := log;
        ghost var r := Pace(|frame|, clock);
        CutFrame(chunk, frames, i, end);
        AddedSnoc(old(log), before, frames, r, frame);
        frames := frames + [frame];
        i := end;
      }
      assert chunk[..i] == chunk;
    }

    /** The pacing of one frame. */
    method Pace(size: nat, clock: Clock) returns (ghost r: Release)
      requires Valid(clock) && size <= FRAME_BYTES
      modifies this, clock
      ensures Valid(clock) && log == old(log) + [r] && r.size == size
    {
      var now := clock.Read();
      var start := MaxReal(playEnd, now);
      ghost var asked := 0.0;
      if start - now > lead {
        asked := start - now - lead;
        clock.Sleep(start - now - lead);
      }
      r := Release(now, asked, clock.now, size);
      Extend(log, r, lead, start);
      playEnd := start + Playing(size);
      log := log + [r];
    }
  }

  lemma Extend(log: seq<Release>, r: Release, lead: real, start: real)
    requires Paced(log, lead) && Timely(log, r, lead) && start == MaxReal(PlayEnd(log), r.read)
    ensures Paced(log + [r], lead) && PlayEnd(log + [r]) == start + Playing(r.size)
  {
    assert (log + [r])[..|log|] == log;
  }

  // ---------------------------------------------------------------- the rate bound

  function Total(log: seq<Release>): nat {
    if |log| == 0 then 0 else Total(log[..|log| - 1]) + log[|log| - 1].size
  }

  /** Bytes given out by time `t`. */
  function ReleasedBy(log: seq<Release>, t: real): nat {
    if |log| == 0 then 0
    else ReleasedBy(log[..|log| - 1], t) + if log[|log| - 1].at <= t then log[|log| - 1].size else 0
  }

  /** All audio given out so far takes its time to play, counted from the first frame. */
  lemma {:induction false} PlaybackTakesTime(log: seq<Release>, lead: real)
    requires Paced(log, lead) && log != []
    ensures PlayEnd(log) >= log[0].read + Playing(Total(log))
  {
    var init := log[..|log| - 1];
    if init != [] {
      PlaybackTakesTime(init, lead);
    } else {
      assert Total(init) == 0;
    }
  }

  lemma TotalBound(log: seq<Release>, lead: real)
    requires Paced(log, lead) && log != []
    ensures var last := log[|log| - 1];
            Total(log) as real <= BYTES_PER_S * (last.at - log[0].read + lead) + FRAME_BYTES as real
  {
    var init := log[..|log| - 1];
    if init != [] {
      PlaybackTakesTime(init, lead);
    } else {
      assert Total(init) == 0;
    }
  }

  lemma {:induction false} AllReleased(log: seq<Release>, lead: real, t: real)
    requires Paced(log, lead) && (log != [] ==> log[|log| - 1].at <= t)
    ensures ReleasedBy(log, t) == Total(log)
  {
    if log == [] {
    } else {
      AllReleased(log[..|log| - 1], lead, t);
    }
  }

  /** Across all chunks of a turn, the bytes given out by any time `t` since the first frame
      never exceed what plays in that time plus the lead, by more than one frame. */
  lemma {:induction false} RateBound(log: seq<Release>, lead: real, t: real)
    requires Paced(log, lead) && log != [] && log[0].at <= t
    ensures ReleasedBy(log, t) as real <= BYTES_PER_S * (t - log[0].read + lead) + FRAME_BYTES as real
  {
    if log[|log| - 1].at <= t {
      AllReleased(log, lead, t);
      TotalBound(log, lead);
    } else {
      assert |log| > 1;
      RateBound(log[..|log| - 1], lead, t);
    }
  }

  // ---------------------------------------------------------------- no gap

  /** The consumer asks for each frame as soon as it has the one before, and sleeps are exact. */
  predicate Prompt(log: seq<Release>) {
    && (forall i :: 0 <= i < |log| ==> log[i].at == log[i].read + log[i].asked)
    && (forall i :: 0 <= i < |log| - 1 ==> log[i + 1].read == log[i].at)
  }

  /** A frame asked for in time is given out before the audio before it has played. */
  lemma LastInTime(log: seq<Release>, lead: real)
    requires Paced(log, lead) && log != [] && lead >= 0.0 && Prompt(log)
    ensures log[|log| - 1].at <= PlayEnd(log)
  {
  }

  /** Pacing alone never makes playback run dry: the client plays all it was given, across all
      chunks, without a gap from the first frame on. */
  lemma {:induction false} PacingLeavesNoGap(log: seq<Release>, lead: real)
    requires Paced(log, lead) && log != [] && lead >= 0.0 && Prompt(log) && log[0].read >= 0.0
    ensures PlayEnd(log) == log[0].read + Playing(Total(log))
  {
    var init := log[..|log| - 1];
    if init == [] {
      assert Total(init) == 0 && PlayEnd(init) == 0.0;
    } else {
      PacingLeavesNoGap(init, lead);
      LastInTime(init, lead);
      assert log[|log| - 1].read == init[|init| - 1].at;
    }
  }
}
