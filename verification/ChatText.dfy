/** Reconstruction of a reply from `chat` events (`openclaw/chat_text.py`): deltas, snapshots,
    replacements and finals become tokens that cannot be taken back. */
module ChatText {
  import opened Common

  /** The characters `str.strip` removes. */
  predicate IsSpace(c: char) {
    var n := c as int;
    9 <= n <= 13 || 28 <= n <= 32 || n == 0x85 || n == 0xA0 || n == 0x1680 || 0x2000 <= n <= 0x200A
    || n == 0x2028 || n == 0x2029 || n == 0x202F || n == 0x205F || n == 0x3000
  }

  function LStrip(s: string): string {
    if |s| > 0 && IsSpace(s[0]) then LStrip(s[1..]) else s
  }

  /** How a text relates to what was emitted: it extends it by `tail`, it is a strict and
      non-empty prefix of it, or neither. */
  datatype Fit = Extends(tail: string) | Retracts | Diverges

  /** `_tail`. After `lstrip`, `e.strip()` is non-empty exactly when `e` is. */
  function Tail(emitted: string, text: string): Fit {
    var e, f := LStrip(emitted), LStrip(text);
    if emitted <= text then Extends(text[|emitted|..])
    else if e != "" && e <= f then Extends(f[|e|..])
    else if text != "" && text < emitted then Retracts
    else Diverges
  }

  /** `missing_tail` */
  function MissingTail(emitted: string, finalText: string): string {
    match Tail(emitted, finalText)
    case Extends(tail) => tail
    case Retracts => ""
    case Diverges => finalText
  }

  /** The fields of the tracker. */
  datatype Text = Text(emitted: string, current: string, allOut: string)

  const EMPTY := Text("", "", "")

  /** `_emit_missing` */
  function EmitMissing(s: Text): (Text, string) {
    if s.current == "" then (s, "")
    else
      var fit := if Tail(s.emitted, s.current).Diverges? then Tail(s.allOut, s.current) else Tail(s.emitted, s.current);
      match fit
      case Retracts => (s, "")
      case Extends(tail) => (Text(s.current, s.current, s.allOut + tail), tail)
      case Diverges => (Text(s.current, s.current, s.allOut + s.current), s.current)
  }

  /** Absent, or a string: `deltaText`, and the text of `message` when that is an object. */
  datatype Field = Absent | Given(text: string)

  /** `state` of a `chat` event: `delta` or nothing, `final`, `error`, `aborted`, or any other. */
  datatype State = Delta | Final | Failed | Aborted | Other

  datatype Event = Event(state: State, delta: Field, snapshot: Field, replace: bool)

  predicate NonEmpty(f: Field) { f.Given? && f.text != "" }

  /** The new `current`, or Absent where `feed` returns without looking for a tail. */
  function NewCurrent(current: string, ev: Event): Field {
    match ev.state
    case Final =>
      if ev.snapshot.Given? && (ev.snapshot.text != "" || ev.delta.Absent?) then ev.snapshot
      else if NonEmpty(ev.delta) then Given(current + ev.delta.text)
      else Given(current)
    case Failed | Aborted | Other =>
      if NonEmpty(ev.delta) then Given(current + ev.delta.text) else Absent
    case Delta =>
      if ev.snapshot.Given? then ev.snapshot
      else if ev.delta.Given? && ev.replace then ev.delta
      else if NonEmpty(ev.delta) then Given(current + ev.delta.text)
      else Absent
  }

  /** State before the reset a `final` ends with, and the token. */
  function Update(s: Text, ev: Event): (Text, string) {
    var c := NewCurrent(s.current, ev);
    if c.Absent? then (s, "") else EmitMissing(s.(current := c.text))
  }

  /** `feed`: the state after the event and the token to emit ("" if none). */
  function Feed(s: Text, ev: Event): (Text, string) {
    var (s1, out) := Update(s, ev);
    (if ev.state == Final then EMPTY else s1, out)
  }

  /** The tracker itself, as its methods change it. */
  class ChatTextTracker {
    var emitted: string
    var current: string
    var allOut: string

    function Abs(): Text
      reads this
    {
      Text(emitted, current, allOut)
    }

    constructor ()
      ensures Abs() == EMPTY
    {
      emitted, current, allOut := "", "", "";
    }

    method Reset()
      modifies this
      ensures Abs() == EMPTY
    {
      emitted, current, allOut := "", "", "";
    }

    method EmitMissingNow() returns (out: string)
      modifies this
      ensures (Abs(), out) == EmitMissing(old(Abs()))
    {
      if current == "" {
        return "";
      }
      var fit := Tail(emitted, current);
      if fit.Diverges? {
        fit := Tail(allOut, current);
      }
      if fit.Retracts? {
        return "";
      }
      out := if fit.Extends? then fit.tail else current;
      emitted := current;
      allOut := allOut + out;
    }

    method FeedEvent(ev: Event) returns (out: string)
      modifies this
      ensures (Abs(), out) == Feed(old(Abs()), ev)
    {
      if ev.state == Final {
        if ev.snapshot.Given? && (ev.snapshot.text != "" || ev.delta.Absent?) {
          current := ev.snapshot.text;
        } else if NonEmpty(ev.delta) {
          current := current + ev.delta.text;
        }
        out := EmitMissingNow();
        Reset();
        return;
      }
      if ev.state != Delta {
        if !NonEmpty(ev.delta) {
          return "";
        }
        current := current + ev.delta.text;
        out := EmitMissingNow();
        return;
      }
      if ev.snapshot.Given? {
        current := ev.snapshot.text;
      } else if ev.delta.Given? && ev.replace {
        current := ev.delta.text;
      } else if NonEmpty(ev.delta) {
        current := current + ev.delta.text;
      } else {
        return "";
      }
      out := EmitMissingNow();
    }
  }

  // ---------------------------------------------------------------- runs

  /** The state after a sequence of events. */
  function Run(evs: seq<Event>): Text {
    if |evs| == 0 then EMPTY else Feed(Run(evs[..|evs| - 1]), evs[|evs| - 1]).0
  }

  /** The token emitted for the last event. */
  function LastToken(evs: seq<Event>): string
    requires |evs| > 0
  {
    Feed(Run(evs[..|evs| - 1]), evs[|evs| - 1]).1
  }

  /** Everything delivered for the reply in progress: the tokens since the last `final`. */
  function Delivered(evs: seq<Event>): string {
    if |evs| == 0 || evs[|evs| - 1].state == Final then ""
    else Delivered(evs[..|evs| - 1]) + LastToken(evs)
  }

  /** Everything delivered up to and including the last event, which may be the `final`. */
  function DeliveredWith(evs: seq<Event>): string
    requires |evs| > 0
  {
    Delivered(evs[..|evs| - 1]) + LastToken(evs)
  }

  // What OpenClaw's rules make of a message, with no reference to the tracker: a snapshot is
  // the whole text, so is a replacing delta, any other delta is added. A snapshot counts while
  // the message streams, and in a `final` unless it is empty beside a delta.

  predicate HasSnapshot(ev: Event) {
    && ev.snapshot.Given?
    && (ev.state == Delta || (ev.state == Final && (ev.snapshot.text != "" || ev.delta == Absent)))
  }

  predicate Replaces(ev: Event) { !HasSnapshot(ev) && ev.state == Delta && ev.replace && ev.delta.Given? }

  /** The event gives the whole text. */
  predicate IsWhole(ev: Event) { HasSnapshot(ev) || Replaces(ev) }

  function Whole(ev: Event): string
    requires IsWhole(ev)
  {
    if HasSnapshot(ev) then ev.snapshot.text else ev.delta.text
  }

  /** What the event adds to the text. */
  function Added(ev: Event): string { if !IsWhole(ev) && ev.delta.Given? then ev.delta.text else "" }

  /** The events of the message that the last event belongs to: those after the last `final`
      before it. */
  function Message(evs: seq<Event>): seq<Event> {
    if |evs| == 0 then []
    else if |evs| > 1 && evs[|evs| - 2].state == Final then [evs[|evs| - 1]]
    else Message(evs[..|evs| - 1]) + [evs[|evs| - 1]]
  }

  /** Where the last whole text of a message is; its length if there is none. */
  function LastWhole(msg: seq<Event>): (k: nat)
    ensures k <= |msg| && (k < |msg| ==> IsWhole(msg[k]))
  {
    if |msg| == 0 then 0
    else if IsWhole(msg[|msg| - 1]) then |msg| - 1
    else
      var k := LastWhole(msg[..|msg| - 1]);
      if k == |msg| - 1 then |msg| else k
  }

  /** All that the events from the `k`-th on add. */
  function AddedFrom(msg: seq<Event>, k: nat): string {
    if |msg| <= k then "" else AddedFrom(msg[..|msg| - 1], k) + Added(msg[|msg| - 1])
  }

  /** The text of a message: its last whole text and what was added after it, or all that was
      added. */
  function TextOf(msg: seq<Event>): string {
    var k := LastWhole(msg);
    if k < |msg| then Whole(msg[k]) + AddedFrom(msg, k + 1) else AddedFrom(msg, 0)
  }

  /** The text after the last event. */
  function MessageText(evs: seq<Event>): string { TextOf(Message(evs)) }

  predicate IsAt(a: string, b: string, i: int) { 0 <= i <= |b| - |a| && b[i..i + |a|] == a }

  ghost predicate Occurs(a: string, b: string) { exists i :: IsAt(a, b, i) }

  // ---------------------------------------------------------------- no text is lost

  lemma {:induction false} LStripIsSuffix(s: string)
    ensures IsSuffix(LStrip(s), s)
  {
    if |s| > 0 && IsSpace(s[0]) {
      LStripIsSuffix(s[1..]);
    }
  }

  lemma {:induction false} LStripAppend(a: string, b: string)
    ensures LStrip(a + b) == if LStrip(a) == "" then LStrip(b) else LStrip(a) + b
  {
    if |a| == 0 {
      assert a + b == b;
    } else if IsSpace(a[0]) {
      assert (a + b)[1..] == a[1..] + b;
      LStripAppend(a[1..], b);
    }
  }

  lemma SuffixAppend(a: string, b: string, c: string)
    requires IsSuffix(a, b)
    ensures IsSuffix(a + c, b + c)
  {
    assert (b + c)[|b| - |a|..] == b[|b| - |a|..] + c;
  }

  lemma SuffixTrans(a: string, b: string, c: string)
    requires IsSuffix(a, b) && IsSuffix(b, c)
    ensures IsSuffix(a, c)
  {
    assert c[|c| - |b|..][|b| - |a|..] == c[|c| - |a|..];
  }

  /** If `text` extends what was emitted, its stripped form ends what is delivered by then. */
  lemma ExtendedIsSuffix(base: string, text: string, out: string)
    requires Tail(base, text).Extends?
    requires IsSuffix(LStrip(base), out)
    ensures IsSuffix(LStrip(text), out + Tail(base, text).tail)
  {
    var tail := Tail(base, text).tail;
    SuffixAppend(LStrip(base), out, tail);
    if base <= text {
      assert text == base + tail;
      LStripAppend(base, tail);
      if LStrip(base) == "" {
        LStripIsSuffix(tail);
        SuffixTrans(LStrip(tail), tail, out + tail);
      }
    } else {
      assert LStrip(text) == LStrip(base) + tail;
    }
  }

  lemma RetractedOccurs(base: string, text: string, out: string)
    requires text < base && IsSuffix(LStrip(base), out)
    ensures Occurs(LStrip(text), out)
  {
    var rest := base[|text|..];
    assert base == text + rest;
    LStripAppend(text, rest);
    if LStrip(text) == "" {
      assert IsAt(LStrip(text), out, 0);
    } else {
      var i := |out| - |LStrip(base)|;
      assert out[i..i + |LStrip(text)|] == out[i..][..|LStrip(text)|];
      assert IsAt(LStrip(text), out, i);
    }
  }

  lemma SuffixOccurs(a: string, b: string)
    requires IsSuffix(a, b)
    ensures Occurs(a, b)
  {
    var i := |b| - |a|;
    assert b[i..i + |a|] == b[i..];
    assert IsAt(a, b, i);
  }

  /** What every event keeps. */
  ghost predicate TextInv(s: Text) {
    && IsSuffix(LStrip(s.emitted), s.allOut)
    && (s.current != "" ==> Occurs(LStrip(s.current), s.allOut))
  }

  lemma RetractCase(s: Text)
    requires IsSuffix(LStrip(s.emitted), s.allOut) && s.current != ""
    requires Tail(s.emitted, s.current).Retracts?
             || (Tail(s.emitted, s.current).Diverges? && Tail(s.allOut, s.current).Retracts?)
    ensures Occurs(LStrip(s.current), s.allOut)
  {
    LStripIsSuffix(s.allOut);
    if Tail(s.emitted, s.current).Retracts? {
      RetractedOccurs(s.emitted, s.current, s.allOut);
    } else {
      RetractedOccurs(s.allOut, s.current, s.allOut);
    }
  }

  lemma EmittedInv(current: string, all: string)
    requires IsSuffix(LStrip(current), all)
    ensures TextInv(Text(current, current, all))
  {
    SuffixOccurs(LStrip(current), all);
  }

  lemma DivergedIsSuffix(text: string, out: string)
    ensures IsSuffix(LStrip(text), out + text)
  {
    LStripIsSuffix(text);
    SuffixTrans(LStrip(text), text, out + text);
  }

  lemma EmitExtends(s: Text, base: string)
    requires Tail(base, s.current).Extends? && IsSuffix(LStrip(base), s.allOut)
    ensures TextInv(Text(s.current, s.current, s.allOut + Tail(base, s.current).tail))
  {
    ExtendedIsSuffix(base, s.current, s.allOut);
    EmittedInv(s.current, s.allOut + Tail(base, s.current).tail);
  }

  lemma EmitDiverges(s: Text)
    ensures TextInv(Text(s.current, s.current, s.allOut + s.current))
  {
    DivergedIsSuffix(s.current, s.allOut);
    EmittedInv(s.current, s.allOut + s.current);
  }

  lemma EmitKeeps(s: Text)
    requires IsSuffix(LStrip(s.emitted), s.allOut)
    ensures var (s1, out) := EmitMissing(s);
            && TextInv(s1) && s1.allOut == s.allOut + out && s1.current == s.current
  {
    if s.current == "" {
    } else {
      var base := if Tail(s.emitted, s.current).Diverges? then s.allOut else s.emitted;
      LStripIsSuffix(s.allOut);
      match Tail(base, s.current)
      case Extends(_) => EmitExtends(s, base);
      case Retracts => RetractCase(s);
      case Diverges => EmitDiverges(s);
    }
  }

  /** The token is what the event adds to what was delivered, whatever the state. */
  lemma UpdateAdds(s: Text, ev: Event)
    ensures Update(s, ev).0.allOut == s.allOut + Update(s, ev).1
  {
  }

  lemma UpdateKeeps(s: Text, ev: Event)
    requires TextInv(s)
    ensures var (s1, out) := Update(s, ev); TextInv(s1) && s1.allOut == s.allOut + out
  {
    var c := NewCurrent(s.current, ev);
    if c.Given? { EmitKeeps(s.(current := c.text)); }
  }

  lemma {:induction false} RunKeeps(evs: seq<Event>)
    ensures TextInv(Run(evs)) && Run(evs).allOut == Delivered(evs)
  {
    if |evs| == 0 {
    } else {
      RunKeeps(evs[..|evs| - 1]);
      UpdateKeeps(Run(evs[..|evs| - 1]), evs[|evs| - 1]);
    }
  }

  lemma AddedSnoc(msg: seq<Event>, ev: Event, k: nat)
    requires k <= |msg|
    ensures AddedFrom(msg + [ev], k) == AddedFrom(msg, k) + Added(ev)
  {
    assert (msg + [ev])[..|msg|] == msg;
  }

  lemma LastWholeSnoc(msg: seq<Event>, ev: Event)
    ensures var k, k1 := LastWhole(msg), LastWhole(msg + [ev]);
            k1 == if IsWhole(ev) then |msg| else if k == |msg| then |msg| + 1 else k
  {
    assert (msg + [ev])[..|msg|] == msg;
  }

  lemma Assoc(a: string, b: string, c: string)
    ensures a + (b + c) == (a + b) + c
  {
  }

  lemma GrownSnoc(msg: seq<Event>, ev: Event)
    requires !IsWhole(ev)
    ensures TextOf(msg + [ev]) == TextOf(msg) + Added(ev)
  {
    var k := LastWhole(msg);
    LastWholeSnoc(msg, ev);
    if k < |msg| {
      AddedSnoc(msg, ev, k + 1);
      Assoc(Whole(msg[k]), AddedFrom(msg, k + 1), Added(ev));
    } else {
      AddedSnoc(msg, ev, 0);
    }
  }

  lemma TextOfSnoc(msg: seq<Event>, ev: Event)
    ensures TextOf(msg + [ev]) == if IsWhole(ev) then Whole(ev) else TextOf(msg) + Added(ev)
  {
    if IsWhole(ev) {
      LastWholeSnoc(msg, ev);
      assert Whole(ev) + "" == Whole(ev);
    } else {
      GrownSnoc(msg, ev);
    }
  }

  /** The tracker's rule for one event is OpenClaw's. */
  lemma UpdateIsRule(s: Text, ev: Event)
    ensures Update(s, ev).0.current == if IsWhole(ev) then Whole(ev) else s.current + Added(ev)
  {
  }

  lemma RunCurrent(evs: seq<Event>)
    requires |evs| > 0
    ensures Run(evs).current
            == if evs[|evs| - 1].state == Final then "" else Update(Run(evs[..|evs| - 1]), evs[|evs| - 1]).0.current
  {
  }

  lemma MessageSnoc(evs: seq<Event>)
    requires |evs| > 0
    ensures var init := evs[..|evs| - 1];
            var before := if |init| == 0 || init[|init| - 1].state == Final then [] else Message(init);
            Message(evs) == before + [evs[|evs| - 1]]
  {
  }

  /** The tracker's `current` is the text that OpenClaw's rules give the message. */
  lemma {:induction false} MessageIsCurrent(evs: seq<Event>)
    requires |evs| > 0
    ensures Update(Run(evs[..|evs| - 1]), evs[|evs| - 1]).0.current == MessageText(evs)
  {
    var init, ev := evs[..|evs| - 1], evs[|evs| - 1];
    UpdateIsRule(Run(init), ev);
    MessageSnoc(evs);
    if |init| == 0 {
      TextOfSnoc([], ev);
    } else {
      RunCurrent(init);
      MessageIsCurrent(init);
      TextOfSnoc(if init[|init| - 1].state == Final then [] else Message(init), ev);
    }
  }

  /** No reply text is lost: whatever the events, after each one that leaves a text, that text
      without its leading whitespace occurs in one piece in what was delivered for the reply. */
  lemma NoTextIsLost(evs: seq<Event>)
    requires |evs| > 0 && MessageText(evs) != ""
    ensures Occurs(LStrip(MessageText(evs)), DeliveredWith(evs))
  {
    MessageIsCurrent(evs);
    RunKeeps(evs[..|evs| - 1]);
    UpdateKeeps(Run(evs[..|evs| - 1]), evs[|evs| - 1]);
  }

  // ---------------------------------------------------------------- nothing is repeated

  function Longer(a: string, b: string): string { if |b| > |a| then b else a }

  /** The longest text of the reply in progress. */
  function Longest(evs: seq<Event>): string {
    if |evs| == 0 || evs[|evs| - 1].state == Final then ""
    else Longer(Longest(evs[..|evs| - 1]), MessageText(evs))
  }

  /** Every text is a prefix or an extension of the longest one so far in its reply. */
  predicate Agree(evs: seq<Event>) {
    |evs| == 0
    || (Agree(evs[..|evs| - 1])
        && (MessageText(evs) <= Longest(evs[..|evs| - 1]) || Longest(evs[..|evs| - 1]) <= MessageText(evs)))
  }

  /** A strict prefix of what was emitted never takes the branch that strips both sides. */
  lemma StrictPrefixRetracts(emitted: string, text: string)
    requires text < emitted && text != ""
    ensures Tail(emitted, text) == Retracts
  {
    var rest := emitted[|text|..];
    assert emitted == text + rest;
    LStripAppend(text, rest);
  }

  /** All tracker texts agree with `longest`. */
  predicate InStep(s: Text, longest: string) { s.emitted == s.allOut == longest && s.current <= longest }

  lemma UpdateInStep(s: Text, ev: Event, longest: string)
    requires InStep(s, longest)
    requires var m := Update(s, ev).0.current; m <= longest || longest <= m
    ensures InStep(Update(s, ev).0, Longer(longest, Update(s, ev).0.current))
    ensures longest + Update(s, ev).1 == Longer(longest, Update(s, ev).0.current)
  {
    var m := Update(s, ev).0.current;
    if m != "" && m < longest { StrictPrefixRetracts(longest, m); }
  }

  lemma {:induction false} RunInStep(evs: seq<Event>)
    requires Agree(evs)
    ensures InStep(Run(evs), Longest(evs))
  {
    if |evs| == 0 {
    } else {
      RunInStep(evs[..|evs| - 1]);
      MessageIsCurrent(evs);
      UpdateInStep(Run(evs[..|evs| - 1]), evs[|evs| - 1], Longest(evs[..|evs| - 1]));
    }
  }

  /** No duplication while the texts agree: through any mix of growth, shrinking, empty
      replacement and regrowth, the tokens concatenate to exactly the longest text. */
  lemma NothingIsRepeated(evs: seq<Event>)
    requires |evs| > 0 && Agree(evs)
    ensures DeliveredWith(evs) == Longer(Longest(evs[..|evs| - 1]), MessageText(evs))
    ensures Delivered(evs) == Longest(evs)
  {
    var init := evs[..|evs| - 1];
    RunInStep(init);
    RunKeeps(init);
    MessageIsCurrent(evs);
    UpdateInStep(Run(init), evs[|evs| - 1], Longest(init));
    RunInStep(evs);
    RunKeeps(evs);
  }

  /** `missing_tail` never loses the final text either: it ends what was emitted plus the
      tail, unless it retracts to a prefix, when nothing is added. */
  lemma MissingTailCompletes(emitted: string, finalText: string)
    ensures IsSuffix(LStrip(finalText), emitted + MissingTail(emitted, finalText))
            || (finalText < emitted && MissingTail(emitted, finalText) == "")
  {
    LStripIsSuffix(emitted);
    LStripIsSuffix(finalText);
    match Tail(emitted, finalText)
    case Extends(_) => ExtendedIsSuffix(emitted, finalText, emitted);
    case Retracts =>
    case Diverges => SuffixTrans(LStrip(finalText), finalText, emitted + finalText);
  }
}
