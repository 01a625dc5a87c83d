/** The turn frames a client sees, and what it means for them to be well bracketed.

    A frame names its turn by number (`t-<n>` on the wire). `PushAudio` is audio of an
    orchestrator-initiated push turn, `Audio` that of a user turn: both are the same binary
    frame on the wire, they are told apart here because different tasks produce them. */
module TurnFrames {
  /** A turn number, if any. */
  datatype Number = None | Some(value: nat)

  datatype Frame =
    | TurnStart(no: nat)
    | TurnEnd(no: nat)
    | Token(no: nat)
    | ToolCall(no: nat)
    | Audio(no: nat)
    | PushAudio(no: nat)
    | Interrupted(cut: Number)

  /** The turn whose bracket is open at the end of `t`. */
  function Open(t: seq<Frame>): Number {
    if |t| == 0 then None
    else match t[|t| - 1]
      case TurnStart(n) => Some(n)
      case TurnEnd(_) => None
      case _ => Open(t[..|t| - 1])
  }

  /** The highest turn number started in `t` (numbers start at 1). */
  function Top(t: seq<Frame>): nat {
    if |t| == 0 then 0
    else
      var rest := Top(t[..|t| - 1]);
      match t[|t| - 1]
      case TurnStart(n) => if n > rest then n else rest
      case _ => rest
  }

  /** May `f` follow `t`? With `strict` off, push audio is left unconstrained. */
  predicate Fits(t: seq<Frame>, f: Frame, strict: bool) {
    match f
    case TurnStart(n) => Open(t) == None && n > Top(t)
    case TurnEnd(n) => Open(t) == Some(n)
    case Token(n) => Open(t) == Some(n)
    case ToolCall(n) => Open(t) == Some(n)
    case Audio(n) => Open(t) == Some(n)
    case PushAudio(n) => strict ==> Open(t) == Some(n)
    case Interrupted(c) => c.Some? ==> TurnEnd(c.value) in t
  }

  predicate Bracketed(t: seq<Frame>, strict: bool) {
    |t| == 0 || (Bracketed(t[..|t| - 1], strict) && Fits(t[..|t| - 1], t[|t| - 1], strict))
  }

  predicate IsEdge(f: Frame) { f.TurnStart? || f.TurnEnd? }

  lemma Snoc(t: seq<Frame>, f: Frame, strict: bool)
    ensures Bracketed(t + [f], strict) <==> Bracketed(t, strict) && Fits(t, f, strict)
    ensures Open(t + [f]) == (match f case TurnStart(n) => Some(n) case TurnEnd(_) => None case _ => Open(t))
    ensures Top(t + [f]) == (if f.TurnStart? && f.no > Top(t) then f.no else Top(t))
  {
    assert (t + [f])[..|t|] == t;
  }

  lemma {:induction false} PrefixBracketed(t: seq<Frame>, k: nat, strict: bool)
    requires Bracketed(t, strict) && k <= |t|
    ensures Bracketed(t[..k], strict)
    decreases |t|
  {
    if k < |t| {
      PrefixBracketed(t[..|t| - 1], k, strict);
      assert t[..|t| - 1][..k] == t[..k];
    } else {
      assert t[..k] == t;
    }
  }

  /** Position of the start frame of the bracket open at the end of `t`. */
  lemma {:induction false} OpenHasStart(t: seq<Frame>) returns (i: nat)
    requires Open(t).Some?
    ensures i < |t| && t[i] == TurnStart(Open(t).value)
    ensures forall m :: i < m < |t| ==> !IsEdge(t[m])
  {
    if t[|t| - 1].TurnStart? {
      i := |t| - 1;
    } else {
      i := OpenHasStart(t[..|t| - 1]);
    }
  }

  lemma {:induction false} TopBounds(t: seq<Frame>, i: nat)
    requires i < |t| && t[i].TurnStart?
    ensures t[i].no <= Top(t)
  {
    if i < |t| - 1 {
      TopBounds(t[..|t| - 1], i);
    }
  }

  /** A started turn that is not open any more has been ended. */
  lemma {:induction false} StartedThenEnded(t: seq<Frame>, n: nat, strict: bool)
    requires Bracketed(t, strict) && TurnStart(n) in t && Open(t) != Some(n)
    ensures TurnEnd(n) in t
  {
    var rest := t[..|t| - 1];
    var f := t[|t| - 1];
    if f != TurnEnd(n) {
      assert f != TurnStart(n);
      assert TurnStart(n) in rest by {
        var i :| 0 <= i < |t| && t[i] == TurnStart(n);
        assert rest[i] == TurnStart(n);
      }
      StartedThenEnded(rest, n, strict);
      var j :| 0 <= j < |rest| && rest[j] == TurnEnd(n);
      assert t[j] == TurnEnd(n);
    }
  }

  /** Every turn is started at most once. */
  lemma {:induction false} StartsAreFresh(t: seq<Frame>, i: nat, j: nat, strict: bool)
    requires Bracketed(t, strict) && i < j < |t| && t[i].TurnStart? && t[j].TurnStart?
    ensures t[i].no < t[j].no
  {
    PrefixBracketed(t, j + 1, strict);
    assert t[..j + 1][..j] == t[..j];
    TopBounds(t[..j], i);
  }

  /** Content and end frames sit inside the bracket of their own turn: its only start comes
      before them and no other start or end lies in between. */
  lemma {:induction false} InsideOwnBracket(t: seq<Frame>, k: nat, strict: bool) returns (i: nat)
    requires Bracketed(t, strict) && k < |t|
    requires t[k].TurnEnd? || t[k].Token? || t[k].ToolCall? || t[k].Audio? || (strict && t[k].PushAudio?)
    ensures i < k && t[i] == TurnStart(t[k].no)
    ensures forall m :: i < m < k ==> !IsEdge(t[m])
    ensures forall j :: 0 <= j < |t| && t[j] == TurnStart(t[k].no) ==> j == i
  {
    PrefixBracketed(t, k + 1, strict);
    assert t[..k + 1][..k] == t[..k];
    i := OpenHasStart(t[..k]);
    forall j | 0 <= j < |t| && t[j] == TurnStart(t[k].no) ensures j == i {
      if j < i { StartsAreFresh(t, j, i, strict); }
      if i < j { StartsAreFresh(t, i, j, strict); }
    }
  }

  /** Every turn is ended at most once. */
  lemma EndsAreUnique(t: seq<Frame>, j: nat, k: nat, strict: bool)
    requires Bracketed(t, strict) && j < |t| && k < |t| && t[j].TurnEnd? && t[k] == t[j]
    ensures j == k
  {
    var i := InsideOwnBracket(t, j, strict);
    var h := InsideOwnBracket(t, k, strict);
    assert IsEdge(t[j]) && IsEdge(t[k]);
  }

  /** A second start needs the end of the first in between. */
  lemma EndBeforeNextStart(t: seq<Frame>, i: nat, j: nat, strict: bool) returns (k: nat)
    requires Bracketed(t, strict) && i < j < |t| && t[i].TurnStart? && t[j].TurnStart?
    ensures i < k < j && t[k] == TurnEnd(t[i].no)
  {
    var n := t[i].no;
    PrefixBracketed(t, j + 1, strict);
    assert t[..j + 1][..j] == t[..j];
    assert t[..j][i] == TurnStart(n);
    StartedThenEnded(t[..j], n, strict);
    k :| 0 <= k < j && t[..j][k] == TurnEnd(n);
    var h := InsideOwnBracket(t, k, strict);
  }
}
