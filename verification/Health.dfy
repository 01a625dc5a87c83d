/** Observable connection state of one service (`ServiceHealth` in `reconnection.py`). */
module Health {

  datatype Mode = Connected | Reconnecting | Degraded

  class ServiceHealth {
    const initial: Mode
    var state: Mode
    var reconnectAttempts: nat
    var failed: bool
    /** The calls of the `on_state_change` hook so far. */
    var announced: seq<Mode>

    /** The hook fires exactly on transitions: it never repeats itself, and the last call, if
        any, names the current state. */
    ghost predicate Valid()
      reads this
    {
      && (forall i :: 0 <= i < |announced| - 1 ==> announced[i] != announced[i + 1])
      && (if announced == [] then state == initial else announced[0] != initial && announced[|announced| - 1] == state)
    }

    constructor (initial: Mode)
      ensures Valid() && state == initial && reconnectAttempts == 0 && !failed && announced == []
    {
      this.initial, state, reconnectAttempts, failed, announced := initial, initial, 0, false, [];
    }

    method SetState(to: Mode)
      requires Valid()
      modifies this`state, this`announced
      ensures Valid() && state == to
      ensures announced == if old(state) == to then old(announced) else old(announced) + [to]
    {
      if to == state {
        return;
      }
      state := to;
      announced := announced + [to];
    }

    method MarkConnected()
      requires Valid()
      modifies this
      ensures Valid() && state == Connected && reconnectAttempts == 0 && !failed
      ensures announced == if old(state) == Connected then old(announced) else old(announced) + [Connected]
    {
      reconnectAttempts, failed := 0, false;
      SetState(Connected);
    }

    method MarkAttemptFailed()
      requires Valid()
      modifies this`reconnectAttempts, this`failed
      ensures Valid() && reconnectAttempts == old(reconnectAttempts) + 1 && failed
    {
      reconnectAttempts, failed := reconnectAttempts + 1, true;
    }
  }
}
