/** The input vocabulary (abstract keys, press states, the event record) and
    the per-owner key-to-callback registry. */
module Input {
  import opened Values

  /** Platform-independent input codes. `Dummy` stands for an unmapped key. */
  datatype VirtualKey =
    | Dummy
    | MouseLeft | MouseMiddle | MouseRight | MouseBack | MouseNext | MouseMove
    | Enter | Escape | Space | Control | Shift | Alt | BackSpace
    | Up | Down | Left | Right
    | A | B | C | D | E | F | G | H | I | J | K | L | M
    | N | O | P | Q | R | S | T | U | V | W | X | Y | Z
    | T0 | T1 | T2 | T3 | T4 | T5 | T6 | T7 | T8 | T9
    | Num0 | Num1 | Num2 | Num3 | Num4 | Num5 | Num6 | Num7 | Num8 | Num9

  datatype InputState = Press | Release | Repeat

  /** One input event. Pointer events carry a position; keyboard events do
      not, and the position is absent unless given. */
  datatype OperationParam = OperationParam(code: VirtualKey, state: InputState, position: Option<Position> := None)
  {
    predicate IsPress() { state == Press }

    predicate IsRelease() { state == Release }

    predicate IsRepeat() { state == Repeat }
  }

  /** Exactly one of the three state predicates holds, the one named by the
      state; and a param built without a position has none. */
  lemma StatePredicates(p: OperationParam)
    ensures p.IsPress() <==> p.state == Press
    ensures p.IsRelease() <==> p.state == Release
    ensures p.IsRepeat() <==> p.state == Repeat
    ensures (if p.IsPress() then 1 else 0) + (if p.IsRelease() then 1 else 0) + (if p.IsRepeat() then 1 else 0) == 1
    ensures OperationParam(p.code, p.state).position == None
  {
  }

  /** A callback answers whether it handled the event. Callbacks are pure
      here: what they do besides answering is not modelled. */
  type Callback = OperationParam -> bool

  /** A registry holding at most one callback per key. */
  class InputEvent {
    var callbacks: map<VirtualKey, Callback>

    constructor ()
      ensures callbacks == map[]
    {
      callbacks := map[];
    }

    /** False, without calling anything, when the key has no callback;
        otherwise exactly the registered callback's verdict. */
    function Process(param: OperationParam): (handled: bool)
      reads this
      ensures param.code !in callbacks ==> !handled
      ensures param.code in callbacks ==> handled == callbacks[param.code](param)
    {
      if param.code in callbacks then callbacks[param.code](param) else false
    }

    /** Registers `callback` for `code`. Fails (the source raises) when `code`
        is already registered, and then keeps the earlier callback. */
    method Connect(code: VirtualKey, callback: Callback) returns (ok: bool)
      modifies this
      ensures ok == (code !in old(callbacks))
      ensures ok ==> callbacks == old(callbacks)[code := callback]
      ensures !ok ==> callbacks == old(callbacks)
      ensures ok ==> forall param: OperationParam :: param.code == code ==> Process(param) == callback(param)
      ensures forall param: OperationParam :: param.code != code ==> Process(param) == old(Process(param))
    {
      if code in callbacks {
        return false;
      }
      callbacks := callbacks[code := callback];
      ok := true;
    }

    /** Removes the registration for `code`; fails (the source raises) when
        there is none. */
    method Disconnect(code: VirtualKey) returns (ok: bool)
      modifies this
      ensures ok == (code in old(callbacks))
      ensures callbacks == old(callbacks) - {code}
      ensures forall param: OperationParam :: param.code == code ==> !Process(param)
      ensures forall param: OperationParam :: param.code != code ==> Process(param) == old(Process(param))
    {
      if code !in callbacks {
        return false;
      }
      callbacks := callbacks - {code};
      ok := true;
    }

    /** Removes every registration; never fails. */
    method DisconnectAll()
      modifies this
      ensures callbacks == map[]
      ensures forall param: OperationParam :: !Process(param)
    {
      callbacks := map[];
    }
  }
}
