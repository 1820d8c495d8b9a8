// The webhook registry of modules/payments/webhook_handler.py: a module-level
// dictionary from event type to the handlers registered for it, filled by
// the `receive` decorator, and `handle_event`, which calls them in order.
module WebhookRouter {
  import opened Wrappers

  /** The `webhook_handlers` dictionary. */
  class Registry<H> {
    var handlers: map<string, seq<H>>

    constructor ()
      ensures handlers == map[]
    {
      handlers := map[];
    }

    /** `webhook_handlers.get(event_type, [])`. */
    function RegisteredFor(eventType: string): (hs: seq<H>)
      reads this
      ensures eventType !in handlers ==> hs == []
      ensures eventType in handlers ==> hs == handlers[eventType]
    {
      if eventType in handlers then handlers[eventType] else []
    }

    /**
     * `receive(event_type)(func)`: appends `func` to the end of its type's
     * list and hands it back unchanged, so the same function can be
     * registered again under another type.
     */
    method Receive(eventType: string, func: H) returns (r: H)
      modifies this
      ensures r == func
      ensures handlers == old(handlers)[eventType := old(RegisteredFor(eventType)) + [func]]
    {
      if eventType !in handlers {
        handlers := handlers[eventType := []];
      }
      handlers := handlers[eventType := handlers[eventType] + [func]];
      return func;
    }
  }

  /**
   * What calling a handler list did: the state reached, the handlers that
   * were called (in call order), and the exception that stopped the loop,
   * if one did.
   */
  datatype Dispatched<H, S, E> = Dispatched(state: S, called: seq<H>, failure: Option<E>)

  /**
   * The `for handler in handlers: handler(event)` loop. `step` is one
   * handler run on the state; an `Err` is an exception, which leaves
   * that handler's changes unsaved and ends the loop: nothing isolates the
   * handlers after it.
   */
  function Dispatch<H, S, E>(hs: seq<H>, step: (H, S) -> Result<S, E>, s: S): (d: Dispatched<H, S, E>)
    ensures d.called <= hs
    ensures d.failure.None? ==> d.called == hs
    ensures d.failure.Some? ==> |d.called| > 0
    ensures |hs| == 0 ==> d == Dispatched(s, [], None)
    decreases |hs|
  {
    if |hs| == 0 then Dispatched(s, [], None)
    else
      match step(hs[0], s)
      case Err(e) => Dispatched(s, [hs[0]], Some(e))
      case Ok(s1) =>
        var d := Dispatch(hs[1..], step, s1);
        assert hs == [hs[0]] + hs[1..];
        Dispatched(d.state, [hs[0]] + d.called, d.failure)
  }

  /** Running `b` after `a`: the loop over `a + b` is the loop over `a`, then, unless that failed, the loop over `b`. */
  function Then<H, S, E>(da: Dispatched<H, S, E>, b: seq<H>, step: (H, S) -> Result<S, E>): Dispatched<H, S, E>
  {
    if da.failure.Some? then da
    else
      var db := Dispatch(b, step, da.state);
      Dispatched(db.state, da.called + db.called, db.failure)
  }

  lemma {:induction false} DispatchAppend<H, S, E>(a: seq<H>, b: seq<H>, step: (H, S) -> Result<S, E>, s: S)
    ensures Dispatch(a + b, step, s) == Then(Dispatch(a, step, s), b, step)
    decreases |a|
  {
    if |a| == 0 {
      assert a + b == b;
    } else {
      assert (a + b)[0] == a[0];
      assert (a + b)[1..] == a[1..] + b;
      match step(a[0], s)
      case Err(e) =>
      case Ok(s1) =>
        DispatchAppend(a[1..], b, step, s1);
        var d := Dispatch(a[1..], step, s1);
        if d.failure.None? {
          var db := Dispatch(b, step, d.state);
          assert [a[0]] + (d.called + db.called) == ([a[0]] + d.called) + db.called;
        }
    }
  }

  /**
   * When handler `k` is the first to raise, the handlers before it ran,
   * it ran, and none after it did; the state is the one it was called in.
   */
  lemma {:induction false} DispatchStopsAt<H, S, E>(hs: seq<H>, step: (H, S) -> Result<S, E>, s: S, k: nat)
    requires k < |hs|
    requires Dispatch(hs[..k], step, s).failure.None?
    requires step(hs[k], Dispatch(hs[..k], step, s).state).Err?
    ensures Dispatch(hs, step, s) ==
      Dispatched(Dispatch(hs[..k], step, s).state, hs[..k + 1],
                 Some(step(hs[k], Dispatch(hs[..k], step, s).state).error))
  {
    var pre := Dispatch(hs[..k], step, s);
    DispatchAppend(hs[..k], [hs[k]], step, s);
    assert hs[..k] + [hs[k]] == hs[..k + 1];
    DispatchAppend(hs[..k + 1], hs[k + 1..], step, s);
    assert hs[..k + 1] + hs[k + 1..] == hs;
    assert hs[..k] + [hs[k]] == hs[..k + 1];
  }

  /** When handler `k` returns normally, the loop goes on from the state it left. */
  lemma {:induction false} DispatchContinues<H, S, E>(hs: seq<H>, step: (H, S) -> Result<S, E>, s: S, k: nat)
    requires k < |hs|
    requires Dispatch(hs[..k], step, s).failure.None?
    requires step(hs[k], Dispatch(hs[..k], step, s).state).Ok?
    ensures Dispatch(hs[..k + 1], step, s) ==
      Dispatched(step(hs[k], Dispatch(hs[..k], step, s).state).value, hs[..k + 1], None)
  {
    DispatchAppend(hs[..k], [hs[k]], step, s);
    assert hs[..k] + [hs[k]] == hs[..k + 1];
  }
}
