/** The page component as an object: one field per piece of state (each
    React state/ref pair collapsed to one field), one method per handler.
    Each handler is proved equal to the value-level rule of the same name in
    module Rules. The handlers MouseDown, MouseMove, MouseUp, UpdatePhysics,
    Toggle and FireTimer also keep the invariant Rules.Inv (Valid). Trigger
    keeps it only when called with the counter below 3, as its one caller
    does (Rules.TriggerKeepsInv). ClearAllTimeouts on its own may break it:
    it keeps the guard while cancelling its release timer, so only the
    toggle, which then clears the guard, and unmount call it. The helpers
    SetTimeout (the host's timer call) and Schedule (the steps' timers, the
    imperative form of Rules.Launch) state only what they do to the timer
    fields. */
module Page {
  import Rules

  class Widget {
    var process: real
    var shown: int
    var angle: real
    var enabled: bool
    var message: string
    var count: nat
    var busy: bool
    var pending: seq<Rules.Timer>
    var nextId: nat
    var dragging: bool
    var lastY: real

    /** The fields as one value. */
    function Snapshot(): Rules.State
      reads this
    {
      Rules.State(process, shown, angle, enabled, message, count, busy, pending, nextId, dragging, lastY)
    }

    ghost predicate Valid()
      reads this
    {
      Rules.Inv(Snapshot())
    }

    constructor ()
      ensures Snapshot() == Rules.Init && Valid()
    {
      process, shown, angle := 0.0, 0, 0.0;
      enabled, message := false, "";
      count, busy := 0, false;
      pending, nextId := [], 0;
      dragging, lastY := false, 0.0;
      Rules.InitInv();
    }

    method MouseDown(y: real)
      requires Valid()
      modifies this
      ensures Snapshot() == Rules.MouseDown(old(Snapshot()), y) && Valid()
    {
      dragging := true;
      lastY := y;
    }

    method MouseMove(y: real)
      requires Valid()
      modifies this
      ensures Snapshot() == Rules.MouseMove(old(Snapshot()), y) && Valid()
    {
      if dragging {
        var delta := y - lastY;
        var next := Rules.Clamp(angle + delta * Rules.Radio, -90.0, 90.0);
        angle := next;
        lastY := y;
      }
    }

    /** Bound to both mouse-up and mouse-leave. */
    method MouseUp()
      requires Valid()
      modifies this
      ensures Snapshot() == Rules.MouseUp(old(Snapshot())) && Valid()
    {
      dragging := false;
    }

    /** The host's `setTimeout`: hands out the next timer id. */
    method SetTimeout(delay: nat, action: Rules.Action) returns (t: Rules.Timer)
      modifies this`nextId
      ensures t == Rules.Timer(old(nextId), delay, action) && nextId == old(nextId) + 1
    {
      t := Rules.Timer(nextId, delay, action);
      nextId := nextId + 1;
    }

    /** Cancels every live timer, one `clearTimeout` at a time. Leaves the
        guard as it is: callers reset it (the toggle) or discard the page. */
    method ClearAllTimeouts()
      modifies this`pending
      ensures Snapshot() == Rules.ClearAllTimeouts(old(Snapshot()))
    {
      while pending != []
        decreases |pending|
      {
        pending := pending[1..];
      }
    }

    /** Schedules every callback of a script step with `setTimeout` and
        records the new timers for later cancellation. */
    method Schedule(plan: seq<(nat, Rules.Action)>)
      modifies this`pending, this`nextId
      ensures pending == old(pending) + Rules.Stamp(old(nextId), plan)
      ensures nextId == old(nextId) + |plan|
    {
      var made: seq<Rules.Timer> := [];
      for k := 0 to |plan|
        invariant |made| == k && nextId == old(nextId) + k && pending == old(pending)
        invariant forall j :: 0 <= j < k ==> made[j] == Rules.Timer(old(nextId) + j, plan[j].0, plan[j].1)
      {
        var t := SetTimeout(plan[k].0, plan[k].1);
        made := made + [t];
      }
      pending := pending + made;
    }

    /** The voice-over trigger. Called with the counter already at 3 it only
        counts past 3, which the physics tick never does. */
    method Trigger()
      modifies this
      ensures Snapshot() == Rules.Trigger(old(Snapshot()))
    {
      if busy {
        return;
      }
      count := count + 1;
      var c := count;
      if c == 1 {
        busy := true;
        angle := Rules.Correction;
        message := Rules.FirstLine;
        Schedule(Rules.FirstPlan);
        assert Snapshot() == Rules.Launch(old(Snapshot()).(count := c, busy := true, angle := Rules.Correction, message := Rules.FirstLine), Rules.FirstPlan);
      } else if c == 2 {
        busy := true;
        angle := Rules.Correction;
        message := Rules.SecondLine;
        Schedule(Rules.SecondPlan);
        assert Snapshot() == Rules.Launch(old(Snapshot()).(count := c, busy := true, angle := Rules.Correction, message := Rules.SecondLine), Rules.SecondPlan);
      } else if c == 3 {
        message := Rules.ThirdLine;
        Schedule(Rules.ThirdPlan);
        assert Snapshot() == Rules.Launch(old(Snapshot()).(count := c, message := Rules.ThirdLine), Rules.ThirdPlan);
      }
    }

    /** One animation frame; `sine` stands for the sine of the current tilt. */
    method UpdatePhysics(sine: real)
      requires Valid()
      modifies this
      ensures Snapshot() == Rules.UpdatePhysics(old(Snapshot()), sine) && Valid()
    {
      if Rules.Abs(angle) > 1.0 {
        var effect := sine * Rules.Radio;
        var next := Rules.Clamp(process + effect, 0.0, 100.0);
        process := next;
        shown := next.Floor;
        if enabled && next >= Rules.Threshold && count < Rules.LastStep {
          Trigger();
        }
      }
      Rules.UpdatePhysicsKeepsInv(old(Snapshot()), sine);
    }

    /** The voice-over checkbox: cancels all timers, then resets to the
        baseline of the chosen mode. Restores the invariant from any state. */
    method Toggle(on: bool)
      modifies this
      ensures Snapshot() == Rules.Toggle(old(Snapshot()), on) && Valid()
    {
      enabled := on;
      ClearAllTimeouts();
      if on {
        process, shown, angle := 20.0, 20, -20.0;
      } else {
        process, shown, angle := 0.0, 0, 0.0;
      }
      count := 0;
      busy := false;
      message := "";
      Rules.ToggleEstablishesInv(old(Snapshot()), on);
    }

    /** The host runs the callback of the i-th live timer, which is then spent. */
    method FireTimer(i: nat)
      requires Valid() && i < |pending|
      modifies this
      ensures Snapshot() == Rules.FireTimer(old(Snapshot()), i) && Valid()
    {
      var t := pending[i];
      pending := pending[..i] + pending[i + 1..];
      match t.action {
        case Show(text) =>
          message := text;
        case ClearAndRelease =>
          message := "";
          busy := false;
      }
      Rules.FireTimerKeepsInv(old(Snapshot()), i);
    }
  }
}
