/** The state machine underneath the gravity progress bar: one value-level
    transition per event handler of the page, the invariant they keep, and
    the properties of the voice-over script and of timer cancellation. */
module Rules {

  /** Gravity multiplier (`radio`): scales both drag-to-angle and angle-to-fill. */
  const Radio: real := 0.5
  /** Fill level at or above which the voice-over script reacts. */
  const Threshold: real := 80.0
  /** Number of scripted responses; the counter never goes past it. */
  const LastStep: nat := 3

  function Min(a: real, b: real): real { if a <= b then a else b }
  function Max(a: real, b: real): real { if a >= b then a else b }
  function Abs(x: real): real { if x < 0.0 then -x else x }

  /** `Math.max(lo, Math.min(hi, x))`: the point of [lo, hi] nearest to x. */
  function Clamp(x: real, lo: real, hi: real): (r: real)
    requires lo <= hi
    ensures lo <= r <= hi
    ensures lo <= x <= hi ==> r == x
    ensures x < lo ==> r == lo
    ensures hi < x ==> r == hi
  {
    Max(lo, Min(hi, x))
  }

  /** What a scheduled callback does when it fires. */
  datatype Action =
    | Show(text: string)   // replace the message ("" hides it)
    | ClearAndRelease      // hide the message and release the re-entry guard

  /** A scheduled callback: the host's timer id, its delay in ms, its action. */
  datatype Timer = Timer(id: nat, delay: nat, action: Action)

  /** Everything the page keeps, each state/ref pair collapsed to one field. */
  datatype State = State(
    process: real,         // fill level (processRef)
    shown: int,            // fill level as displayed (React state `process`)
    angle: real,           // tilt in degrees
    enabled: bool,         // voice-over mode
    message: string,
    count: nat,            // triggerCountRef
    busy: bool,            // isHandlingTriggerRef
    pending: seq<Timer>,   // live timers, in scheduling order
    nextId: nat,           // id the host gives to the next timer
    dragging: bool,
    lastY: real)

  /** The page as first rendered. */
  const Init: State := State(0.0, 0, 0.0, false, "", 0, false, [], 0, false, 0.0)

  // ---------------------------------------------------------------------
  // Pointer handlers

  function MouseDown(s: State, y: real): State
  {
    s.(dragging := true, lastY := y)
  }

  function MouseMove(s: State, y: real): State
  {
    if s.dragging then
      s.(angle := Clamp(s.angle + (y - s.lastY) * Radio, -90.0, 90.0), lastY := y)
    else
      s
  }

  /** Also the mouse-leave handler. */
  function MouseUp(s: State): State
  {
    s.(dragging := false)
  }

  // ---------------------------------------------------------------------
  // Timers

  /** Number of pending timers that release the re-entry guard. */
  function Releases(ts: seq<Timer>): nat
  {
    if ts == [] then 0
    else (if ts[0].action.ClearAndRelease? then 1 else 0) + Releases(ts[1..])
  }

  function ClearAllTimeouts(s: State): State
  {
    s.(pending := [])
  }

  /** The i-th pending timer fires and is no longer pending; an index that
      names no pending timer fires nothing. */
  function FireTimer(s: State, i: nat): State
  {
    if i >= |s.pending| then s
    else
      var rest := s.pending[..i] + s.pending[i + 1..];
      match s.pending[i].action
      case Show(text) => s.(message := text, pending := rest)
      case ClearAndRelease => s.(message := "", busy := false, pending := rest)
  }

  // ---------------------------------------------------------------------
  // Voice-over trigger, physics tick and mode toggle

  /** Host timer ids handed out from `first` on, one per planned callback. */
  function Stamp(first: nat, plan: seq<(nat, Action)>): (r: seq<Timer>)
    ensures |r| == |plan|
    ensures forall k :: 0 <= k < |r| ==> r[k] == Timer(first + k, plan[k].0, plan[k].1)
    decreases |plan|
  {
    if plan == [] then [] else [Timer(first, plan[0].0, plan[0].1)] + Stamp(first + 1, plan[1..])
  }

  /** Schedules every callback of `plan` (one `setTimeout` each) and keeps them. */
  function Launch(s: State, plan: seq<(nat, Action)>): State
  {
    s.(pending := s.pending + Stamp(s.nextId, plan), nextId := s.nextId + |plan|)
  }

  /** The delayed callbacks of each scripted step, as (delay in ms, action). */
  const FirstPlan: seq<(nat, Action)> :=
    [(1000, Show("I mean progressbar!")), (3000, Show("that's much better")), (5000, ClearAndRelease)]
  const SecondPlan: seq<(nat, Action)> :=
    [(1500, Show("hands up, dont touch anything else")), (4000, ClearAndRelease)]
  const ThirdPlan: seq<(nat, Action)> :=
    [(3000, Show(""))]

  /** The message each step shows at once, and the tilt steps 1 and 2 force. */
  const FirstLine: string := "hey! dont touch my paper!"
  const SecondLine: string := "stop already!"
  const ThirdLine: string := "you just never give up, do you"
  const Correction: real := -60.0

  function Trigger(s: State): State
  {
    if s.busy then s
    else
      var c := s.count + 1;
      if c == 1 then
        Launch(s.(count := c, busy := true, angle := Correction, message := FirstLine), FirstPlan)
      else if c == 2 then
        Launch(s.(count := c, busy := true, angle := Correction, message := SecondLine), SecondPlan)
      else if c == 3 then
        Launch(s.(count := c, message := ThirdLine), ThirdPlan)
      else
        s.(count := c)
  }

  /** One animation frame; `sine` is the sine of the current tilt. */
  function UpdatePhysics(s: State, sine: real): State
  {
    if Abs(s.angle) <= 1.0 then s
    else
      var p := Clamp(s.process + sine * Radio, 0.0, 100.0);
      var t := s.(process := p, shown := p.Floor);
      if t.enabled && p >= Threshold && t.count < LastStep then Trigger(t) else t
  }

  function Toggle(s: State, on: bool): State
  {
    var c := ClearAllTimeouts(s.(enabled := on));
    if on then
      c.(process := 20.0, shown := 20, angle := -20.0, count := 0, busy := false, message := "")
    else
      c.(process := 0.0, shown := 0, angle := 0.0, count := 0, busy := false, message := "")
  }

  // ---------------------------------------------------------------------
  // Event traces

  datatype Event =
    | Down(y: real)
    | Move(y: real)
    | Up
    | Leave
    | Frame(sine: real)
    | Switch(on: bool)
    | Elapse(index: nat)

  function Step(s: State, e: Event): State
  {
    match e
    case Down(y) => MouseDown(s, y)
    case Move(y) => MouseMove(s, y)
    case Up => MouseUp(s)
    case Leave => MouseUp(s)
    case Frame(sine) => UpdatePhysics(s, sine)
    case Switch(on) => Toggle(s, on)
    case Elapse(i) => FireTimer(s, i)
  }

  function Run(s: State, es: seq<Event>): State
    decreases |es|
  {
    if es == [] then s else Run(Step(s, es[0]), es[1..])
  }

  /** The timers that fire, in order, while `es` is processed from `s`. */
  function Fired(s: State, es: seq<Event>): seq<Timer>
    decreases |es|
  {
    if es == [] then [] else FiredBy(s, es[0]) + Fired(Step(s, es[0]), es[1..])
  }

  /** The timer, if any, that event `e` fires. */
  function FiredBy(s: State, e: Event): seq<Timer>
  {
    match e
    case Elapse(i) => if i < |s.pending| then [s.pending[i]] else []
    case _ => []
  }

  // ---------------------------------------------------------------------
  // The invariant

  /** Timer ids are below the next id to hand out and ascend in pending order. */
  ghost predicate IdsFresh(s: State)
  {
    (forall j :: 0 <= j < |s.pending| ==> s.pending[j].id < s.nextId) &&
    (forall j, k :: 0 <= j < k < |s.pending| ==> s.pending[j].id < s.pending[k].id)
  }

  ghost predicate Inv(s: State)
  {
    0.0 <= s.process <= 100.0 && s.shown == s.process.Floor &&
    -90.0 <= s.angle <= 90.0 &&
    s.count <= LastStep &&
    (s.busy ==> s.count == 1 || s.count == 2) &&
    Releases(s.pending) == (if s.busy then 1 else 0) &&
    IdsFresh(s)
  }

  lemma InitInv()
    ensures Inv(Init)
  {
  }

  lemma {:induction false} ReleasesAppend(a: seq<Timer>, b: seq<Timer>)
    ensures Releases(a + b) == Releases(a) + Releases(b)
    decreases |a|
  {
    if a == [] {
      assert a + b == b;
    } else {
      assert (a + b)[1..] == a[1..] + b;
      ReleasesAppend(a[1..], b);
    }
  }

  lemma ReleasesRemove(ts: seq<Timer>, i: nat)
    requires i < |ts|
    ensures Releases(ts[..i] + ts[i + 1..]) + (if ts[i].action.ClearAndRelease? then 1 else 0)
            == Releases(ts)
  {
    var front, back := ts[..i], ts[i + 1..];
    var tail := [ts[i]] + back;
    assert ts == front + tail;
    ReleasesAppend(front, tail);
    ReleasesAppend(front, back);
    assert tail[1..] == back;
  }

  /** The timers each step schedules, written out. */
  lemma PlansStamped(n: nat)
    ensures Stamp(n, FirstPlan) == [Timer(n, 1000, Show("I mean progressbar!")),
                                    Timer(n + 1, 3000, Show("that's much better")),
                                    Timer(n + 2, 5000, ClearAndRelease)]
    ensures Stamp(n, SecondPlan) == [Timer(n, 1500, Show("hands up, dont touch anything else")),
                                     Timer(n + 1, 4000, ClearAndRelease)]
    ensures Stamp(n, ThirdPlan) == [Timer(n, 3000, Show(""))]
  {
  }

  /** Steps 1 and 2 schedule exactly one release, step 3 none. */
  lemma FirstPlanReleases(n: nat)
    ensures Releases(Stamp(n, FirstPlan)) == 1
  {
    PlansStamped(n);
    var f := Stamp(n, FirstPlan);
    assert Releases(f[2..]) == 1;
    assert Releases(f[1..]) == 1;
  }

  lemma SecondPlanReleases(n: nat)
    ensures Releases(Stamp(n, SecondPlan)) == 1
  {
    PlansStamped(n);
    var g := Stamp(n, SecondPlan);
    assert Releases(g[1..]) == 1;
  }

  lemma ThirdPlanReleases(n: nat)
    ensures Releases(Stamp(n, ThirdPlan)) == 0
  {
    PlansStamped(n);
  }

  /** Scheduling numbers the new timers from nextId on: ids stay fresh and
      ascending, and the releases add up. */
  lemma LaunchKeepsIds(s: State, plan: seq<(nat, Action)>)
    requires IdsFresh(s)
    ensures IdsFresh(Launch(s, plan))
    ensures Releases(Launch(s, plan).pending) == Releases(s.pending) + Releases(Stamp(s.nextId, plan))
  {
    ReleasesAppend(s.pending, Stamp(s.nextId, plan));
  }

  lemma RemoveFresh(s: State, i: nat, r: State)
    requires IdsFresh(s) && i < |s.pending|
    requires r.pending == s.pending[..i] + s.pending[i + 1..] && r.nextId == s.nextId
    ensures IdsFresh(r)
  {
    forall j | 0 <= j < |r.pending|
      ensures r.pending[j] == s.pending[if j < i then j else j + 1]
    {
    }
  }

  // ---------------------------------------------------------------------
  // Each handler keeps the invariant

  lemma MouseMoveKeepsInv(s: State, y: real)
    requires Inv(s)
    ensures Inv(MouseMove(s, y))
    ensures -90.0 <= MouseMove(s, y).angle <= 90.0
  {
  }

  /** Scheduling a step keeps the invariant when the step's releases match
      the guard it sets. */
  lemma LaunchKeepsInv(u: State, plan: seq<(nat, Action)>)
    requires 0.0 <= u.process <= 100.0 && u.shown == u.process.Floor && -90.0 <= u.angle <= 90.0
    requires u.count <= LastStep && (u.busy ==> u.count == 1 || u.count == 2)
    requires IdsFresh(u)
    requires Releases(u.pending) + Releases(Stamp(u.nextId, plan)) == (if u.busy then 1 else 0)
    ensures Inv(Launch(u, plan))
  {
    LaunchKeepsIds(u, plan);
  }

  lemma TriggerKeepsInv(s: State)
    requires Inv(s) && s.count < LastStep
    ensures Inv(Trigger(s))
  {
    if !s.busy {
      var c := s.count + 1;
      if c == 1 {
        FirstPlanReleases(s.nextId);
        LaunchKeepsInv(s.(count := c, busy := true, angle := Correction, message := FirstLine), FirstPlan);
      } else if c == 2 {
        SecondPlanReleases(s.nextId);
        LaunchKeepsInv(s.(count := c, busy := true, angle := Correction, message := SecondLine), SecondPlan);
      } else {
        ThirdPlanReleases(s.nextId);
        LaunchKeepsInv(s.(count := c, message := ThirdLine), ThirdPlan);
      }
    }
  }

  lemma UpdatePhysicsKeepsInv(s: State, sine: real)
    requires Inv(s)
    ensures Inv(UpdatePhysics(s, sine))
  {
    if Abs(s.angle) > 1.0 {
      var p := Clamp(s.process + sine * Radio, 0.0, 100.0);
      var t := s.(process := p, shown := p.Floor);
      assert Inv(t);
      if t.enabled && p >= Threshold && t.count < LastStep {
        TriggerKeepsInv(t);
      }
    }
  }

  lemma FireTimerKeepsInv(s: State, i: nat)
    requires Inv(s)
    ensures Inv(FireTimer(s, i))
    ensures s.busy && !FireTimer(s, i).busy ==> i < |s.pending| && s.pending[i].action.ClearAndRelease?
  {
    if i < |s.pending| {
      ReleasesRemove(s.pending, i);
      RemoveFresh(s, i, FireTimer(s, i));
    }
  }

  /** The toggle restores the invariant from any state whatever. */
  lemma ToggleEstablishesInv(s: State, on: bool)
    ensures Inv(Toggle(s, on))
  {
  }

  lemma StepKeepsInv(s: State, e: Event)
    requires Inv(s)
    ensures Inv(Step(s, e))
  {
    match e
    case Down(y) =>
    case Move(y) => MouseMoveKeepsInv(s, y);
    case Up =>
    case Leave =>
    case Frame(sine) => UpdatePhysicsKeepsInv(s, sine);
    case Switch(on) => ToggleEstablishesInv(s, on);
    case Elapse(i) => FireTimerKeepsInv(s, i);
  }

  /** Fill level in [0,100], tilt in [-90,90], counter at most 3 and the
      guard set only on steps 1 and 2, after every sequence of events. */
  lemma {:induction false} RunKeepsInv(s: State, es: seq<Event>)
    requires Inv(s)
    ensures Inv(Run(s, es))
    decreases |es|
  {
    if es != [] {
      StepKeepsInv(s, es[0]);
      RunKeepsInv(Step(s, es[0]), es[1..]);
    }
  }

  lemma ReachableInv(es: seq<Event>)
    ensures var r := Run(Init, es);
      0.0 <= r.process <= 100.0 && 0 <= r.shown <= 100 && -90.0 <= r.angle <= 90.0 &&
      r.count <= LastStep && (r.busy ==> r.count == 1 || r.count == 2)
  {
    InitInv();
    RunKeepsInv(Init, es);
  }

  // ---------------------------------------------------------------------
  // Cancellation: a timer pending at a toggle never fires afterwards

  /** Every pending timer, and every timer still to be scheduled, has id >= b. */
  ghost predicate NoneBelow(s: State, b: nat)
  {
    s.nextId >= b && forall j :: 0 <= j < |s.pending| ==> s.pending[j].id >= b
  }

  lemma TriggerKeepsNoneBelow(s: State, b: nat)
    requires NoneBelow(s, b)
    ensures NoneBelow(Trigger(s), b)
  {
    var r := Trigger(s);
    if r != s {
      assert r.pending[..|s.pending|] == s.pending;
      assert forall j :: |s.pending| <= j < |r.pending| ==> r.pending[j].id >= s.nextId;
    }
  }

  lemma FireTimerKeepsNoneBelow(s: State, i: nat, b: nat)
    requires NoneBelow(s, b)
    ensures NoneBelow(FireTimer(s, i), b)
  {
    if i < |s.pending| {
      var r := FireTimer(s, i);
      forall j | 0 <= j < |r.pending|
        ensures r.pending[j] == s.pending[if j < i then j else j + 1]
      {
      }
    }
  }

  lemma StepKeepsNoneBelow(s: State, e: Event, b: nat)
    requires NoneBelow(s, b)
    ensures NoneBelow(Step(s, e), b)
  {
    match e
    case Frame(sine) =>
      if Abs(s.angle) > 1.0 {
        var p := Clamp(s.process + sine * Radio, 0.0, 100.0);
        TriggerKeepsNoneBelow(s.(process := p, shown := p.Floor), b);
      }
    case Elapse(i) => FireTimerKeepsNoneBelow(s, i, b);
    case _ =>
  }

  lemma {:induction false} FiredNoneBelow(s: State, es: seq<Event>, b: nat)
    requires NoneBelow(s, b)
    ensures forall t :: t in Fired(s, es) ==> t.id >= b
    decreases |es|
  {
    if es != [] {
      var next := Step(s, es[0]);
      StepKeepsNoneBelow(s, es[0], b);
      FiredNoneBelow(next, es[1..], b);
      assert Fired(s, es) == FiredBy(s, es[0]) + Fired(next, es[1..]);
    }
  }

  /** After a mode toggle no timer that was pending at the toggle ever fires,
      whatever events follow. */
  lemma NoStaleFire(s: State, on: bool, es: seq<Event>)
    requires Inv(s)
    ensures forall t :: t in s.pending ==> t !in Fired(Toggle(s, on), es)
  {
    FiredNoneBelow(Toggle(s, on), es, s.nextId);
  }

  // ---------------------------------------------------------------------
  // Pointer properties

  /** With the pointer released, moving it changes nothing. */
  lemma MoveAfterUpIsNoop(s: State, y: real)
    ensures MouseMove(MouseUp(s), y) == MouseUp(s)
    ensures MouseUp(MouseUp(s)) == MouseUp(s)
  {
  }

  /** While no clamping happens along the way, only the total vertical
      displacement since mouse-down matters: the tilt moves by half of it. */
  lemma DragDisplacement(s: State, y0: real, y1: real, y2: real)
    requires -90.0 <= s.angle + (y1 - y0) * Radio <= 90.0
    requires -90.0 <= s.angle + (y2 - y0) * Radio <= 90.0
    ensures MouseMove(MouseMove(MouseDown(s, y0), y1), y2).angle == s.angle + (y2 - y0) * Radio
    ensures MouseMove(MouseMove(MouseDown(s, y0), y1), y2) == MouseMove(MouseDown(s, y0), y2)
  {
  }

  /** A drag never leaves [-90, 90], however far the pointer goes. */
  lemma DragSaturates(s: State, y: real)
    requires s.dragging
    ensures s.angle + (y - s.lastY) * Radio >= 90.0 ==> MouseMove(s, y).angle == 90.0
    ensures s.angle + (y - s.lastY) * Radio <= -90.0 ==> MouseMove(s, y).angle == -90.0
    ensures MouseMove(s, y).lastY == y
  {
  }

  // ---------------------------------------------------------------------
  // Physics properties

  /** A level vessel (|angle| <= 1) keeps its fill level. */
  lemma LevelVesselRests(s: State, sine: real)
    requires Abs(s.angle) <= 1.0
    ensures UpdatePhysics(s, sine) == s
  {
  }

  /** A tilted vessel moves its fill by the clamped gravity effect; the trigger
      may only change angle, message, counter, guard and timers, and the
      displayed level is the floor of the new one. */
  lemma TiltedVesselFlows(s: State, sine: real)
    requires Abs(s.angle) > 1.0
    ensures var r := UpdatePhysics(s, sine);
      r.process == Clamp(s.process + sine * Radio, 0.0, 100.0) &&
      r.shown == r.process.Floor && 0 <= r.shown <= 100 &&
      r.enabled == s.enabled && r.dragging == s.dragging && r.lastY == s.lastY
  {
  }

  /** Since |sin| <= 1, one frame moves the fill level by at most Radio. */
  lemma FlowPerFrame(s: State, sine: real)
    requires Inv(s) && -1.0 <= sine <= 1.0
    ensures Abs(UpdatePhysics(s, sine).process - s.process) <= Radio
  {
  }

  /** The trigger is called only when the mode is on, the new level is at
      least 80 and fewer than three steps ran; otherwise only the level moves. */
  lemma PhysicsTriggersOnlyWhenArmed(s: State, sine: real)
    requires Abs(s.angle) > 1.0
    requires var p := Clamp(s.process + sine * Radio, 0.0, 100.0);
      !(s.enabled && p >= Threshold && s.count < LastStep)
    ensures var r := UpdatePhysics(s, sine);
      r == s.(process := r.process, shown := r.shown)
  {
  }

  /** The other direction: a tilted frame with the mode on, the new level at
      least 80 and fewer than three steps run calls the trigger on the moved
      state. */
  lemma PhysicsTriggersWhenArmed(s: State, sine: real)
    requires Abs(s.angle) > 1.0
    ensures var p := Clamp(s.process + sine * Radio, 0.0, 100.0);
      s.enabled && p >= Threshold && s.count < LastStep ==>
        UpdatePhysics(s, sine) == Trigger(s.(process := p, shown := p.Floor))
  {
  }

  /** The first frame that brings the level to 80 with the mode on runs step
      1: counter 1, guard set, tilt forced to -60, the first line shown and
      the step's three timers scheduled. */
  lemma FirstCrossingStartsScript(s: State, sine: real)
    requires Inv(s) && s.enabled && s.count == 0 && Abs(s.angle) > 1.0
    requires Clamp(s.process + sine * Radio, 0.0, 100.0) >= Threshold
    ensures var r := UpdatePhysics(s, sine);
      r.count == 1 && r.busy && r.angle == Correction && r.message == FirstLine &&
      r.pending == s.pending + Stamp(s.nextId, FirstPlan)
  {
  }

  /** Once the third step has run, further crossings neither count nor speak. */
  lemma ExhaustedScriptIsSilent(s: State, sine: real)
    requires s.count == LastStep
    ensures var r := UpdatePhysics(s, sine);
      r.count == LastStep && r.message == s.message && r.angle == s.angle &&
      r.pending == s.pending && r.busy == s.busy
  {
  }

  // ---------------------------------------------------------------------
  // Trigger properties

  /** Re-entry guard: while busy the trigger is a no-op; otherwise the counter
      goes up by exactly one. */
  lemma TriggerGuard(s: State)
    ensures s.busy ==> Trigger(s) == s
    ensures !s.busy ==> Trigger(s).count == s.count + 1
    ensures Trigger(s).enabled == s.enabled && Trigger(s).process == s.process
    ensures Trigger(s).dragging == s.dragging && Trigger(s).lastY == s.lastY
  {
  }

  /** Only the timer that ends steps 1 and 2 releases the guard, it is the
      last of its step to come due, and step 3 schedules no release. */
  lemma ReleaseComesLast(s: State)
    requires Inv(s) && !s.busy && s.count < LastStep
    ensures var r := Trigger(s);
      var added := r.pending[|s.pending|..];
      r.pending == s.pending + added &&
      Releases(added) == (if r.count < LastStep then 1 else 0) &&
      forall k :: 0 <= k < |added| && added[k].action.ClearAndRelease? ==>
        k == |added| - 1 && forall j :: 0 <= j < |added| ==> added[j].delay <= added[k].delay
  {
    var n := s.nextId;
    PlansStamped(n);
    FirstPlanReleases(n);
    SecondPlanReleases(n);
    ThirdPlanReleases(n);
    var plan := if s.count == 0 then FirstPlan else if s.count == 1 then SecondPlan else ThirdPlan;
    var r := Trigger(s);
    assert r.pending == s.pending + Stamp(n, plan);
    assert r.pending[|s.pending|..] == Stamp(n, plan);
  }

  /** Fires the oldest pending timer n times, collecting the message after each. */
  function Drain(s: State, n: nat): (r: (State, seq<string>))
    ensures |r.1| == n
    decreases n
  {
    if n == 0 then (s, [])
    else
      var d := Drain(FireTimer(s, 0), n - 1);
      (d.0, [FireTimer(s, 0).message] + d.1)
  }

  /** Step 1 from a quiet page: tilt forced to -60 and the four messages in
      order of their delays (0, 1000, 3000, 5000 ms), ending hidden and released. */
  lemma FirstScript(s: State)
    requires Inv(s) && s.count == 0 && s.pending == []
    ensures var t := Trigger(s);
      t.angle == -60.0 && t.busy && t.count == 1 &&
      t.message == "hey! dont touch my paper!" &&
      [t.pending[0].delay, t.pending[1].delay, t.pending[2].delay] == [1000, 3000, 5000] &&
      var d := Drain(t, 3);
      d.1 == ["I mean progressbar!", "that's much better", ""] &&
      !d.0.busy && d.0.pending == [] && d.0.count == 1
  {
  }

  /** Step 2 from a quiet page: tilt forced to -60, messages at 0, 1500 and 4000 ms. */
  lemma SecondScript(s: State)
    requires Inv(s) && s.count == 1 && s.pending == []
    ensures var t := Trigger(s);
      t.angle == -60.0 && t.busy && t.count == 2 &&
      t.message == "stop already!" &&
      [t.pending[0].delay, t.pending[1].delay] == [1500, 4000] &&
      var d := Drain(t, 2);
      d.1 == ["hands up, dont touch anything else", ""] &&
      !d.0.busy && d.0.pending == [] && d.0.count == 2
  {
  }

  /** Step 3: no tilt correction, guard left clear, message hidden after 3000 ms. */
  lemma ThirdScript(s: State)
    requires Inv(s) && s.count == 2 && s.pending == []
    ensures var t := Trigger(s);
      t.angle == s.angle && !t.busy && t.count == 3 &&
      t.message == "you just never give up, do you" &&
      [t.pending[0].delay] == [3000] &&
      var d := Drain(t, 1);
      d.1 == [""] && d.0.pending == [] && d.0.count == 3
  {
  }

  // ---------------------------------------------------------------------
  // Toggle properties

  /** The toggle forgets everything but the pointer: two pages toggled the same
      way agree on every field except the drag state and the host's timer ids. */
  lemma ToggleForgetsHistory(s: State, s': State, on: bool)
    ensures var a, b := Toggle(s, on), Toggle(s', on);
      a.(dragging := b.dragging, lastY := b.lastY, nextId := b.nextId) == b
    ensures Toggle(s, on).pending == [] && !Toggle(s, on).busy && Toggle(s, on).count == 0
    ensures Toggle(s, on).message == "" && Toggle(s, on).enabled == on
    ensures (Toggle(s, on).process, Toggle(s, on).angle) == if on then (20.0, -20.0) else (0.0, 0.0)
  {
  }

  lemma ToggleIdempotent(s: State, on: bool)
    ensures Toggle(Toggle(s, on), on) == Toggle(s, on)
  {
  }
}
