# Gravity progress bar — verified model of the widget's state machine

The page `app/page.tsx` renders a progress bar drawn as a tilting vessel of
liquid. Dragging the pointer up or down tilts the vessel; every animation
frame a tilted vessel gains or loses liquid under a simple gravity rule, and
the fill level is clamped to [0, 100]. In voice-over mode the page reacts
the first three times the fill level reaches 80%. Each reaction is a fixed
script: a message shown at once, timed follow-up messages, and, on the first
two reactions, a forced tilt back to -60 degrees and a re-entry guard.
Switching the mode cancels every scheduled message and resets the page.

The model has two files:

- `rules.dfy`, module `Rules`: the whole page state as one value
  (`State`), one transition function per event handler (`MouseDown`,
  `MouseMove`, `MouseUp`, `UpdatePhysics`, `Trigger`, `Toggle`,
  `ClearAllTimeouts`, `FireTimer`), the invariant `Inv` and the properties
  proved about them, including whole event traces (`Step`, `Run`, `Fired`).
- `widget.dfy`, module `Page`: class `Widget`, the component as an object
  with one mutable field per piece of state. Each handler is a method that
  updates the fields step by step, as the source does. Each method's
  postcondition ties the new fields to the matching function in `Rules`.
  `ClearAllTimeouts` cancels timers in a loop. `Schedule` creates a step's
  timers one `setTimeout` at a time.

Modelling choices:

- Each React state/ref pair (`process`/`processRef`, `angle`/`angleRef`)
  is one field. The one difference kept is the displayed fill level
  `shown`, which is the floor of `process` (line 137). The invariant
  proves `shown == process.Floor`.
- `Math.sin(angle * PI / 180)` becomes a parameter `sine` of the physics
  tick. The gravity effect is `sine * Radio`, with `Radio = 0.5` (line 25).
  Every clamp property holds for any value of `sine`. `FlowPerFrame` uses
  the bound |sin| <= 1 that the real sine satisfies.
- A timer is a record `Timer(id, delay, action)`. `id` is the handle the
  host returns from `setTimeout`; the model hands out increasing ids
  through `nextId`. The action either shows a message or clears the
  message and releases the guard.
- The host runs a timer through `FireTimer(i)`. This fires the i-th
  pending timer and removes it. A timer can fire only while it is pending,
  so "cancelled timers never fire" can be stated (`NoStaleFire`).
- Numbers are mathematical reals, not IEEE doubles.
- The comment at `app/page.tsx:105` says the enabled mode starts at -60
  degrees, but line 108 sets -20. The model follows the code: `Toggle(s, true)`
  gives angle -20.

Invariant `Rules.Inv`, kept by every event of `Rules.Step` (pointer,
frame, toggle, timer) and by every event trace. Two transitions do not keep
it on their own: `ClearAllTimeouts` cancels the release timer but leaves the
guard set (only the toggle, which then clears the guard, and unmount call
it), and `Trigger` called with the counter at 3 raises it to 4 (the physics
tick calls it only below 3). The invariant states:

- fill level in [0, 100], and the displayed level is its floor;
- tilt in [-90, 90];
- trigger counter at most 3;
- the guard is set only during steps 1 and 2;
- the guard is set exactly when one release timer is pending, and never
  more than one release timer is pending;
- timer ids are below `nextId` and ascend in scheduling order.

## Model

| member | source | states |
|---|---|---|
| `Rules.Clamp` | app/page.tsx:135 | `Math.max(lo, Math.min(hi, x))` lies in [lo, hi], is x when x is in range, and saturates at the nearer bound otherwise |
| `Rules.MouseDown` | app/page.tsx:158-162 | definition (no contract of its own) that `Page.Widget.MouseDown` is proved equal to: sets dragging and records the pointer y |
| `Rules.MouseMove` | app/page.tsx:165-174 | definition that `Page.Widget.MouseMove` is proved equal to: while dragging, tilt := clamp(angle + (y - lastY) * 0.5, -90, 90) and lastY := y; otherwise no change; its properties are in `MouseMoveKeepsInv`, `DragSaturates`, `DragDisplacement` |
| `Rules.MouseUp` | app/page.tsx:177-179 | definition that `Page.Widget.MouseUp` is proved equal to: clears dragging only; see `MoveAfterUpIsNoop` |
| `Rules.UpdatePhysics` | app/page.tsx:129-145 | definition that `Page.Widget.UpdatePhysics` is proved equal to: the \|angle\| > 1 guard, the clamped gravity step, the floor for display, the guarded trigger call; its properties are in `LevelVesselRests`, `TiltedVesselFlows`, `FlowPerFrame`, `PhysicsTriggersOnlyWhenArmed`, `UpdatePhysicsKeepsInv` |
| `Rules.Trigger` | app/page.tsx:34-97 | definition that `Page.Widget.Trigger` is proved equal to: the guard, the counter increment, and the three scripted steps; its properties are in `TriggerGuard`, `TriggerKeepsInv`, `ReleaseComesLast` and the three script lemmas |
| `Rules.ClearAllTimeouts` | app/page.tsx:28-31 | definition that `Page.Widget.ClearAllTimeouts` is proved equal to: no timer stays pending, nothing else changes |
| `Rules.Toggle` | app/page.tsx:100-123 | definition that `Page.Widget.Toggle` is proved equal to: set the mode, cancel all timers, reset to the mode's baseline; its properties are in `ToggleEstablishesInv`, `ToggleForgetsHistory`, `ToggleIdempotent`, `NoStaleFire` |
| `Rules.FireTimer` | app/page.tsx:50-92 | definition that `Page.Widget.FireTimer` is proved equal to: the i-th pending timer runs its action (show a message, or clear it and release the guard) and is removed; see `FireTimerKeepsInv` |
| `Rules.Stamp` | app/page.tsx:50-94 | the timers created for a step's callbacks: one per callback, in order, with consecutive host ids from `first` and the callback's delay and action |
| `Rules.Launch` | app/page.tsx:63-94 | definition that `Page.Widget.Schedule` is proved to implement: the step's stamped timers appended after the pending ones, and `nextId` advanced by their number |
| `Page.Widget.SetTimeout` | app/page.tsx:50-52 | the host's `setTimeout`: returns a timer with the current id, the given delay and action, and advances the id by one; no other field changes |
| `Rules.InitInv` | app/page.tsx:6-22 | the page as first rendered (all zero, mode off, no timers) satisfies the invariant |
| `Rules.MouseMoveKeepsInv` | app/page.tsx:165-173 | a mouse-move keeps the invariant and the tilt stays in [-90, 90] for any pointer position |
| `Rules.DragSaturates` | app/page.tsx:167-172 | while dragging, a move past either limit pins the tilt at exactly 90 or -90, and the new pointer y is recorded |
| `Rules.DragDisplacement` | app/page.tsx:158-173 | after mouse-down at y0, if no clamping happens, the tilt moves by half the total vertical displacement; the intermediate pointer position does not matter (a 40 px drag adds 20 degrees) |
| `Rules.MoveAfterUpIsNoop` | app/page.tsx:177-179 | after mouse-up or mouse-leave, a mouse-move changes nothing, and releasing again changes nothing |
| `Rules.LevelVesselRests` | app/page.tsx:131 | a frame with \|angle\| <= 1 leaves the whole state unchanged |
| `Rules.TiltedVesselFlows` | app/page.tsx:131-137 | a frame with \|angle\| > 1 sets the fill level to clamp(level + sine * 0.5, 0, 100), and the displayed level is its floor, in [0, 100]; mode and drag state are untouched |
| `Rules.FlowPerFrame` | app/page.tsx:133-136 | with \|sine\| <= 1, one frame moves the fill level by at most 0.5 |
| `Rules.PhysicsTriggersOnlyWhenArmed` | app/page.tsx:140-142 | unless the mode is on, the new level is >= 80 and the counter is < 3, a frame changes only the fill level |
| `Rules.PhysicsTriggersWhenArmed` | app/page.tsx:140-142 | the converse: when the mode is on, the new level is >= 80 and the counter is < 3, a tilted frame is the trigger applied to the state with the moved level |
| `Rules.FirstCrossingStartsScript` | app/page.tsx:129-142 | the first frame that brings the level to 80 with the mode on runs step 1 (lines 37-63): counter 1, guard set, tilt -60, "hey! dont touch my paper!" shown, and the step's three timers appended |
| `Rules.ExhaustedScriptIsSilent` | app/page.tsx:140-142 | once the counter is 3, a frame keeps the counter at 3 and changes no message, tilt, guard or timer (a fourth crossing is silent) |
| `Rules.UpdatePhysicsKeepsInv` | app/page.tsx:129-145 | a physics frame keeps the invariant, including a frame that runs the trigger |
| `Rules.TriggerGuard` | app/page.tsx:35-38 | while the guard is set the trigger is a no-op; otherwise it raises the counter by exactly 1; it never touches fill level, mode or drag state |
| `Rules.TriggerKeepsInv` | app/page.tsx:34-97 | from a valid state with the counter below 3, the trigger keeps the invariant: bounds, counter <= 3, guard only in steps 1 and 2, one release timer exactly while guarded, fresh ascending ids |
| `Rules.PlansStamped` | app/page.tsx:50-94 | the timers the three steps schedule, with consecutive host ids: (1000, 3000, 5000 ms), (1500, 4000 ms) and (3000 ms), with their messages |
| `Rules.ReleaseComesLast` | app/page.tsx:58-94 | the timers a step adds are appended after the pending ones; steps 1 and 2 add exactly one release timer and step 3 none; the release is the step's last timer and has its longest delay |
| `Rules.FirstScript` | app/page.tsx:40-63 | step 1 from a quiet page forces the tilt to -60, sets the guard, shows "hey! dont touch my paper!"; firing its timers in delay order (1000, 3000, 5000 ms) shows "I mean progressbar!", "that's much better", then "", and ends with the guard released and no timer left |
| `Rules.SecondScript` | app/page.tsx:65-84 | step 2 forces the tilt to -60, sets the guard, shows "stop already!", then "hands up, dont touch anything else" at 1500 ms and "" at 4000 ms, and ends released |
| `Rules.ThirdScript` | app/page.tsx:86-94 | step 3 leaves tilt and guard alone, shows "you just never give up, do you", and hides it at 3000 ms |
| `Rules.FireTimerKeepsInv` | app/page.tsx:50-92 | firing any pending timer, in any order, keeps the invariant; if firing clears a set guard, the timer fired was a pending release timer |
| `Rules.ToggleEstablishesInv` | app/page.tsx:100-123 | the toggle produces a valid state from any state at all |
| `Rules.ToggleForgetsHistory` | app/page.tsx:100-122 | after the toggle no timer is pending, the counter is 0, the guard is clear and the message empty; (level, tilt) is (20, -20) when enabling and (0, 0) when disabling; two pages toggled the same way differ only in drag state and host ids |
| `Rules.ToggleIdempotent` | app/page.tsx:100-122 | toggling to the same mode twice is the same as toggling once |
| `Rules.Step` | app/page.tsx:189-205 | definition (no contract of its own) of which handler each page event runs: the checkbox runs the toggle, mouse-down, -move and -up their handlers, mouse-leave the mouse-up handler, a frame the physics tick, and a due timer its callback; the trace lemmas below are stated over it |
| `Rules.StepKeepsInv` | app/page.tsx:129-179 | every event (pointer down, move, up or leave, frame, toggle, timer) keeps the invariant |
| `Rules.RunKeepsInv` | app/page.tsx:126-179 | every finite sequence of events keeps the invariant |
| `Rules.ReachableInv` | app/page.tsx:6-22 | in every state reachable from the first render: level in [0, 100], displayed level in [0, 100], tilt in [-90, 90], counter <= 3, guard only with counter 1 or 2 |
| `Rules.FiredNoneBelow` | app/page.tsx:28-31 | when no pending or future timer has an id below b, no timer that fires along any event sequence has an id below b |
| `Rules.NoStaleFire` | app/page.tsx:28-31 | after a mode toggle, no timer that was pending at the toggle ever fires, whatever events follow |
| `Page.Widget.constructor` | app/page.tsx:6-22 | the fields start as the first render and satisfy the invariant |
| `Page.Widget.MouseDown` | app/page.tsx:158-162 | sets dragging and records the pointer y; nothing else changes |
| `Page.Widget.MouseMove` | app/page.tsx:165-174 | while dragging, the tilt becomes clamp(angle + (y - lastY) * 0.5, -90, 90) and lastY becomes y; otherwise nothing changes |
| `Page.Widget.MouseUp` | app/page.tsx:177-179 | clears dragging and nothing else (also bound to mouse-leave, line 205) |
| `Page.Widget.ClearAllTimeouts` | app/page.tsx:28-31 | cancels every pending timer and changes no other field |
| `Page.Widget.Schedule` | app/page.tsx:50-63 | appends the step's timers, numbered with consecutive host ids, after the pending ones |
| `Page.Widget.Trigger` | app/page.tsx:34-97 | updates the fields exactly as `Rules.Trigger` does: guard check, counter increment, the step's tilt, message and timers |
| `Page.Widget.UpdatePhysics` | app/page.tsx:129-145 | updates the fields exactly as `Rules.UpdatePhysics` and keeps the invariant |
| `Page.Widget.Toggle` | app/page.tsx:100-123 | cancels all timers, then resets to the mode's baseline, as `Rules.Toggle`; restores the invariant from any state |
| `Page.Widget.FireTimer` | app/page.tsx:50-61 | runs the i-th pending timer's action and removes the timer, as `Rules.FireTimer`; keeps the invariant |

## Left out

- JSX rendering, the CSS custom properties and the message element
  (app/page.tsx:181-214): presentation only.
- `requestAnimationFrame` and `cancelAnimationFrame`, and the `useEffect`
  mount and unmount lifecycle (app/page.tsx:126-155). A frame is one call of
  `UpdatePhysics`. The effect restarts its frame loop when the mode changes;
  the model treats that restart as instantaneous. The cleanup at unmount
  calls `ClearAllTimeouts`, which is modelled; after unmount no further
  event happens.
- Page.Widget.FireTimer: real `setTimeout` runs timers in due-time order;
  the model lets the host fire any pending timer at any time. This allows
  more behaviours than the browser, and every invariant holds for all of
  them.
- `Math.sin` and `Math.PI` (app/page.tsx:133): floating-point trigonometry,
  replaced by the parameter `sine`.
- IEEE double rounding in the additions and multiplications: the model
  uses exact reals.
- `e.preventDefault()` (app/page.tsx:161): a browser side effect.
- Page.Widget.Trigger: its postcondition does not include the invariant.
  Called directly with the counter at 3, the source would raise the counter
  to 4. Its only caller, the physics tick, never does that
  (app/page.tsx:140). `Rules.TriggerKeepsInv` states the invariant for
  counters below 3.
