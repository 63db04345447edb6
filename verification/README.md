# Dash cluster ignition and bulb check, in Dafny

This project models the one piece of stateful logic in the ESP32 LVGL dash
cluster firmware (`main/main.c`): the ignition button and its "bulb check".

- The **state** (`Ignition.Dash`) has four parts:
  - the `ignition_on` flag;
  - the recolour style (tint and opacity) of the eleven images: three indicators and eight gauge parts;
  - the background style of the ignition-button LED;
  - the multiset of bulb-check timers still waiting to fire.
- A **click** (`Ignition.Click`, the model of `ign_btn_event_cb`) toggles the flag and makes the branch's fixed style writes. On OFF to ON it also arms a new 2000 ms one-shot timer.
- A **fire** (`Ignition.Fire`, the model of `bulb_check_timer_cb`) turns the three indicators black at full cover and deletes exactly that timer.
- **Start-up** (`Ignition.Init`) is the style writes of `create_cluster` and `ignition_button`.

Each `lv_obj_set_style_*` call is an `Engine.Write` on a complete map from slots
to styles (`Registry.Surface`). A callback's effect is the fold `Engine.ApplyAll`
of its writes, listed in source order in `Ignition`. `Traces` delivers any
interleaving of clicks and fires and proves the invariants that every run keeps.

Modules:
- `Colors`: RGB colours and the two opacities the code uses, `LV_OPA_TRANSP` and `LV_OPA_COVER`.
- `Registry`: the images, the slots, and the surface.
- `Engine`: style writes, the last-write-wins characterisation, order independence, and the group write builders.
- `Ignition`: the state, the write lists of each callback, `Init`, `Click` and `Fire`.
- `Traces`: events, runs, invariants and scenarios.

Facts about the code that the model keeps:
- **No single-flight guard.** Every OFF to ON click arms a new timer, so ON, OFF, ON within two seconds leaves two pending (`Traces.DoubleArmScenario`).
- **No cancellation.** The OFF branch never deletes a pending timer, and the code ignores the result of `lv_timer_create`.
- **Every click toggles.** There is no click that keeps the current state.
- **Gauges keep their tint.** The OFF to ON branch sets only the gauges' opacity.

## Model

| member | source | states |
|---|---|---|
| Ignition.Init | main/main.c:170-253 | The start-up writes are those of `ignition_button` (lines 170-171) and `create_cluster` (lines 188-253). After start-up the ignition is off and no timer is pending. Every indicator and gauge image, and the LED background, is black at full cover, whatever LVGL's defaults were. |
| Ignition.InitEffects | main/main.c:170-253 | The start-up writes (the LED at lines 170-171, the images at lines 188-253) leave every slot black at full cover, for any prior surface. |
| Ignition.InitIgnoresDefaults | main/main.c:170-253 | The start-up state does not depend on the styles objects had before `create_cluster` and `ignition_button` wrote them. |
| Ignition.Click | main/main.c:79-145 | A click flips `ignition_on`. OFF to ON: turn signals green at cover, high beam blue at cover, LED green at cover, every gauge transparent with its tint kept, and exactly one more bulb-check timer pending. ON to OFF: LED and every gauge black at cover, indicators unchanged, pending timers unchanged. |
| Ignition.IgnitionOnEffects | main/main.c:84-108 | The OFF to ON writes give exactly those styles, over any prior surface, stated per slot. |
| Ignition.IgnitionOffEffects | main/main.c:116-143 | The ON to OFF writes set the LED and all eight gauges black at cover and leave the three indicators as they were. |
| Ignition.Fire | main/main.c:63-77 | Firing a pending timer turns left turn, right turn and high beam black at cover. It removes exactly that timer, so the count drops by one. The flag, the LED and every gauge are unchanged. |
| Ignition.BulbCheckEffects | main/main.c:66-73 | The timer callback's writes darken the indicators and touch no other slot. |
| Ignition.IgnitionOffIdempotent | main/main.c:116-143 | Writing the OFF effects twice gives the same surface as writing them once. |
| Ignition.StaleFireCommutes | main/main.c:114-143 | The OFF click does not cancel a pending timer. Firing it after that click equals clicking after the fire, so a late bulb check cannot undo the OFF state of the LED and gauges. |
| Ignition.IndicatorOpacityAlwaysCover | main/main.c:71-73 | Every write to an indicator's recolour opacity anywhere in the program writes cover: start-up, both click branches and the timer. |
| Ignition.InitCoversIndicators | main/main.c:240-253 | The start-up writes to indicator opacity are all cover. |
| Ignition.IgnitionOnCoversIndicators | main/main.c:89-94 | The OFF to ON writes to indicator opacity are all cover. |
| Ignition.IgnitionOnFadesOnlyGauges | main/main.c:86-108 | Every OFF to ON opacity write to a slot other than a gauge image writes cover, so the turn signals, high beam and LED are written at cover and only gauges are made transparent. |
| Ignition.IgnitionOffCoversIndicators | main/main.c:118-143 | The ON to OFF branch never writes an indicator's opacity to anything but cover. |
| Ignition.BulbCheckCoversIndicators | main/main.c:71-73 | The timer callback's indicator opacity writes are all cover. |
| Ignition.IgnitionOnWritesConflictFree | main/main.c:87-108 | No two OFF to ON calls set the same field of the same object to different values. |
| Ignition.IgnitionOffWritesConflictFree | main/main.c:118-143 | No two ON to OFF calls set the same field of the same object to different values. |
| Ignition.BulbCheckWritesConflictFree | main/main.c:66-73 | No two timer-callback calls set the same field of the same object to different values. |
| Ignition.CallbackOrderIrrelevant | main/main.c:86-143 | Any reordering of one callback's style calls has the same effect as the source order. |
| Engine.ApplyAllLastWrite | main/main.c:86-108 | After a sequence of style calls, each field shows the value of the last call that wrote it, or its old value if no call wrote it. |
| Engine.ApplyTwice | main/main.c:116-143 | Repeating any sequence of style calls changes nothing more. |
| Engine.ReorderConflictFree | main/main.c:86-108 | A conflict-free sequence of style calls gives the same result in any order. |
| Engine.ApplyTintWrites | main/main.c:66-68 | Tinting a group of images sets their tint, keeps their opacity and touches no other slot. |
| Engine.ApplyOpaWrites | main/main.c:101-108 | Setting a group's recolour opacity keeps their tint and touches no other slot. |
| Engine.ApplyStyleWrites | main/main.c:121-143 | Tint-then-opacity calls per image give each image of the group exactly that style and touch no other slot. |
| Engine.ApplyLedWrites | main/main.c:118-119 | The LED's background colour and opacity calls set exactly the LED slot. |
| Traces.Step | main/main.c:63-145 | A fire is refused exactly when its timer is not pending; a click is always delivered. Only a click moves the flag. An OFF to ON click adds one pending timer, an ON to OFF click none, and a fire removes one. |
| Traces.InitInvariant | main/main.c:170-253 | The start-up state satisfies the invariant. |
| Traces.ClickOnInvariant | main/main.c:84-111 | The OFF to ON click keeps the invariant. |
| Traces.ClickOffInvariant | main/main.c:116-143 | The ON to OFF click keeps the invariant. |
| Traces.FireInvariant | main/main.c:63-77 | A timer fire keeps the invariant. |
| Traces.StepInvariant | main/main.c:63-145 | Every deliverable event keeps the invariant. |
| Traces.RunInvariant | main/main.c:63-145 | Every run of clicks and fires from an invariant state ends in one. |
| Traces.ReachableInvariant | main/main.c:61-253 | Every state reachable from start-up satisfies the invariant, whose facts are listed after this table. |
| Traces.RunToggles | main/main.c:82-116 | Over any run, fires never move the flag and each click flips it. |
| Traces.ClicksAlwaysRun | main/main.c:79-145 | A run of clicks alone is always deliverable. |
| Traces.ClickParity | main/main.c:61-116 | From start-up, after n clicks the ignition is on exactly when n is odd. |
| Traces.OnFromDormant | main/main.c:84-111 | From the start-up state, a click turns the ignition on with turn signals green, high beam blue and LED green at cover, gauges transparent black, and exactly one timer pending. |
| Traces.CheckAfterOn | main/main.c:63-77 | The bulb check after that click leaves the ignition on and nothing pending, with indicators black, LED green and gauges still transparent. |
| Traces.OffAfterOn | main/main.c:114-143 | An OFF click before the bulb check fires leaves the indicators lit and the timer pending, with the LED and gauges black at cover. |
| Traces.LateFireDormant | main/main.c:63-77 | The late bulb check in that state returns every slot to black at cover with nothing pending. |
| Traces.BulbCheckScenario | main/main.c:63-111 | From start-up, one click lights the indicators, turns the LED green, makes the gauges transparent and arms one timer. Its fire darkens the indicators again while the LED stays green and the gauges stay transparent black. |
| Traces.StaleTimerScenario | main/main.c:110-143 | ON then OFF leaves the turn signals green and the high beam blue at cover, the LED and gauges black, and one timer pending. Its late fire returns the dashboard to exactly the start-up state. |
| Traces.DoubleArmScenario | main/main.c:110-111 | ON, OFF, ON leaves two bulb-check timers pending. Both fire, and a third fire is refused. |

The invariant of `Traces.ReachableInvariant`:
- With the ignition off, the LED and gauges are black at cover.
- With it on, the LED is green at cover and the gauges are transparent.
- Indicators are always at cover.
- With no timer pending, the indicators are black.
- Every pending timer is a 2000 ms bulb check.

## Left out

- Display and board bring-up (`app_main`), `create_background_fill` and the `lv_timer_handler`/`lv_task_handler` loops: hardware and I/O plumbing outside the state machine.
- Object creation, alignment, sizes, zoom, radius, transform styles and image sources in `create_cluster` and `ignition_button`: presentation only. Only the colour and opacity writes are modelled.
- The `ign_btn` image recolour and `current_img`: the state machine never reads or writes them.
- Wall-clock time and LVGL timer internals: a timer is pending until a fire event removes it, and its 2000 ms period is only an attribute of `Ignition.Timer`.
- Ignition.Fire: requires its timer to be pending, because LVGL only calls the callback of a live timer. A fire of anything else is refused by `Traces.Step`.
- Ignition.Init: takes the styles LVGL gives new objects as a parameter, because they are library defaults outside this code. `Ignition.InitIgnoresDefaults` shows the result does not depend on them.
- Concurrency: each callback is one atomic step (`Traces.Step`). `app_main` starts the board display support (main/main.c:277) and then runs its own `lv_task_handler` loop without a display lock (main/main.c:297-302); interleaved calls from two handler loops are not modelled.
- Rendering, compositing and frame timing: the model stops at the style values each object holds.
- The red and white colours: defined but never used.
- A failing `lv_timer_create`: the code does not check its result, so the model always arms the timer.
