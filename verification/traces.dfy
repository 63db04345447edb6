/**
 * Runs of the dashboard: any interleaving of button clicks and timer fires,
 * the invariants every run keeps, and the scenarios the bulb check promises.
 */
module Traces {
  import opened Colors
  import opened Registry
  import opened Engine
  import opened Ignition

  /** What the single-threaded LVGL loop can deliver to the core. */
  datatype Event = Clicked | Fired(timer: Timer)

  datatype Option<T> = None | Some(value: T)

  /**
   * Delivers one event. A click is always possible; a fire only of a timer that
   * is still pending, so a fire of anything else yields `None`. Only a click
   * moves the flag; an OFF to ON click adds one pending timer, an ON to OFF
   * click none, and a fire takes one away.
   */
  function Step(d: Dash, e: Event): (r: Option<Dash>)
    ensures r.None? <==> e.Fired? && e.timer !in d.pending
    ensures r.Some? ==> r.value.ignitionOn == (d.ignitionOn != e.Clicked?)
    ensures r.Some? && e.Clicked? ==>
      |r.value.pending| == |d.pending| + (if d.ignitionOn then 0 else 1)
    ensures r.Some? && e.Fired? ==> |r.value.pending| + 1 == |d.pending|
  {
    match e
    case Clicked => Some(Click(d))
    case Fired(t) => if t in d.pending then Some(Fire(d, t)) else None
  }

  /** Delivers `es` in order; `None` when some fire names no pending timer. */
  function Run(d: Dash, es: seq<Event>): Option<Dash>
    decreases |es|
  {
    if es == [] then Some(d)
    else
      match Step(d, es[0])
      case None => None
      case Some(d1) => Run(d1, es[1..])
  }

  /** The number of clicks in `es`. */
  function Clicks(es: seq<Event>): nat
    decreases |es|
  {
    if es == [] then 0 else (if es[0].Clicked? then 1 else 0) + Clicks(es[1..])
  }

  /** `n` is odd, counted down one at a time. */
  predicate Odd(n: nat) {
    n > 0 && !Odd(n - 1)
  }

  lemma {:induction false} OddIsRemainderOne(n: nat)
    ensures Odd(n) <==> n % 2 == 1
  {
    if n > 0 {
      OddIsRemainderOne(n - 1);
    }
  }

  /** The LED and the gauges show the ignition state. */
  ghost predicate ShowsIgnition(d: Dash) {
    && (!d.ignitionOn ==>
          && d.surface[LedBackground] == Dark
          && forall g: Image :: IsGauge(g) ==> d.surface[Recolor(g)] == Dark)
    && (d.ignitionOn ==>
          && d.surface[LedBackground] == Style(Green, Cover)
          && forall g: Image :: IsGauge(g) ==> d.surface[Recolor(g)].opa == Transp)
  }

  /** The indicators are always at full cover. */
  ghost predicate IndicatorsCovered(d: Dash) {
    forall i: Image :: IsIndicator(i) ==> d.surface[Recolor(i)].opa == Cover
  }

  /** With no bulb check pending, the indicators are dark. */
  ghost predicate IdleIndicatorsDark(d: Dash) {
    d.pending == multiset{} ==> forall i: Image :: IsIndicator(i) ==> d.surface[Recolor(i)] == Dark
  }

  /** Every pending timer is a bulb-check timer of the fixed delay. */
  ghost predicate OnlyBulbChecks(d: Dash) {
    forall t :: t in d.pending ==> t == BulbCheck
  }

  ghost predicate Invariant(d: Dash) {
    ShowsIgnition(d) && IndicatorsCovered(d) && IdleIndicatorsDark(d) && OnlyBulbChecks(d)
  }

  /** Start-up establishes the invariant. */
  lemma InitInvariant(defaults: Surface)
    ensures Invariant(Init(defaults))
  {
  }

  /** Every event that can happen keeps the invariant. */
  lemma StepInvariant(d: Dash, e: Event)
    requires Invariant(d)
    ensures Step(d, e).Some? ==> Invariant(Step(d, e).value)
  {
    match e
    case Clicked =>
      if d.ignitionOn {
        ClickOffInvariant(d);
      } else {
        ClickOnInvariant(d);
      }
    case Fired(t) =>
      if t in d.pending {
        FireInvariant(d, t);
      }
  }

  lemma ClickOnInvariant(d: Dash)
    requires Invariant(d) && !d.ignitionOn
    ensures Invariant(Click(d))
  {
    ClickOnInvariantSteps(d, Click(d));
  }

  /** The OFF to ON facts that matter for the invariant, over an abstract result. */
  lemma ClickOnInvariantSteps(d: Dash, d': Dash)
    requires OnlyBulbChecks(d)
    requires d'.ignitionOn
    requires d'.surface[Recolor(LeftTurn)] == Style(Green, Cover)
    requires d'.surface[Recolor(RightTurn)] == Style(Green, Cover)
    requires d'.surface[Recolor(HighBeam)] == Style(Blue, Cover)
    requires d'.surface[LedBackground] == Style(Green, Cover)
    requires forall g: Image :: IsGauge(g) ==> d'.surface[Recolor(g)].opa == Transp
    requires d'.pending == d.pending + multiset{BulbCheck}
    ensures Invariant(d')
  {
    assert IndicatorsCovered(d') by {
      forall i: Image | IsIndicator(i) ensures d'.surface[Recolor(i)].opa == Cover {
        assert i == LeftTurn || i == RightTurn || i == HighBeam;
      }
    }
    assert IdleIndicatorsDark(d') by {
      assert BulbCheck in d'.pending;
    }
  }

  lemma ClickOffInvariant(d: Dash)
    requires Invariant(d) && d.ignitionOn
    ensures Invariant(Click(d))
  {
  }

  lemma FireInvariant(d: Dash, t: Timer)
    requires Invariant(d) && t in d.pending
    ensures Invariant(Fire(d, t))
  {
    var d' := Fire(d, t);
    assert forall u :: u in d'.pending ==> u in d.pending;
  }

  /** Every run from a state satisfying the invariant ends in one. */
  lemma {:induction false} RunInvariant(d: Dash, es: seq<Event>)
    requires Invariant(d)
    ensures Run(d, es).Some? ==> Invariant(Run(d, es).value)
    decreases |es|
  {
    if es != [] && Step(d, es[0]).Some? {
      StepInvariant(d, es[0]);
      RunInvariant(Step(d, es[0]).value, es[1..]);
    }
  }

  /** Every state reachable from start-up satisfies the invariant. */
  lemma ReachableInvariant(defaults: Surface, es: seq<Event>)
    ensures Run(Init(defaults), es).Some? ==> Invariant(Run(Init(defaults), es).value)
  {
    InitInvariant(defaults);
    RunInvariant(Init(defaults), es);
  }

  /** Timer fires never move the ignition: it flips once per click. */
  lemma {:induction false} RunToggles(d: Dash, es: seq<Event>)
    ensures Run(d, es).Some? ==> Run(d, es).value.ignitionOn == (d.ignitionOn != Odd(Clicks(es)))
    decreases |es|
  {
    if es != [] && Step(d, es[0]).Some? {
      RunToggles(Step(d, es[0]).value, es[1..]);
    }
  }

  lemma RunFirstClick(d: Dash, es: seq<Event>)
    requires es != [] && es[0].Clicked?
    ensures Run(d, es) == Run(Click(d), es[1..])
  {
  }

  /** A run whose first event can be delivered continues from that event's state. */
  lemma RunStep(d: Dash, es: seq<Event>)
    requires es != [] && Step(d, es[0]).Some?
    ensures Run(d, es) == Run(Step(d, es[0]).value, es[1..])
  {
  }

  /** A run of clicks alone is always possible. */
  lemma {:induction false} ClicksAlwaysRun(d: Dash, es: seq<Event>)
    requires forall e :: e in es ==> e.Clicked?
    ensures Run(d, es).Some?
    decreases |es|
  {
    if es != [] {
      assert es[0] in es;
      assert forall e :: e in es[1..] ==> e in es;
      RunFirstClick(d, es);
      ClicksAlwaysRun(Click(d), es[1..]);
    }
  }

  /** From start-up, `n` clicks leave the ignition on exactly when `n` is odd. */
  lemma ClickParity(defaults: Surface, n: nat)
    ensures var r := Run(Init(defaults), seq(n, _ => Clicked));
      r.Some? && (r.value.ignitionOn <==> n % 2 == 1)
  {
    var es := seq(n, _ => Clicked);
    ClicksAlwaysRun(Init(defaults), es);
    RunToggles(Init(defaults), es);
    ClicksCounted(n);
    OddIsRemainderOne(n);
  }

  lemma {:induction false} ClicksCounted(n: nat)
    ensures Clicks(seq(n, _ => Clicked)) == n
  {
    if n > 0 {
      assert seq(n, _ => Clicked)[1..] == seq(n - 1, _ => Clicked);
      ClicksCounted(n - 1);
    }
  }

  lemma OneClickRuns(d: Dash)
    ensures Run(d, [Clicked]) == Some(Click(d))
  {
    assert [Clicked][1..] == [];
  }

  lemma OneFireRuns(d: Dash, t: Timer)
    requires t in d.pending
    ensures Run(d, [Fired(t)]) == Some(Fire(d, t))
  {
    assert [Fired(t)][1..] == [];
  }

  lemma TwoClicksRun(d: Dash)
    ensures Run(d, [Clicked, Clicked]) == Some(Click(Click(d)))
  {
    assert [Clicked, Clicked][1..] == [Clicked];
    RunFirstClick(d, [Clicked, Clicked]);
    OneClickRuns(Click(d));
  }

  lemma ThreeClicksRun(d: Dash)
    ensures Run(d, [Clicked, Clicked, Clicked]) == Some(Click(Click(Click(d))))
  {
    assert [Clicked, Clicked, Clicked][1..] == [Clicked, Clicked];
    RunFirstClick(d, [Clicked, Clicked, Clicked]);
    TwoClicksRun(Click(d));
  }

  lemma ClickThenFireRuns(d: Dash)
    requires BulbCheck in Click(d).pending
    ensures Run(d, [Clicked, Fired(BulbCheck)]) == Some(Fire(Click(d), BulbCheck))
  {
    assert [Clicked, Fired(BulbCheck)][1..] == [Fired(BulbCheck)];
    RunFirstClick(d, [Clicked, Fired(BulbCheck)]);
    OneFireRuns(Click(d), BulbCheck);
  }

  lemma TwoClicksThenFireRuns(d: Dash)
    requires BulbCheck in Click(Click(d)).pending
    ensures Run(d, [Clicked, Clicked, Fired(BulbCheck)]) == Some(Fire(Click(Click(d)), BulbCheck))
  {
    assert [Clicked, Clicked, Fired(BulbCheck)][1..] == [Clicked, Fired(BulbCheck)];
    RunFirstClick(d, [Clicked, Clicked, Fired(BulbCheck)]);
    ClickThenFireRuns(Click(d));
  }

  /** Ignition off, no timer pending, every slot black at full cover: the start-up state. */
  ghost predicate Dormant(d: Dash) {
    !d.ignitionOn && d.pending == multiset{} && forall x: Slot :: d.surface[x] == Dark
  }

  /** There is only one dormant state. */
  lemma DormantUnique(a: Dash, b: Dash)
    requires Dormant(a) && Dormant(b)
    ensures a == b
  {
    SurfaceExt(a.surface, b.surface);
  }

  lemma InitDormant(defaults: Surface)
    ensures Dormant(Init(defaults))
  {
    var d := Init(defaults);
    forall x: Slot ensures d.surface[x] == Dark {
      SlotCases(x);
    }
  }

  /** Just after the first OFF to ON click: indicators lit, one bulb check pending. */
  ghost predicate JustOn(d: Dash) {
    && d.ignitionOn && d.pending == multiset{BulbCheck}
    && d.surface[Recolor(LeftTurn)] == Style(Green, Cover)
    && d.surface[Recolor(RightTurn)] == Style(Green, Cover)
    && d.surface[Recolor(HighBeam)] == Style(Blue, Cover)
    && d.surface[LedBackground] == Style(Green, Cover)
    && forall g: Image :: IsGauge(g) ==> d.surface[Recolor(g)] == Style(Black, Transp)
  }

  /** After the bulb check of a `JustOn` state: indicators dark, nothing pending. */
  ghost predicate Checked(d: Dash) {
    && d.ignitionOn && d.pending == multiset{}
    && (forall i: Image :: IsIndicator(i) ==> d.surface[Recolor(i)] == Dark)
    && d.surface[LedBackground] == Style(Green, Cover)
    && forall g: Image :: IsGauge(g) ==> d.surface[Recolor(g)] == Style(Black, Transp)
  }

  /** Switched off again before the bulb check fired: indicators still lit. */
  ghost predicate OffBeforeCheck(d: Dash) {
    && !d.ignitionOn && d.pending == multiset{BulbCheck}
    && d.surface[Recolor(LeftTurn)] == Style(Green, Cover)
    && d.surface[Recolor(RightTurn)] == Style(Green, Cover)
    && d.surface[Recolor(HighBeam)] == Style(Blue, Cover)
    && d.surface[LedBackground] == Dark
    && forall g: Image :: IsGauge(g) ==> d.surface[Recolor(g)] == Dark
  }

  /** The OFF to ON click from a dormant state, for any `d1` with the click's promised effects. */
  lemma OnFromDormantSteps(d: Dash, d1: Dash)
    requires Dormant(d)
    requires d1.ignitionOn && d1.pending == d.pending + multiset{BulbCheck}
    requires d1.surface[Recolor(LeftTurn)] == Style(Green, Cover)
    requires d1.surface[Recolor(RightTurn)] == Style(Green, Cover)
    requires d1.surface[Recolor(HighBeam)] == Style(Blue, Cover)
    requires d1.surface[LedBackground] == Style(Green, Cover)
    requires forall g: Image :: IsGauge(g) ==>
      d1.surface[Recolor(g)] == Style(d.surface[Recolor(g)].color, Transp)
    ensures JustOn(d1)
  {
    assert d1.pending == multiset{BulbCheck};
  }

  lemma OnFromDormant(d: Dash)
    requires Dormant(d)
    ensures JustOn(Click(d))
  {
    OnFromDormantSteps(d, Click(d));
  }

  lemma CheckAfterOn(d: Dash)
    requires JustOn(d)
    ensures BulbCheck in d.pending && Checked(Fire(d, BulbCheck))
  {
  }

  lemma OffAfterOnSteps(d: Dash, d2: Dash)
    requires JustOn(d)
    requires !d2.ignitionOn && d2.pending == d.pending
    requires d2.surface[LedBackground] == Dark
    requires forall g: Image :: IsGauge(g) ==> d2.surface[Recolor(g)] == Dark
    requires forall i: Image :: IsIndicator(i) ==> d2.surface[Recolor(i)] == d.surface[Recolor(i)]
    ensures OffBeforeCheck(d2)
  {
    assert IsIndicator(LeftTurn) && IsIndicator(RightTurn) && IsIndicator(HighBeam);
  }

  lemma OffAfterOn(d: Dash)
    requires JustOn(d)
    ensures OffBeforeCheck(Click(d))
  {
    OffAfterOnSteps(d, Click(d));
  }

  lemma LateFireDormant(d: Dash)
    requires OffBeforeCheck(d)
    ensures Dormant(Fire(d, BulbCheck))
  {
    var d3 := Fire(d, BulbCheck);
    forall x: Slot ensures d3.surface[x] == Dark {
      SlotCases(x);
    }
  }

  /** From the dormant state, one click lights the indicators and its bulb check darkens them. */
  lemma BulbCheckFrom(d: Dash)
    requires Dormant(d)
    ensures var r := Run(d, [Clicked]); r.Some? && JustOn(r.value)
    ensures var r := Run(d, [Clicked, Fired(BulbCheck)]); r.Some? && Checked(r.value)
  {
    OnFromDormant(d);
    CheckAfterOn(Click(d));
    OneClickRuns(d);
    ClickThenFireRuns(d);
    BulbCheckFromSteps(d, Click(d), Fire(Click(d), BulbCheck));
  }

  /**
   * Restates its requires over states given as parameters, so that the caller
   * need not reason about the click and fire bodies at the same time.
   */
  lemma BulbCheckFromSteps(d: Dash, d1: Dash, d2: Dash)
    requires Run(d, [Clicked]) == Some(d1) && JustOn(d1)
    requires Run(d, [Clicked, Fired(BulbCheck)]) == Some(d2) && Checked(d2)
    ensures var r := Run(d, [Clicked]); r.Some? && JustOn(r.value)
    ensures var r := Run(d, [Clicked, Fired(BulbCheck)]); r.Some? && Checked(r.value)
  {
  }

  /**
   * The bulb check: from start-up, one click lights the turn signals green and
   * the high beam blue and arms one timer; its fire turns them dark again while
   * the LED stays green and the gauges stay transparent.
   */
  lemma BulbCheckScenario(defaults: Surface)
    ensures var r := Run(Init(defaults), [Clicked]); r.Some? && JustOn(r.value)
    ensures var r := Run(Init(defaults), [Clicked, Fired(BulbCheck)]); r.Some? && Checked(r.value)
  {
    InitDormant(defaults);
    BulbCheckFrom(Init(defaults));
  }

  /** From the dormant state, ON then OFF leaves the indicators lit and the late fire restores it. */
  lemma StaleTimerFrom(d: Dash)
    requires Dormant(d)
    ensures var r := Run(d, [Clicked, Clicked]); r.Some? && OffBeforeCheck(r.value)
    ensures Run(d, [Clicked, Clicked, Fired(BulbCheck)]) == Some(d)
  {
    OnFromDormant(d);
    OffAfterOn(Click(d));
    LateFireDormant(Click(Click(d)));
    DormantUnique(Fire(Click(Click(d)), BulbCheck), d);
    TwoClicksRun(d);
    TwoClicksThenFireRuns(d);
    StaleTimerFromSteps(d, Click(Click(d)), Fire(Click(Click(d)), BulbCheck));
  }

  /** As `BulbCheckFromSteps`: keeps the click and fire bodies out of the caller's proof. */
  lemma StaleTimerFromSteps(d: Dash, d2: Dash, d3: Dash)
    requires Run(d, [Clicked, Clicked]) == Some(d2) && OffBeforeCheck(d2)
    requires Run(d, [Clicked, Clicked, Fired(BulbCheck)]) == Some(d3) && d3 == d
    ensures var r := Run(d, [Clicked, Clicked]); r.Some? && OffBeforeCheck(r.value)
    ensures Run(d, [Clicked, Clicked, Fired(BulbCheck)]) == Some(d)
  {
  }

  /**
   * A bulb-check timer armed by an OFF to ON click and still pending after the
   * ON to OFF click keeps the indicators lit until it fires, and its late fire
   * takes the dashboard back to exactly the start-up state.
   */
  lemma StaleTimerScenario(defaults: Surface)
    ensures var r := Run(Init(defaults), [Clicked, Clicked]); r.Some? && OffBeforeCheck(r.value)
    ensures Run(Init(defaults), [Clicked, Clicked, Fired(BulbCheck)]) == Some(Init(defaults))
  {
    InitDormant(defaults);
    StaleTimerFrom(Init(defaults));
  }

  /** How one click moves the flag and the pending timers. */
  lemma ClickPending(d: Dash)
    ensures Click(d).ignitionOn == !d.ignitionOn
    ensures Click(d).pending == if d.ignitionOn then d.pending else d.pending + multiset{BulbCheck}
  {
  }

  lemma DoubleArmPendingSteps(d: Dash, d1: Dash, d2: Dash, d3: Dash)
    requires !d.ignitionOn && d.pending == multiset{}
    requires d1.ignitionOn && d1.pending == d.pending + multiset{BulbCheck}
    requires !d2.ignitionOn && d2.pending == d1.pending
    requires d3.pending == d2.pending + multiset{BulbCheck}
    ensures d3.pending == multiset{BulbCheck, BulbCheck}
  {
  }

  lemma DoubleArmPending(d: Dash)
    requires !d.ignitionOn && d.pending == multiset{}
    ensures Click(Click(Click(d))).pending == multiset{BulbCheck, BulbCheck}
  {
    ClickPending(d);
    ClickPending(Click(d));
    ClickPending(Click(Click(d)));
    DoubleArmPendingSteps(d, Click(d), Click(Click(d)), Click(Click(Click(d))));
  }

  /** A fire of a pending timer at the head of a run is delivered first. */
  lemma FireRuns(d: Dash, t: Timer, es: seq<Event>)
    requires t in d.pending
    ensures Run(d, [Fired(t)] + es) == Run(Fire(d, t), es)
  {
    var s := [Fired(t)] + es;
    assert s[0] == Fired(t) && s[1..] == es;
    RunStep(d, s);
  }

  /** Two pending bulb checks fire one after the other, and a third fire is refused. */
  lemma FireTwiceRuns(d: Dash)
    requires d.pending == multiset{BulbCheck, BulbCheck}
    ensures var r := Run(d, [Fired(BulbCheck), Fired(BulbCheck)]);
      r.Some? && r.value.pending == multiset{}
    ensures Run(d, [Fired(BulbCheck), Fired(BulbCheck), Fired(BulbCheck)]).None?
  {
    var f := Fired(BulbCheck);
    var d1 := Fire(d, BulbCheck);
    var d2 := Fire(d1, BulbCheck);
    FireTwicePending(d, d1, d2);
    FireLists();
    FireRuns(d, BulbCheck, [f]);
    FireRuns(d1, BulbCheck, []);
    FireRuns(d, BulbCheck, [f, f]);
    FireRuns(d1, BulbCheck, [f]);
    NoFireRuns(d2);
  }

  lemma FireTwicePending(d: Dash, d1: Dash, d2: Dash)
    requires d.pending == multiset{BulbCheck, BulbCheck}
    requires d1.pending == d.pending - multiset{BulbCheck}
    requires d2.pending == d1.pending - multiset{BulbCheck}
    ensures BulbCheck in d1.pending && d2.pending == multiset{}
  {
    assert d1.pending == multiset{BulbCheck};
  }

  /**
   * The fire lists of the double-arm scenario, split after the first fire;
   * stated apart so that these sequence identities are proved without the
   * click and fire bodies in scope.
   */
  lemma FireLists()
    ensures [Fired(BulbCheck)] + [] == [Fired(BulbCheck)]
    ensures [Fired(BulbCheck)] + [Fired(BulbCheck)] == [Fired(BulbCheck), Fired(BulbCheck)]
    ensures [Fired(BulbCheck)] + [Fired(BulbCheck), Fired(BulbCheck)]
      == [Fired(BulbCheck), Fired(BulbCheck), Fired(BulbCheck)]
  {
  }

  /** With no timer pending, a lone fire is refused. */
  lemma NoFireRuns(d: Dash)
    requires d.pending == multiset{}
    ensures Run(d, [Fired(BulbCheck)]).None?
  {
  }

  /** The double-arm runs, from whatever state three clicks reach. */
  lemma DoubleArmRunsSteps(d: Dash, d3: Dash)
    requires Run(d, [Clicked, Clicked, Clicked]) == Some(d3)
    requires d3.pending == multiset{BulbCheck, BulbCheck}
    ensures var r := Run(d, [Clicked, Clicked, Clicked, Fired(BulbCheck), Fired(BulbCheck)]);
      r.Some? && r.value.pending == multiset{}
    ensures Run(d, [Clicked, Clicked, Clicked, Fired(BulbCheck), Fired(BulbCheck), Fired(BulbCheck)]).None?
  {
    FireTwiceRuns(d3);
    RunConcat(d, [Clicked, Clicked, Clicked], [Fired(BulbCheck), Fired(BulbCheck)]);
    RunConcat(d, [Clicked, Clicked, Clicked], [Fired(BulbCheck), Fired(BulbCheck), Fired(BulbCheck)]);
    DoubleArmEvents();
  }

  lemma DoubleArmFrom(d: Dash)
    requires !d.ignitionOn && d.pending == multiset{}
    ensures var r := Run(d, [Clicked, Clicked, Clicked]);
      r.Some? && r.value.pending == multiset{BulbCheck, BulbCheck}
    ensures var r := Run(d, [Clicked, Clicked, Clicked, Fired(BulbCheck), Fired(BulbCheck)]);
      r.Some? && r.value.pending == multiset{}
    ensures Run(d, [Clicked, Clicked, Clicked, Fired(BulbCheck), Fired(BulbCheck), Fired(BulbCheck)]).None?
  {
    ThreeClicksRun(d);
    DoubleArmPending(d);
    DoubleArmRunsSteps(d, Click(Click(Click(d))));
  }

  /**
   * Nothing stops a second timer: ON, OFF, ON within the delay leaves two bulb
   * checks pending, both of them fire, and no third one does.
   */
  lemma DoubleArmScenario(defaults: Surface)
    ensures var r := Run(Init(defaults), [Clicked, Clicked, Clicked]);
      r.Some? && r.value.pending == multiset{BulbCheck, BulbCheck}
    ensures var r := Run(Init(defaults), [Clicked, Clicked, Clicked, Fired(BulbCheck), Fired(BulbCheck)]);
      r.Some? && r.value.pending == multiset{}
    ensures Run(Init(defaults), [Clicked, Clicked, Clicked, Fired(BulbCheck), Fired(BulbCheck), Fired(BulbCheck)]).None?
  {
    DoubleArmFrom(Init(defaults));
  }

  /** The event lists of the double-arm scenario, split after the clicks; stated apart as `FireLists` is. */
  lemma DoubleArmEvents()
    ensures [Clicked, Clicked, Clicked] + [Fired(BulbCheck), Fired(BulbCheck)]
      == [Clicked, Clicked, Clicked, Fired(BulbCheck), Fired(BulbCheck)]
    ensures [Clicked, Clicked, Clicked] + [Fired(BulbCheck), Fired(BulbCheck), Fired(BulbCheck)]
      == [Clicked, Clicked, Clicked, Fired(BulbCheck), Fired(BulbCheck), Fired(BulbCheck)]
  {
  }

  /** Delivering `a` and then `b` is delivering `a + b`. */
  lemma {:induction false} RunConcat(d: Dash, a: seq<Event>, b: seq<Event>)
    ensures Run(d, a + b) == (match Run(d, a) case None => None case Some(d1) => Run(d1, b))
    decreases |a|
  {
    if a != [] {
      assert (a + b)[0] == a[0];
      assert (a + b)[1..] == a[1..] + b;
      if Step(d, a[0]).Some? {
        RunConcat(Step(d, a[0]).value, a[1..], b);
      }
    } else {
      assert a + b == b;
    }
  }
}
