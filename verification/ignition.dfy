/**
 * The ignition state machine and its bulb-check timer: the state the button
 * callback and the timer callback share, and the two callbacks themselves.
 */
module Ignition {
  import opened Colors
  import opened Registry
  import opened Engine

  /** The delay of the one-shot bulb-check timer, in milliseconds. */
  const BulbCheckDelayMs: nat := 2000

  /**
   * A pending LVGL timer. Time is abstract: a timer is pending until a fire
   * event removes it, and its period is kept only as an attribute.
   */
  datatype Timer = BulbCheckTimer(periodMs: nat)

  /** The one kind of timer the button callback creates. */
  const BulbCheck: Timer := BulbCheckTimer(BulbCheckDelayMs)

  /**
   * The whole shared state: the `ignition_on` flag, the styles of the recoloured
   * elements, and the timers still waiting to fire (as a multiset, since nothing
   * stops several identical timers from being pending at once).
   */
  datatype Dash = Dash(ignitionOn: bool, surface: Surface, pending: multiset<Timer>)

  /** The gauge images in the order `create_cluster` and the ON to OFF branch visit them. */
  const GaugeOrder: seq<Image> :=
    [TachScale, TachHubGlow, TachHub, TachNeedle, SpeedoScale, SpeedoHubGlow, SpeedoHub, SpeedoNeedle]

  /** The gauge images in the order the OFF to ON branch makes them transparent. */
  const GaugeFadeOrder: seq<Image> :=
    [TachScale, SpeedoScale, TachHubGlow, SpeedoHubGlow, TachHub, SpeedoHub, TachNeedle, SpeedoNeedle]

  /** The indicator images in the order `create_cluster` and the timer callback visit them. */
  const IndicatorOrder: seq<Image> := [LeftTurn, RightTurn, HighBeam]

  /** The indicator and gauge groups as sets, for stating which images a list of writes reaches. */
  const Indicators: set<Image> := {LeftTurn, RightTurn, HighBeam}
  const Gauges: set<Image> :=
    {TachScale, TachHub, TachHubGlow, TachNeedle, SpeedoScale, SpeedoHub, SpeedoHubGlow, SpeedoNeedle}

  /** The recolour writes `create_cluster` and then `ignition_button` make, in source order. */
  function InitWrites(): seq<Write> {
    StyleWrites(GaugeOrder, Dark) + StyleWrites([HighBeam, LeftTurn, RightTurn], Dark) + LedWrites(Dark)
  }

  /** The writes of the OFF to ON branch of the button callback, in source order. */
  function IgnitionOnWrites(): seq<Write> {
    TintWrites([LeftTurn, RightTurn], Green) + OpaWrites([LeftTurn, RightTurn], Cover)
    + StyleWrites([HighBeam], Style(Blue, Cover))
    + LedWrites(Style(Green, Cover))
    + OpaWrites(GaugeFadeOrder, Transp)
  }

  /** The writes of the ON to OFF branch of the button callback, in source order. */
  function IgnitionOffWrites(): seq<Write> {
    LedWrites(Dark) + StyleWrites(GaugeOrder, Dark)
  }

  /** The writes of the bulb-check timer callback, in source order. */
  function BulbCheckWrites(): seq<Write> {
    TintWrites(IndicatorOrder, Black) + OpaWrites(IndicatorOrder, Cover)
  }

  /** The source's image orders visit exactly the gauge and indicator groups. */
  lemma OrdersListGroups()
    ensures forall i: Image :: i in GaugeOrder <==> IsGauge(i)
    ensures forall i: Image :: i in GaugeFadeOrder <==> IsGauge(i)
    ensures forall i: Image :: i in IndicatorOrder <==> IsIndicator(i)
    ensures forall i: Image :: i in [HighBeam, LeftTurn, RightTurn] <==> IsIndicator(i)
  {
  }

  /** The two group sets are exactly the images the group predicates select. */
  lemma GroupSetsMatch()
    ensures forall i: Image :: i in Indicators <==> IsIndicator(i)
    ensures forall i: Image :: i in Gauges <==> IsGauge(i)
  {
  }

  /** Start-up leaves every slot black at full cover, whatever it held before. */
  lemma InitEffects(s: Surface)
    ensures forall x: Slot :: ApplyAll(s, InitWrites())[x] == Dark
  {
    var a := StyleWrites(GaugeOrder, Dark);
    var b := StyleWrites([HighBeam, LeftTurn, RightTurn], Dark);
    var s1 := ApplyAll(s, a);
    var s2 := ApplyAll(s1, b);
    var s3 := ApplyAll(s2, LedWrites(Dark));
    ApplyStyleWrites(s, GaugeOrder, Dark);
    ApplyStyleWrites(s1, [HighBeam, LeftTurn, RightTurn], Dark);
    ApplyLedWrites(s2, Dark);
    InitSteps(s, s1, s2, s3);
    ApplyConcat(s, a, b);
    ApplyConcat(s, a + b, LedWrites(Dark));
  }

  lemma InitSteps(s: Surface, s1: Surface, s2: Surface, s3: Surface)
    requires StylesGroup(s, s1, GaugeOrder, Dark)
    requires StylesGroup(s1, s2, [HighBeam, LeftTurn, RightTurn], Dark)
    requires StylesLed(s2, s3, Dark)
    ensures forall x: Slot :: s3[x] == Dark
  {
    OrdersListGroups();
    forall x: Slot ensures s3[x] == Dark {
      SlotCases(x);
    }
  }

  /**
   * The OFF to ON writes: turn signals green, high beam blue, LED green, all at
   * full cover; every gauge transparent with its tint kept.
   */
  lemma IgnitionOnEffects(s: Surface)
    ensures var r := ApplyAll(s, IgnitionOnWrites());
      && r[Recolor(LeftTurn)] == Style(Green, Cover)
      && r[Recolor(RightTurn)] == Style(Green, Cover)
      && r[Recolor(HighBeam)] == Style(Blue, Cover)
      && r[LedBackground] == Style(Green, Cover)
      && forall g: Image :: IsGauge(g) ==> r[Recolor(g)] == Style(s[Recolor(g)].color, Transp)
  {
    var turns := [LeftTurn, RightTurn];
    var a := TintWrites(turns, Green);
    var b := OpaWrites(turns, Cover);
    var c := StyleWrites([HighBeam], Style(Blue, Cover));
    var d := LedWrites(Style(Green, Cover));
    var e := OpaWrites(GaugeFadeOrder, Transp);
    var s1 := ApplyAll(s, a);
    var s2 := ApplyAll(s1, b);
    var s3 := ApplyAll(s2, c);
    var s4 := ApplyAll(s3, d);
    var s5 := ApplyAll(s4, e);
    ApplyTintWrites(s, turns, Green);
    ApplyOpaWrites(s1, turns, Cover);
    ApplyStyleWrites(s2, [HighBeam], Style(Blue, Cover));
    ApplyLedWrites(s3, Style(Green, Cover));
    ApplyOpaWrites(s4, GaugeFadeOrder, Transp);
    IgnitionOnSteps(s, s1, s2, s3, s4, s5);
    ApplyConcat(s, a, b);
    ApplyConcat(s, a + b, c);
    ApplyConcat(s, a + b + c, d);
    ApplyConcat(s, a + b + c + d, e);
  }

  lemma IgnitionOnSteps(s: Surface, s1: Surface, s2: Surface, s3: Surface, s4: Surface, s5: Surface)
    requires TintsGroup(s, s1, [LeftTurn, RightTurn], Green)
    requires FadesGroup(s1, s2, [LeftTurn, RightTurn], Cover)
    requires StylesGroup(s2, s3, [HighBeam], Style(Blue, Cover))
    requires StylesLed(s3, s4, Style(Green, Cover))
    requires FadesGroup(s4, s5, GaugeFadeOrder, Transp)
    ensures s5[Recolor(LeftTurn)] == Style(Green, Cover)
    ensures s5[Recolor(RightTurn)] == Style(Green, Cover)
    ensures s5[Recolor(HighBeam)] == Style(Blue, Cover)
    ensures s5[LedBackground] == Style(Green, Cover)
    ensures forall g: Image :: IsGauge(g) ==> s5[Recolor(g)] == Style(s[Recolor(g)].color, Transp)
  {
    IndicatorsOnSteps(s, s1, s2, s3);
    LedGaugesOnSteps(s3, s4, s5);
    assert LeftTurn !in GaugeFadeOrder && RightTurn !in GaugeFadeOrder && HighBeam !in GaugeFadeOrder;
  }

  lemma IndicatorsOnSteps(s: Surface, s1: Surface, s2: Surface, s3: Surface)
    requires TintsGroup(s, s1, [LeftTurn, RightTurn], Green)
    requires FadesGroup(s1, s2, [LeftTurn, RightTurn], Cover)
    requires StylesGroup(s2, s3, [HighBeam], Style(Blue, Cover))
    ensures s3[Recolor(LeftTurn)] == Style(Green, Cover)
    ensures s3[Recolor(RightTurn)] == Style(Green, Cover)
    ensures s3[Recolor(HighBeam)] == Style(Blue, Cover)
    ensures forall x: Slot :: (x == LedBackground || IsGauge(x.image)) ==> s3[x] == s[x]
  {
  }

  lemma LedGaugesOnSteps(s3: Surface, s4: Surface, s5: Surface)
    requires StylesLed(s3, s4, Style(Green, Cover))
    requires FadesGroup(s4, s5, GaugeFadeOrder, Transp)
    ensures s5[LedBackground] == Style(Green, Cover)
    ensures forall g: Image :: IsGauge(g) ==> s5[Recolor(g)] == Style(s3[Recolor(g)].color, Transp)
    ensures forall i: Image :: i !in GaugeFadeOrder ==> s5[Recolor(i)] == s3[Recolor(i)]
  {
    OrdersListGroups();
  }

  /** The ON to OFF writes: LED and every gauge black at full cover, indicators kept. */
  lemma IgnitionOffEffects(s: Surface)
    ensures var r := ApplyAll(s, IgnitionOffWrites());
      && r[LedBackground] == Dark
      && (forall g: Image :: IsGauge(g) ==> r[Recolor(g)] == Dark)
      && (forall i: Image :: IsIndicator(i) ==> r[Recolor(i)] == s[Recolor(i)])
  {
    var a := LedWrites(Dark);
    var b := StyleWrites(GaugeOrder, Dark);
    var s1 := ApplyAll(s, a);
    var s2 := ApplyAll(s1, b);
    ApplyLedWrites(s, Dark);
    ApplyStyleWrites(s1, GaugeOrder, Dark);
    IgnitionOffSteps(s, s1, s2);
    ApplyConcat(s, a, b);
  }

  lemma IgnitionOffSteps(s: Surface, s1: Surface, s2: Surface)
    requires StylesLed(s, s1, Dark)
    requires StylesGroup(s1, s2, GaugeOrder, Dark)
    ensures s2[LedBackground] == Dark
    ensures forall g: Image :: IsGauge(g) ==> s2[Recolor(g)] == Dark
    ensures forall i: Image :: IsIndicator(i) ==> s2[Recolor(i)] == s[Recolor(i)]
  {
    OrdersListGroups();
  }

  /** The bulb-check writes: indicators black at full cover, LED and gauges kept. */
  lemma BulbCheckEffects(s: Surface)
    ensures var r := ApplyAll(s, BulbCheckWrites());
      && (forall i: Image :: IsIndicator(i) ==> r[Recolor(i)] == Dark)
      && r[LedBackground] == s[LedBackground]
      && (forall g: Image :: IsGauge(g) ==> r[Recolor(g)] == s[Recolor(g)])
  {
    var a := TintWrites(IndicatorOrder, Black);
    var b := OpaWrites(IndicatorOrder, Cover);
    var s1 := ApplyAll(s, a);
    var s2 := ApplyAll(s1, b);
    ApplyTintWrites(s, IndicatorOrder, Black);
    ApplyOpaWrites(s1, IndicatorOrder, Cover);
    BulbCheckSteps(s, s1, s2);
    ApplyConcat(s, a, b);
  }

  lemma BulbCheckSteps(s: Surface, s1: Surface, s2: Surface)
    requires TintsGroup(s, s1, IndicatorOrder, Black)
    requires FadesGroup(s1, s2, IndicatorOrder, Cover)
    ensures forall i: Image :: IsIndicator(i) ==> s2[Recolor(i)] == Dark
    ensures s2[LedBackground] == s[LedBackground]
    ensures forall g: Image :: IsGauge(g) ==> s2[Recolor(g)] == s[Recolor(g)]
  {
    OrdersListGroups();
  }

  /**
   * The state after start-up: `create_cluster` then `ignition_button` run on
   * objects holding LVGL's default styles `defaults`, and `ignition_on` starts
   * false with no timer created.
   */
  function Init(defaults: Surface): (d: Dash)
    ensures !d.ignitionOn && d.pending == multiset{}
    ensures forall i: Image :: d.surface[Recolor(i)] == Dark
    ensures d.surface[LedBackground] == Dark
  {
    InitEffects(defaults);
    Dash(false, ApplyAll(defaults, InitWrites()), multiset{})
  }

  /**
   * A click on the ignition button. From OFF: the turn signals go green and the
   * high beam blue at full cover, the LED goes green, every gauge image is made
   * transparent with its tint kept, and one more bulb-check timer is armed,
   * whatever is already pending. From ON: the LED and every gauge go black at
   * full cover, while the indicators and the pending timers are left alone.
   */
  function Click(d: Dash): (d': Dash)
    ensures d'.ignitionOn == !d.ignitionOn
    ensures !d.ignitionOn ==>
      && d'.surface[Recolor(LeftTurn)] == Style(Green, Cover)
      && d'.surface[Recolor(RightTurn)] == Style(Green, Cover)
      && d'.surface[Recolor(HighBeam)] == Style(Blue, Cover)
      && d'.surface[LedBackground] == Style(Green, Cover)
      && (forall g: Image :: IsGauge(g) ==>
            d'.surface[Recolor(g)] == Style(d.surface[Recolor(g)].color, Transp))
      && d'.pending == d.pending + multiset{BulbCheck}
    ensures d.ignitionOn ==>
      && d'.surface[LedBackground] == Dark
      && (forall g: Image :: IsGauge(g) ==> d'.surface[Recolor(g)] == Dark)
      && (forall i: Image :: IsIndicator(i) ==> d'.surface[Recolor(i)] == d.surface[Recolor(i)])
      && d'.pending == d.pending
  {
    if !d.ignitionOn then
      IgnitionOnEffects(d.surface);
      Dash(true, ApplyAll(d.surface, IgnitionOnWrites()), d.pending + multiset{BulbCheck})
    else
      IgnitionOffEffects(d.surface);
      Dash(false, ApplyAll(d.surface, IgnitionOffWrites()), d.pending)
  }

  /**
   * The bulb-check timer `t` fires: the three indicators go back to black at
   * full cover and exactly that timer is deleted. The ignition flag, the LED
   * and the gauges are left alone.
   */
  function Fire(d: Dash, t: Timer): (d': Dash)
    requires t in d.pending
    ensures forall i: Image :: IsIndicator(i) ==> d'.surface[Recolor(i)] == Dark
    ensures d'.pending == d.pending - multiset{t}
    ensures |d'.pending| == |d.pending| - 1
    ensures d'.ignitionOn == d.ignitionOn
    ensures d'.surface[LedBackground] == d.surface[LedBackground]
    ensures forall g: Image :: IsGauge(g) ==> d'.surface[Recolor(g)] == d.surface[Recolor(g)]
  {
    BulbCheckEffects(d.surface);
    Dash(d.ignitionOn, ApplyAll(d.surface, BulbCheckWrites()), d.pending - multiset{t})
  }

  /** Repeating the ON to OFF writes leaves the surface as one pass left it. */
  lemma IgnitionOffIdempotent(s: Surface)
    ensures ApplyAll(ApplyAll(s, IgnitionOffWrites()), IgnitionOffWrites()) == ApplyAll(s, IgnitionOffWrites())
  {
    ApplyTwice(s, IgnitionOffWrites());
  }

  /** A write to an indicator's recolour opacity writes full cover. */
  predicate CoversIndicator(w: Write) {
    w.SetOpa? && w.slot.Recolor? && IsIndicator(w.slot.image) ==> w.opa == Cover
  }

  predicate AllCoverIndicators(ws: seq<Write>) {
    forall w :: w in ws ==> CoversIndicator(w)
  }

  lemma CoverConcat(a: seq<Write>, b: seq<Write>)
    requires AllCoverIndicators(a) && AllCoverIndicators(b)
    ensures AllCoverIndicators(a + b)
  {
  }

  /** Writes that cannot touch an indicator's opacity trivially keep it covered. */
  lemma CoverBySlots(ws: seq<Write>)
    requires OnField(ws, Tint) || OnLed(ws) || OnImages(ws, Gauges)
    ensures AllCoverIndicators(ws)
  {
  }

  lemma CoverOpaWrites(imgs: seq<Image>)
    ensures AllCoverIndicators(OpaWrites(imgs, Cover))
  {
    OpaWritesMembers(imgs, Cover);
  }

  lemma CoverStyleWrites(imgs: seq<Image>, st: Style)
    requires st.opa == Cover
    ensures AllCoverIndicators(StyleWrites(imgs, st))
  {
    StyleWritesMembers(imgs, st);
  }

  lemma CoverSteps(a: seq<Write>, b: seq<Write>, c: seq<Write>, d: seq<Write>, e: seq<Write>)
    requires AllCoverIndicators(a) && AllCoverIndicators(b) && AllCoverIndicators(c)
    requires AllCoverIndicators(d) && AllCoverIndicators(e)
    ensures AllCoverIndicators(a + b + c)
    ensures AllCoverIndicators(a + b + c + d + e)
  {
    CoverConcat(a, b);
    CoverConcat(a + b, c);
    CoverConcat(a + b + c, d);
    CoverConcat(a + b + c + d, e);
  }

  lemma InitCoversIndicators()
    ensures AllCoverIndicators(InitWrites())
  {
    CoverStyleWrites(GaugeOrder, Dark);
    CoverStyleWrites([HighBeam, LeftTurn, RightTurn], Dark);
    LedWritesFootprint(Dark);
    CoverBySlots(LedWrites(Dark));
    CoverSteps(StyleWrites(GaugeOrder, Dark), StyleWrites([HighBeam, LeftTurn, RightTurn], Dark),
      LedWrites(Dark), [], []);
  }

  lemma IgnitionOnCoversIndicators()
    ensures AllCoverIndicators(IgnitionOnWrites())
  {
    TintWritesFootprint([LeftTurn, RightTurn], Green, {LeftTurn, RightTurn});
    CoverBySlots(TintWrites([LeftTurn, RightTurn], Green));
    CoverOpaWrites([LeftTurn, RightTurn]);
    CoverStyleWrites([HighBeam], Style(Blue, Cover));
    LedWritesFootprint(Style(Green, Cover));
    CoverBySlots(LedWrites(Style(Green, Cover)));
    OpaWritesFootprint(GaugeFadeOrder, Transp, Gauges);
    CoverBySlots(OpaWrites(GaugeFadeOrder, Transp));
    CoverSteps(
      TintWrites([LeftTurn, RightTurn], Green), OpaWrites([LeftTurn, RightTurn], Cover),
      StyleWrites([HighBeam], Style(Blue, Cover)), LedWrites(Style(Green, Cover)),
      OpaWrites(GaugeFadeOrder, Transp));
  }

  lemma IgnitionOffCoversIndicators()
    ensures AllCoverIndicators(IgnitionOffWrites())
  {
    LedWritesFootprint(Dark);
    CoverBySlots(LedWrites(Dark));
    CoverStyleWrites(GaugeOrder, Dark);
    CoverConcat(LedWrites(Dark), StyleWrites(GaugeOrder, Dark));
  }

  lemma BulbCheckCoversIndicators()
    ensures AllCoverIndicators(BulbCheckWrites())
  {
    TintWritesFootprint(IndicatorOrder, Black, Indicators);
    CoverBySlots(TintWrites(IndicatorOrder, Black));
    CoverOpaWrites(IndicatorOrder);
    CoverConcat(TintWrites(IndicatorOrder, Black), OpaWrites(IndicatorOrder, Cover));
  }

  /**
   * An opacity write to anything but a gauge image writes full cover, so only a
   * gauge image can be made transparent.
   */
  predicate FadesGauge(w: Write) {
    w.SetOpa? && !(w.slot.Recolor? && IsGauge(w.slot.image)) ==> w.opa == Cover
  }

  predicate AllFadeGauges(ws: seq<Write>) {
    forall w :: w in ws ==> FadesGauge(w)
  }

  lemma FadeConcat(a: seq<Write>, b: seq<Write>)
    requires AllFadeGauges(a) && AllFadeGauges(b)
    ensures AllFadeGauges(a + b)
  {
  }

  /** Tint calls, and any calls on gauge images, make nothing but gauges transparent. */
  lemma FadeBySlots(ws: seq<Write>)
    requires OnField(ws, Tint) || OnImages(ws, Gauges)
    ensures AllFadeGauges(ws)
  {
    GroupSetsMatch();
  }

  lemma FadeOpaWrites(imgs: seq<Image>)
    ensures AllFadeGauges(OpaWrites(imgs, Cover))
  {
    OpaWritesMembers(imgs, Cover);
  }

  lemma FadeStyleWrites(imgs: seq<Image>, st: Style)
    requires st.opa == Cover
    ensures AllFadeGauges(StyleWrites(imgs, st))
  {
    StyleWritesMembers(imgs, st);
  }

  lemma FadeLedWrites(st: Style)
    requires st.opa == Cover
    ensures AllFadeGauges(LedWrites(st))
  {
  }

  lemma FadeSteps(a: seq<Write>, b: seq<Write>, c: seq<Write>, d: seq<Write>, e: seq<Write>)
    requires AllFadeGauges(a) && AllFadeGauges(b) && AllFadeGauges(c)
    requires AllFadeGauges(d) && AllFadeGauges(e)
    ensures AllFadeGauges(a + b + c + d + e)
  {
    FadeConcat(a, b);
    FadeConcat(a + b, c);
    FadeConcat(a + b + c, d);
    FadeConcat(a + b + c + d, e);
  }

  /**
   * The OFF to ON branch makes nothing transparent but gauge images: every
   * opacity it writes to the turn signals, the high beam or the LED is full cover.
   */
  lemma IgnitionOnFadesOnlyGauges()
    ensures AllFadeGauges(IgnitionOnWrites())
  {
    TintWritesFootprint([LeftTurn, RightTurn], Green, {LeftTurn, RightTurn});
    FadeBySlots(TintWrites([LeftTurn, RightTurn], Green));
    FadeOpaWrites([LeftTurn, RightTurn]);
    FadeStyleWrites([HighBeam], Style(Blue, Cover));
    FadeLedWrites(Style(Green, Cover));
    OpaWritesFootprint(GaugeFadeOrder, Transp, Gauges);
    FadeBySlots(OpaWrites(GaugeFadeOrder, Transp));
    FadeSteps(
      TintWrites([LeftTurn, RightTurn], Green), OpaWrites([LeftTurn, RightTurn], Cover),
      StyleWrites([HighBeam], Style(Blue, Cover)), LedWrites(Style(Green, Cover)),
      OpaWrites(GaugeFadeOrder, Transp));
  }

  /**
   * Every write the program ever makes to an indicator's recolour opacity,
   * at start-up, in either branch of the button callback and in the timer
   * callback, writes full cover.
   */
  lemma IndicatorOpacityAlwaysCover()
    ensures forall w :: w in InitWrites() + IgnitionOnWrites() + IgnitionOffWrites() + BulbCheckWrites() ==>
      (w.SetOpa? && w.slot.Recolor? && IsIndicator(w.slot.image) ==> w.opa == Cover)
  {
    InitCoversIndicators();
    IgnitionOnCoversIndicators();
    IgnitionOffCoversIndicators();
    BulbCheckCoversIndicators();
    CoverConcat(InitWrites(), IgnitionOnWrites());
    CoverConcat(InitWrites() + IgnitionOnWrites(), IgnitionOffWrites());
    CoverConcat(InitWrites() + IgnitionOnWrites() + IgnitionOffWrites(), BulbCheckWrites());
  }

  lemma BulbCheckConflictFreeSteps(t: seq<Write>, o: seq<Write>)
    requires ConflictFree(t) && OnField(t, Tint)
    requires ConflictFree(o) && OnField(o, Opacity)
    ensures ConflictFree(t + o)
  {
    DisjointFields(t, o, Tint, Opacity);
    ConflictFreeConcat(t, o);
  }

  lemma BulbCheckWritesConflictFree()
    ensures ConflictFree(BulbCheckWrites())
  {
    TintWritesFootprint(IndicatorOrder, Black, Indicators);
    OpaWritesFootprint(IndicatorOrder, Cover, Indicators);
    BulbCheckConflictFreeSteps(TintWrites(IndicatorOrder, Black), OpaWrites(IndicatorOrder, Cover));
  }

  lemma IgnitionOffConflictFreeSteps(l: seq<Write>, g: seq<Write>)
    requires ConflictFree(l) && OnLed(l)
    requires ConflictFree(g) && OnImages(g, Gauges)
    ensures ConflictFree(l + g)
  {
    DisjointLed(l, g, Gauges);
    ConflictFreeConcat(l, g);
  }

  lemma IgnitionOffWritesConflictFree()
    ensures ConflictFree(IgnitionOffWrites())
  {
    LedWritesFootprint(Dark);
    StyleWritesFootprint(GaugeOrder, Dark, Gauges);
    IgnitionOffConflictFreeSteps(LedWrites(Dark), StyleWrites(GaugeOrder, Dark));
  }

  lemma IgnitionOnConflictFreeSteps(t: seq<Write>, o: seq<Write>, h: seq<Write>, l: seq<Write>, g: seq<Write>)
    requires ConflictFree(t) && OnField(t, Tint) && OnImages(t, {LeftTurn, RightTurn})
    requires ConflictFree(o) && OnField(o, Opacity) && OnImages(o, {LeftTurn, RightTurn})
    requires ConflictFree(h) && OnImages(h, {HighBeam})
    requires ConflictFree(l) && OnLed(l)
    requires ConflictFree(g) && OnImages(g, Gauges)
    ensures ConflictFree(t + o + h + l + g)
  {
    DisjointFields(t, o, Tint, Opacity);
    ConflictFreeConcat(t, o);
    assert OnImages(t + o, {LeftTurn, RightTurn});
    DisjointImages(t + o, h, {LeftTurn, RightTurn}, {HighBeam});
    ConflictFreeConcat(t + o, h);
    assert OnImages(t + o + h, Indicators);
    DisjointLed(l, t + o + h, Indicators);
    ConflictFreeConcat(t + o + h, l);
    assert Disjoint(t + o + h + l, g);
    ConflictFreeConcat(t + o + h + l, g);
  }

  lemma IgnitionOnWritesConflictFree()
    ensures ConflictFree(IgnitionOnWrites())
  {
    TintWritesFootprint([LeftTurn, RightTurn], Green, {LeftTurn, RightTurn});
    OpaWritesFootprint([LeftTurn, RightTurn], Cover, {LeftTurn, RightTurn});
    StyleWritesFootprint([HighBeam], Style(Blue, Cover), {HighBeam});
    LedWritesFootprint(Style(Green, Cover));
    OpaWritesFootprint(GaugeFadeOrder, Transp, Gauges);
    IgnitionOnConflictFreeSteps(
      TintWrites([LeftTurn, RightTurn], Green), OpaWrites([LeftTurn, RightTurn], Cover),
      StyleWrites([HighBeam], Style(Blue, Cover)), LedWrites(Style(Green, Cover)),
      OpaWrites(GaugeFadeOrder, Transp));
  }

  /**
   * The order of the calls inside each callback does not matter: any
   * reordering of the same writes has the same effect.
   */
  lemma CallbackOrderIrrelevant(s: Surface, ws: seq<Write>, vs: seq<Write>)
    requires ws == IgnitionOnWrites() || ws == IgnitionOffWrites() || ws == BulbCheckWrites()
    requires multiset(vs) == multiset(ws)
    ensures ApplyAll(s, vs) == ApplyAll(s, ws)
  {
    if ws == IgnitionOnWrites() {
      IgnitionOnWritesConflictFree();
    } else if ws == IgnitionOffWrites() {
      IgnitionOffWritesConflictFree();
    } else {
      BulbCheckWritesConflictFree();
    }
    ReorderConflictFree(s, ws, vs);
  }

  /** Two dashboards that agree on the flag, the timers and every group of slots are equal. */
  lemma DashExt(a: Dash, b: Dash)
    requires a.ignitionOn == b.ignitionOn && a.pending == b.pending
    requires a.surface[LedBackground] == b.surface[LedBackground]
    requires forall i: Image :: IsIndicator(i) ==> a.surface[Recolor(i)] == b.surface[Recolor(i)]
    requires forall g: Image :: IsGauge(g) ==> a.surface[Recolor(g)] == b.surface[Recolor(g)]
    ensures a == b
  {
    forall x: Slot ensures a.surface[x] == b.surface[x] {
      SlotCases(x);
    }
    SurfaceExt(a.surface, b.surface);
  }

  /** Start-up forgets whatever styles LVGL gave the objects by default. */
  lemma InitIgnoresDefaults(a: Surface, b: Surface)
    ensures Init(a) == Init(b)
  {
    DashExt(Init(a), Init(b));
  }

  /**
   * Turning the ignition off does not cancel a pending bulb check: firing it
   * after the ON to OFF click has the same result as firing it before.
   */
  lemma StaleFireCommutes(d: Dash, t: Timer)
    requires d.ignitionOn && t in d.pending
    ensures t in Click(d).pending
    ensures Fire(Click(d), t) == Click(Fire(d, t))
  {
    DashExt(Fire(Click(d), t), Click(Fire(d, t)));
  }
}
