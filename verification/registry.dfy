/** The fixed set of visual elements the ignition logic recolours, and their styles. */
module Registry {
  import opened Colors

  /** The eleven image objects whose image-recolour style the core writes. */
  datatype Image =
    | LeftTurn | RightTurn | HighBeam
    | TachScale | TachHub | TachHubGlow | TachNeedle
    | SpeedoScale | SpeedoHub | SpeedoHubGlow | SpeedoNeedle

  /** The three indicator lamps flashed by the bulb check. */
  predicate IsIndicator(i: Image) {
    i.LeftTurn? || i.RightTurn? || i.HighBeam?
  }

  /** The eight gauge images dimmed and re-tinted with the ignition. */
  predicate IsGauge(i: Image) {
    || i.TachScale? || i.TachHub? || i.TachHubGlow? || i.TachNeedle?
    || i.SpeedoScale? || i.SpeedoHub? || i.SpeedoHubGlow? || i.SpeedoNeedle?
  }

  /**
   * A style property the core can write: the image-recolour style of one image,
   * or the background style of the ignition button's LED (which is not an image
   * recolour but a separate pair of background fields).
   */
  datatype Slot = Recolor(image: Image) | LedBackground

  /** Every slot has a style: the registry is fully populated. */
  ghost predicate Complete(m: map<Slot, Style>) {
    forall x: Slot :: x in m
  }

  /** The styles of all slots, as the rendering surface holds them. */
  type Surface = m: map<Slot, Style> | Complete(m) witness Filled(Dark)

  /** A surface whose every slot holds the given style. */
  function Filled(st: Style): (m: map<Slot, Style>)
    ensures Complete(m)
    ensures forall x: Slot :: m[x] == st
  {
    var m := map[
      Recolor(LeftTurn) := st, Recolor(RightTurn) := st, Recolor(HighBeam) := st,
      Recolor(TachScale) := st, Recolor(TachHub) := st,
      Recolor(TachHubGlow) := st, Recolor(TachNeedle) := st,
      Recolor(SpeedoScale) := st, Recolor(SpeedoHub) := st,
      Recolor(SpeedoHubGlow) := st, Recolor(SpeedoNeedle) := st,
      LedBackground := st];
    assert forall x: Slot :: x in m by {
      forall x: Slot ensures x in m {
        SlotCases(x);
      }
    }
    m
  }

  /** Every slot is one of the twelve the registry lists. */
  lemma SlotCases(x: Slot)
    ensures x == LedBackground || IsIndicator(x.image) || IsGauge(x.image)
  {
  }

  /** Two surfaces are equal as soon as they agree on every slot. */
  lemma SurfaceExt(a: Surface, b: Surface)
    requires forall x: Slot :: a[x] == b[x]
    ensures a == b
  {
    assert a.Keys == b.Keys;
  }
}
