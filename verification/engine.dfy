/**
 * The colour application engine: a transition of the dashboard is a list of
 * style writes, each one the effect of a single `lv_obj_set_style_*` call, and
 * the surface after the list is the surface before it with every write applied
 * in order.
 */
module Engine {
  import opened Colors
  import opened Registry

  /**
   * One style write. `SetColor(Recolor(i), c)` is `lv_obj_set_style_image_recolor`
   * on image `i` and `SetOpa(Recolor(i), o)` is `lv_obj_set_style_image_recolor_opa`;
   * on `LedBackground` they are `lv_obj_set_style_bg_color` and
   * `lv_obj_set_style_bg_opa` on the button LED.
   */
  datatype Write = SetColor(slot: Slot, color: Color) | SetOpa(slot: Slot, opa: Opa)

  /** The two halves of a style a write can change. */
  datatype Field = Tint | Opacity

  function FieldOf(w: Write): Field {
    if w.SetColor? then Tint else Opacity
  }

  /** `w` writes field `f` of slot `x`. */
  predicate Writes(w: Write, x: Slot, f: Field) {
    w.slot == x && FieldOf(w) == f
  }

  /** Style `st` holds the value that write `w` puts in its field. */
  predicate Shows(st: Style, w: Write) {
    match w
    case SetColor(_, c) => st.color == c
    case SetOpa(_, o) => st.opa == o
  }

  /** Styles `a` and `b` agree on field `f`. */
  predicate Agree(a: Style, b: Style, f: Field) {
    match f
    case Tint => a.color == b.color
    case Opacity => a.opa == b.opa
  }

  /** No write of `ws` touches field `f` of slot `x`. */
  predicate Untouched(ws: seq<Write>, x: Slot, f: Field) {
    forall k :: 0 <= k < |ws| ==> !Writes(ws[k], x, f)
  }

  /** `ws[k]` is the last write of `ws` to field `f` of slot `x`. */
  predicate LastWriteAt(ws: seq<Write>, x: Slot, f: Field, k: int) {
    && 0 <= k < |ws|
    && Writes(ws[k], x, f)
    && forall j :: k < j < |ws| ==> !Writes(ws[j], x, f)
  }

  /** Performs one write on the surface. */
  function Apply(s: Surface, w: Write): Surface {
    match w
    case SetColor(x, c) => s[x := Style(c, s[x].opa)]
    case SetOpa(x, o) => s[x := Style(s[x].color, o)]
  }

  /** Performs the writes of `ws` in order, first to last. */
  function ApplyAll(s: Surface, ws: seq<Write>): Surface
    decreases |ws|
  {
    if ws == [] then s else Apply(ApplyAll(s, ws[..|ws| - 1]), ws[|ws| - 1])
  }

  /**
   * After `ws`, every field holds the value of the last write to it, and a
   * field no write touches keeps its value.
   */
  lemma {:induction false} ApplyAllLastWrite(s: Surface, ws: seq<Write>)
    ensures forall x: Slot, f: Field :: Untouched(ws, x, f) ==> Agree(ApplyAll(s, ws)[x], s[x], f)
    ensures forall x: Slot, f: Field, k :: LastWriteAt(ws, x, f, k) ==> Shows(ApplyAll(s, ws)[x], ws[k])
    decreases |ws|
  {
    if ws != [] {
      var init := ws[..|ws| - 1];
      ApplyAllLastWrite(s, init);
      assert forall x: Slot, f: Field :: Untouched(ws, x, f) ==> Untouched(init, x, f);
      assert forall x: Slot, f: Field, k :: LastWriteAt(ws, x, f, k) && k < |ws| - 1 ==> LastWriteAt(init, x, f, k);
    }
  }

  /** A field that some write touches has a last write. */
  lemma {:induction false} LastWriteExists(ws: seq<Write>, x: Slot, f: Field)
    requires !Untouched(ws, x, f)
    ensures exists k :: LastWriteAt(ws, x, f, k)
    decreases |ws|
  {
    var n := |ws| - 1;
    if Writes(ws[n], x, f) {
      assert LastWriteAt(ws, x, f, n);
    } else {
      var init := ws[..n];
      assert !Untouched(init, x, f) by {
        var k :| 0 <= k < |ws| && Writes(ws[k], x, f);
        assert init[k] == ws[k];
      }
      LastWriteExists(init, x, f);
      var k :| LastWriteAt(init, x, f, k);
      assert LastWriteAt(ws, x, f, k);
    }
  }

  /** Performing a list of writes a second time changes nothing. */
  lemma ApplyTwice(s: Surface, ws: seq<Write>)
    ensures ApplyAll(ApplyAll(s, ws), ws) == ApplyAll(s, ws)
  {
    var r1 := ApplyAll(s, ws);
    var r2 := ApplyAll(r1, ws);
    ApplyAllLastWrite(s, ws);
    ApplyAllLastWrite(r1, ws);
    forall x: Slot ensures r2[x] == r1[x] {
      forall f: Field ensures Agree(r2[x], r1[x], f) {
        if !Untouched(ws, x, f) {
          LastWriteExists(ws, x, f);
          var k :| LastWriteAt(ws, x, f, k);
          assert Shows(r1[x], ws[k]) && Shows(r2[x], ws[k]);
        }
      }
      assert Agree(r2[x], r1[x], Tint) && Agree(r2[x], r1[x], Opacity);
    }
    SurfaceExt(r2, r1);
  }

  /** No two writes of `ws` put different values into the same field. */
  predicate ConflictFree(ws: seq<Write>) {
    forall v, w :: v in ws && w in ws && v.slot == w.slot && FieldOf(v) == FieldOf(w) ==> v == w
  }

  /**
   * When a list of writes has no conflicts, the order of its writes does not
   * matter: every field holds the value of whichever write touches it, and
   * every other field is kept.
   */
  lemma ApplyConflictFree(s: Surface, ws: seq<Write>)
    requires ConflictFree(ws)
    ensures forall w :: w in ws ==> Shows(ApplyAll(s, ws)[w.slot], w)
    ensures forall x: Slot, f: Field :: (forall w :: w in ws ==> !Writes(w, x, f)) ==>
              Agree(ApplyAll(s, ws)[x], s[x], f)
  {
    var r := ApplyAll(s, ws);
    ApplyAllLastWrite(s, ws);
    forall w | w in ws ensures Shows(r[w.slot], w) {
      var i :| 0 <= i < |ws| && ws[i] == w;
      LastWriteExists(ws, w.slot, FieldOf(w));
      var k :| LastWriteAt(ws, w.slot, FieldOf(w), k);
      assert ws[k] == w;
    }
    forall x: Slot, f: Field | forall w :: w in ws ==> !Writes(w, x, f)
      ensures Agree(r[x], s[x], f)
    {
      assert Untouched(ws, x, f);
    }
  }

  /** Two conflict-free lists holding the same writes have the same effect. */
  lemma ReorderConflictFree(s: Surface, ws: seq<Write>, vs: seq<Write>)
    requires ConflictFree(ws)
    requires multiset(ws) == multiset(vs)
    ensures ApplyAll(s, ws) == ApplyAll(s, vs)
  {
    assert forall w :: w in ws <==> w in vs by {
      forall w ensures w in ws <==> w in vs {
        assert w in ws <==> w in multiset(ws);
        assert w in vs <==> w in multiset(vs);
      }
    }
    ApplyConflictFree(s, ws);
    ApplyConflictFree(s, vs);
    var a := ApplyAll(s, ws);
    var b := ApplyAll(s, vs);
    forall x: Slot ensures a[x] == b[x] {
      forall f: Field ensures Agree(a[x], b[x], f) {
        if w :| w in ws && Writes(w, x, f) {
          assert Shows(a[x], w) && Shows(b[x], w);
        } else {
          assert forall w :: w in vs ==> !Writes(w, x, f);
          assert Agree(a[x], s[x], f) && Agree(b[x], s[x], f);
        }
      }
      assert Agree(a[x], b[x], Tint) && Agree(a[x], b[x], Opacity);
    }
    SurfaceExt(a, b);
  }

  lemma ApplyOne(s: Surface, w: Write)
    ensures ApplyAll(s, [w]) == Apply(s, w)
  {
    assert [w][..0] == [];
  }

  lemma ApplyTwo(s: Surface, v: Write, w: Write)
    ensures ApplyAll(s, [v, w]) == Apply(Apply(s, v), w)
  {
    assert [v, w][..1] == [v];
    ApplyOne(s, v);
  }

  /** Performing `a + b` is performing `a`, then `b`. */
  lemma {:induction false} ApplyConcat(s: Surface, a: seq<Write>, b: seq<Write>)
    ensures ApplyAll(s, a + b) == ApplyAll(ApplyAll(s, a), b)
    decreases |b|
  {
    if b == [] {
      assert a + b == a;
    } else {
      var n := |b| - 1;
      assert (a + b)[..|a + b| - 1] == a + b[..n];
      assert (a + b)[|a + b| - 1] == b[n];
      ApplyConcat(s, a, b[..n]);
    }
  }

  // Group recolours. The source recolours a fixed group of images with one
  // call per image; the functions below build those call sequences and the
  // predicates state what a group recolour means for the surface.

  /** `r` is `s` with the tint of every image of `imgs` set to `c`. */
  ghost predicate TintsGroup(s: Surface, r: Surface, imgs: seq<Image>, c: Color) {
    forall x: Slot {:trigger r[x]} :: r[x] == (if x.Recolor? && x.image in imgs then Style(c, s[x].opa) else s[x])
  }

  /** `r` is `s` with the recolour opacity of every image of `imgs` set to `o`. */
  ghost predicate FadesGroup(s: Surface, r: Surface, imgs: seq<Image>, o: Opa) {
    forall x: Slot {:trigger r[x]} :: r[x] == (if x.Recolor? && x.image in imgs then Style(s[x].color, o) else s[x])
  }

  /** `r` is `s` with every image of `imgs` given the style `st`. */
  ghost predicate StylesGroup(s: Surface, r: Surface, imgs: seq<Image>, st: Style) {
    forall x: Slot {:trigger r[x]} :: r[x] == (if x.Recolor? && x.image in imgs then st else s[x])
  }

  /** `r` is `s` with the LED background given the style `st`. */
  ghost predicate StylesLed(s: Surface, r: Surface, st: Style) {
    forall x: Slot {:trigger r[x]} :: r[x] == (if x == LedBackground then st else s[x])
  }

  /** One `lv_obj_set_style_image_recolor` call per image of `imgs`, in order. */
  function TintWrites(imgs: seq<Image>, c: Color): seq<Write> {
    if imgs == [] then [] else [SetColor(Recolor(imgs[0]), c)] + TintWrites(imgs[1..], c)
  }

  /** One `lv_obj_set_style_image_recolor_opa` call per image of `imgs`, in order. */
  function OpaWrites(imgs: seq<Image>, o: Opa): seq<Write> {
    if imgs == [] then [] else [SetOpa(Recolor(imgs[0]), o)] + OpaWrites(imgs[1..], o)
  }

  /** For each image of `imgs` in turn, its tint and then its opacity. */
  function StyleWrites(imgs: seq<Image>, st: Style): seq<Write> {
    if imgs == [] then []
    else [SetColor(Recolor(imgs[0]), st.color), SetOpa(Recolor(imgs[0]), st.opa)] + StyleWrites(imgs[1..], st)
  }

  /** The LED background colour, then its opacity. */
  function LedWrites(st: Style): seq<Write> {
    [SetColor(LedBackground, st.color), SetOpa(LedBackground, st.opa)]
  }

  /** The tint calls tint exactly the group. */
  lemma {:induction false} ApplyTintWrites(s: Surface, imgs: seq<Image>, c: Color)
    ensures TintsGroup(s, ApplyAll(s, TintWrites(imgs, c)), imgs, c)
    decreases |imgs|
  {
    if imgs != [] {
      var w := SetColor(Recolor(imgs[0]), c);
      ApplyConcat(s, [w], TintWrites(imgs[1..], c));
      ApplyOne(s, w);
      ApplyTintWrites(Apply(s, w), imgs[1..], c);
      assert forall i :: i in imgs <==> i == imgs[0] || i in imgs[1..];
    }
  }

  /** The opacity calls set the opacity of exactly the group. */
  lemma {:induction false} ApplyOpaWrites(s: Surface, imgs: seq<Image>, o: Opa)
    ensures FadesGroup(s, ApplyAll(s, OpaWrites(imgs, o)), imgs, o)
    decreases |imgs|
  {
    if imgs != [] {
      var w := SetOpa(Recolor(imgs[0]), o);
      ApplyConcat(s, [w], OpaWrites(imgs[1..], o));
      ApplyOne(s, w);
      ApplyOpaWrites(Apply(s, w), imgs[1..], o);
      assert forall i :: i in imgs <==> i == imgs[0] || i in imgs[1..];
    }
  }

  /** The tint-and-opacity calls style exactly the group. */
  lemma {:induction false} ApplyStyleWrites(s: Surface, imgs: seq<Image>, st: Style)
    ensures StylesGroup(s, ApplyAll(s, StyleWrites(imgs, st)), imgs, st)
    decreases |imgs|
  {
    if imgs != [] {
      var x0 := Recolor(imgs[0]);
      var pair := [SetColor(x0, st.color), SetOpa(x0, st.opa)];
      ApplyConcat(s, pair, StyleWrites(imgs[1..], st));
      ApplyTwo(s, pair[0], pair[1]);
      ApplyStyleWrites(Apply(Apply(s, pair[0]), pair[1]), imgs[1..], st);
      assert forall i :: i in imgs <==> i == imgs[0] || i in imgs[1..];
    }
  }

  /** The LED calls style the LED background and nothing else. */
  lemma ApplyLedWrites(s: Surface, st: Style)
    ensures StylesLed(s, ApplyAll(s, LedWrites(st)), st)
  {
    ApplyTwo(s, SetColor(LedBackground, st.color), SetOpa(LedBackground, st.opa));
  }

  /** The tint calls only tint images of the group, with `c`. */
  lemma {:induction false} TintWritesMembers(imgs: seq<Image>, c: Color)
    ensures forall w :: w in TintWrites(imgs, c) ==>
      w.SetColor? && w.color == c && w.slot.Recolor? && w.slot.image in imgs
    decreases |imgs|
  {
    if imgs != [] {
      TintWritesMembers(imgs[1..], c);
    }
  }

  /** The opacity calls only set the opacity of images of the group, to `o`. */
  lemma {:induction false} OpaWritesMembers(imgs: seq<Image>, o: Opa)
    ensures forall w :: w in OpaWrites(imgs, o) ==>
      w.SetOpa? && w.opa == o && w.slot.Recolor? && w.slot.image in imgs
    decreases |imgs|
  {
    if imgs != [] {
      OpaWritesMembers(imgs[1..], o);
    }
  }

  /** The tint-and-opacity calls only write images of the group, with the halves of `st`. */
  lemma {:induction false} StyleWritesMembers(imgs: seq<Image>, st: Style)
    ensures forall w :: w in StyleWrites(imgs, st) ==>
      && w.slot.Recolor? && w.slot.image in imgs
      && (w.SetColor? ==> w.color == st.color)
      && (w.SetOpa? ==> w.opa == st.opa)
    decreases |imgs|
  {
    if imgs != [] {
      StyleWritesMembers(imgs[1..], st);
    }
  }

  /** No write of `a` and no write of `b` target the same field of the same slot. */
  predicate Disjoint(a: seq<Write>, b: seq<Write>) {
    forall v, w :: v in a && w in b ==> !(v.slot == w.slot && FieldOf(v) == FieldOf(w))
  }

  lemma ConflictFreeConcat(a: seq<Write>, b: seq<Write>)
    requires ConflictFree(a) && ConflictFree(b) && Disjoint(a, b)
    ensures ConflictFree(a + b)
  {
  }

  /** Every write of `ws` targets a recolour of an image in `imgs`. */
  predicate OnImages(ws: seq<Write>, imgs: set<Image>) {
    forall w :: w in ws ==> w.slot.Recolor? && w.slot.image in imgs
  }

  /** Every write of `ws` targets field `f`. */
  predicate OnField(ws: seq<Write>, f: Field) {
    forall w :: w in ws ==> FieldOf(w) == f
  }

  /** Every write of `ws` targets the LED background. */
  predicate OnLed(ws: seq<Write>) {
    forall w :: w in ws ==> w.slot == LedBackground
  }

  lemma DisjointImages(a: seq<Write>, b: seq<Write>, ia: set<Image>, ib: set<Image>)
    requires OnImages(a, ia) && OnImages(b, ib) && ia !! ib
    ensures Disjoint(a, b)
  {
  }

  lemma DisjointFields(a: seq<Write>, b: seq<Write>, f: Field, g: Field)
    requires OnField(a, f) && OnField(b, g) && f != g
    ensures Disjoint(a, b)
  {
  }

  lemma DisjointLed(a: seq<Write>, b: seq<Write>, ib: set<Image>)
    requires OnLed(a) && OnImages(b, ib)
    ensures Disjoint(a, b) && Disjoint(b, a)
  {
  }

  lemma TintWritesFootprint(imgs: seq<Image>, c: Color, ims: set<Image>)
    requires forall i :: i in imgs ==> i in ims
    ensures OnImages(TintWrites(imgs, c), ims) && OnField(TintWrites(imgs, c), Tint)
    ensures ConflictFree(TintWrites(imgs, c))
  {
    TintWritesMembers(imgs, c);
  }

  lemma OpaWritesFootprint(imgs: seq<Image>, o: Opa, ims: set<Image>)
    requires forall i :: i in imgs ==> i in ims
    ensures OnImages(OpaWrites(imgs, o), ims) && OnField(OpaWrites(imgs, o), Opacity)
    ensures ConflictFree(OpaWrites(imgs, o))
  {
    OpaWritesMembers(imgs, o);
  }

  lemma StyleWritesFootprint(imgs: seq<Image>, st: Style, ims: set<Image>)
    requires forall i :: i in imgs ==> i in ims
    ensures OnImages(StyleWrites(imgs, st), ims)
    ensures ConflictFree(StyleWrites(imgs, st))
  {
    StyleWritesMembers(imgs, st);
  }

  lemma LedWritesFootprint(st: Style)
    ensures OnLed(LedWrites(st)) && ConflictFree(LedWrites(st))
  {
  }
}
