/** Colours, opacities and the (tint, opacity) pair every recoloured element carries. */
module Colors {

  /** One 8-bit colour channel. */
  type Byte = x: int | 0 <= x < 256

  /** An LVGL colour, treated as an opaque RGB byte triple (`lv_color_make(r, g, b)`). */
  datatype Color = Rgb(red: Byte, green: Byte, blue: Byte)

  /** The three named colours the state machine writes (main/main.c:27-30). */
  const Black: Color := Rgb(0x00, 0x00, 0x00)
  const Green: Color := Rgb(0x00, 0xFF, 0x00)
  const Blue: Color := Rgb(0x00, 0x00, 0xFF)

  /** An LVGL opacity (`lv_opa_t`, an unsigned byte). */
  type Opa = x: int | 0 <= x < 256

  /** `LV_OPA_TRANSP` and `LV_OPA_COVER`, the only two opacities the state machine writes. */
  const Transp: Opa := 0
  const Cover: Opa := 255

  /** The recolour tint of an element together with the strength it is applied with. */
  datatype Style = Style(color: Color, opa: Opa)

  /** The "dark" look: black at full cover, the off state of every element. */
  const Dark: Style := Style(Black, Cover)
}
