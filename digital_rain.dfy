/**
  The glyph of one digital-rain drop:
  `String.fromCharCode(33 + Math.floor(Math.random() * 93))`. The random draw
  is a parameter in `[0, 1)`.
 */
module DigitalRain {

  const FirstCode := 33     // '!'
  const GlyphCount := 93    // '!' through '}'

  /** `Math.floor(r * 93)` for a draw `r` in `[0, 1)`: the index of the
      subinterval of width `1/93` that holds `r`. */
  function GlyphIndex(r: real): (k: int)
    requires 0.0 <= r < 1.0
    ensures 0 <= k < GlyphCount
    ensures k as real <= r * GlyphCount as real < k as real + 1.0
  {
    (r * GlyphCount as real).Floor
  }

  /** The character code of the drop: always a printable, non-space ASCII code
      from `!` (33) to `}` (125); `~` (126) is never chosen. */
  function RainCharCode(r: real): (c: int)
    requires 0.0 <= r < 1.0
    ensures FirstCode <= c < FirstCode + GlyphCount
  {
    FirstCode + GlyphIndex(r)
  }

  /** The drop's one-character text. */
  function RainChar(r: real): (ch: char)
    requires 0.0 <= r < 1.0
    ensures '!' <= ch <= '}'
  {
    RainCharCode(r) as char
  }

  /** Every character from `!` to `}` is the glyph of some draw: the draw
      `(ch - 33) / 93` lands on it. */
  lemma EveryGlyphReachable(ch: char)
    requires '!' <= ch <= '}'
    ensures exists r :: 0.0 <= r < 1.0 && RainChar(r) == ch
  {
    var k := ch as int - FirstCode;
    var r := k as real / GlyphCount as real;
    assert r * GlyphCount as real == k as real;
    assert 0.0 <= r < 1.0;
    assert GlyphIndex(r) == k;
    assert RainChar(r) == ch;
  }
}
