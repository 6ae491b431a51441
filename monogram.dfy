/** The bitmap text object of src/gameobjects/MonogramText.js: a string drawn with a font
    holding twelve 5-bit rows per character, one unit square per set bit. The drawn
    picture is modelled as the set of unit squares filled; the Phaser graphics calls
    themselves are not modelled. */
module Monogram {

  const CharWidth := 5
  const CharHeight := 12
  const CharSpacing := 6

  /** A font row after JavaScript's conversion to a 32-bit integer for `&`. */
  type Row = bv32

  /** `fontData`: rows per character; row 0 is the bottom of the glyph. */
  type Font = map<char, seq<Row>>

  /** The unit square at column `x`, row `y` (y grows downwards). */
  datatype Pixel = Pixel(x: int, y: int)

  /** `data[char] || data['?'] || data[' '] || <twelve zeros>`: a missing glyph falls back
      to the question mark, then to the space, then to a blank glyph. */
  function Glyph(font: Font, c: char): (rows: seq<Row>)
    ensures c in font ==> rows == font[c]
    ensures c !in font && '?' in font ==> rows == font['?']
    ensures c !in font && '?' !in font && ' ' in font ==> rows == font[' ']
    ensures c !in font && '?' !in font && ' ' !in font ==> |rows| == 12 && forall r :: 0 <= r < 12 ==> rows[r] == 0
  {
    if c in font then font[c]
    else if '?' in font then font['?']
    else if ' ' in font then font[' ']
    else [0, 0, 0, 0, 0, 0, 0, 0, 0, 0, 0, 0]
  }

  /** `rows[row] || 0`: a missing row is blank. */
  function RowBits(rows: seq<Row>, r: int): Row {
    if 0 <= r < |rows| then rows[r] else 0
  }

  /** `bits & (1 << k)` is non-zero. */
  predicate BitSet(bits: Row, k: int)
    requires 0 <= k < CharWidth
  {
    bits & (1 << k) != 0
  }

  /** The squares the column loop fills in its first `col` rounds for one row: round
      `c` tests bit `4 - c` and fills column `x + 4 - c`, so a glyph is mirrored. */
  function RowUpTo(bits: Row, x: int, y: int, col: nat): set<Pixel>
    requires col <= CharWidth
  {
    if col == 0 then {}
    else RowUpTo(bits, x, y, col - 1) + (if BitSet(bits, 4 - (col - 1)) then {Pixel(x + 4 - (col - 1), y)} else {})
  }

  /** The squares filled for the first `row` rows of a glyph placed at column `x`; font
      row `r` is drawn at height `11 - r`. */
  function GlyphUpTo(rows: seq<Row>, x: int, row: nat): set<Pixel>
    requires row <= CharHeight
  {
    if row == 0 then {}
    else GlyphUpTo(rows, x, row - 1) + RowUpTo(RowBits(rows, row - 1), x, 11 - (row - 1), CharWidth)
  }

  /** The squares filled for the first `n` characters of `text`, character `i` placed at
      column `6 * i`. */
  function TextUpTo(text: string, font: Font, n: nat): set<Pixel>
    requires n <= |text|
  {
    if n == 0 then {}
    else TextUpTo(text, font, n - 1) + GlyphUpTo(Glyph(font, text[n - 1]), CharSpacing * (n - 1), CharHeight)
  }

  /** The picture `redraw` leaves for `text`. */
  function TextPixels(text: string, font: Font): set<Pixel> {
    TextUpTo(text, font, |text|)
  }

  /** Whether the square `p` belongs to the picture of `text`: it lies under some
      character, in one of its five columns and twelve rows, over a set bit. */
  predicate Lit(text: string, font: Font, p: Pixel) {
    && 0 <= p.x < CharSpacing * |text| && p.x % CharSpacing < CharWidth
    && 0 <= p.y < CharHeight
    && BitSet(RowBits(Glyph(font, text[p.x / CharSpacing]), 11 - p.y), p.x % CharSpacing)
  }

  lemma {:induction false} RowUpToMembers(bits: Row, x: int, y: int, col: nat, p: Pixel)
    requires col <= CharWidth
    ensures p in RowUpTo(bits, x, y, col) <==>
      p.y == y && x + 5 - col <= p.x <= x + 4 && BitSet(bits, p.x - x)
    decreases col
  {
    if col > 0 {
      RowUpToMembers(bits, x, y, col - 1, p);
      var k := 4 - (col - 1);
      if p == Pixel(x + k, y) {
        assert p.x - x == k;
      } else {
        assert p.y != y || p.x != x + 5 - col;
      }
    }
  }

  lemma {:induction false} GlyphUpToMembers(rows: seq<Row>, x: int, row: nat, p: Pixel)
    requires row <= CharHeight
    ensures p in GlyphUpTo(rows, x, row) <==>
      x <= p.x <= x + 4 && 12 - row <= p.y <= 11 && BitSet(RowBits(rows, 11 - p.y), p.x - x)
    decreases row
  {
    if row > 0 {
      GlyphUpToMembers(rows, x, row - 1, p);
      RowUpToMembers(RowBits(rows, row - 1), x, 11 - (row - 1), CharWidth, p);
    }
  }

  lemma {:induction false} TextUpToMembers(text: string, font: Font, n: nat, p: Pixel)
    requires n <= |text|
    ensures p in TextUpTo(text, font, n) <==> n <= |text| && Lit(text[..n], font, p)
    decreases n
  {
    if n > 0 {
      TextUpToMembers(text, font, n - 1, p);
      var x := CharSpacing * (n - 1);
      GlyphUpToMembers(Glyph(font, text[n - 1]), x, CharHeight, p);
      if x <= p.x < x + CharSpacing {
        assert p.x / CharSpacing == n - 1 && p.x % CharSpacing == p.x - x;
      }
      if 0 <= p.x < CharSpacing * n {
        assert text[..n][p.x / CharSpacing] == text[p.x / CharSpacing];
      }
      if 0 <= p.x < CharSpacing * (n - 1) {
        assert text[..n - 1][p.x / CharSpacing] == text[p.x / CharSpacing];
      }
    }
  }

  /** A square is drawn exactly when it lies over a set bit of its character's glyph. */
  lemma PixelsExactly(text: string, font: Font, p: Pixel)
    ensures p in TextPixels(text, font) <==> Lit(text, font, p)
  {
    TextUpToMembers(text, font, |text|, p);
    assert text[..|text|] == text;
  }

  /** Every drawn square lies inside the `width` by `height` box, clear of the last
      column (the spacing between characters). */
  lemma PixelsInsideBox(text: string, font: Font)
    ensures forall p :: p in TextPixels(text, font) ==>
      0 <= p.x < CharSpacing * |text| - 1 && 0 <= p.y < CharHeight
  {
    forall p | p in TextPixels(text, font)
      ensures 0 <= p.x < CharSpacing * |text| - 1 && 0 <= p.y < CharHeight
    {
      PixelsExactly(text, font, p);
    }
  }

  /** The empty text draws nothing. */
  lemma EmptyTextBlank(font: Font)
    ensures TextPixels("", font) == {}
  {
  }

  /** With a question-mark glyph, a character outside the font draws as `'?'`. */
  lemma UnknownCharDrawsQuestionMark(text: string, font: Font, i: nat)
    requires i < |text| && text[i] !in font && '?' in font
    ensures TextPixels(text[i := '?'], font) == TextPixels(text, font)
  {
    var t := text[i := '?'];
    forall p
      ensures p in TextPixels(t, font) <==> p in TextPixels(text, font)
    {
      PixelsExactly(t, font, p);
      PixelsExactly(text, font, p);
      if 0 <= p.x < CharSpacing * |text| {
        assert Glyph(font, t[p.x / CharSpacing]) == Glyph(font, text[p.x / CharSpacing]);
      }
    }
  }

  /** A font without a glyph for any character of the text, nor `'?'` nor `' '`, draws
      nothing. */
  lemma NoGlyphsBlank(text: string, font: Font)
    requires '?' !in font && ' ' !in font
    requires forall i :: 0 <= i < |text| ==> text[i] !in font
    ensures TextPixels(text, font) == {}
  {
    forall p
      ensures p !in TextPixels(text, font)
    {
      PixelsExactly(text, font, p);
      if 0 <= p.x < CharSpacing * |text| {
        assert RowBits(Glyph(font, text[p.x / CharSpacing]), 11 - p.y) == 0;
      }
    }
  }

  /** The font with every row cut to its low five bits. */
  function LowBits(font: Font): Font {
    map c | c in font :: seq(|font[c]|, i requires 0 <= i < |font[c]| => font[c][i] & 0x1F)
  }

  /** The glyph rows of the cut font are the cut glyph rows. */
  lemma LowBitsRow(font: Font, c: char, r: int)
    ensures RowBits(Glyph(LowBits(font), c), r) == RowBits(Glyph(font, c), r) & 0x1F
  {
    var g, g' := Glyph(font, c), Glyph(LowBits(font), c);
    assert LowBits(font).Keys == font.Keys;
    assert |g'| == |g| && forall i :: 0 <= i < |g| ==> g'[i] == g[i] & 0x1F;
  }

  lemma LowBitTest(b: Row, k: int)
    requires 0 <= k < CharWidth
    ensures BitSet(b & 0x1F, k) <==> BitSet(b, k)
  {
    assert (b & 0x1F) & (1 << k) == b & (1 << k);
  }

  /** Bits above bit 4 are never drawn: cutting every row to its low five bits leaves the
      picture unchanged. */
  lemma HighBitsNeverDrawn(text: string, font: Font)
    ensures TextPixels(text, LowBits(font)) == TextPixels(text, font)
  {
    forall p
      ensures p in TextPixels(text, LowBits(font)) <==> p in TextPixels(text, font)
    {
      PixelsExactly(text, LowBits(font), p);
      PixelsExactly(text, font, p);
      if 0 <= p.x < CharSpacing * |text| && p.x % CharSpacing < CharWidth {
        var c, k := text[p.x / CharSpacing], p.x % CharSpacing;
        LowBitsRow(font, c, 11 - p.y);
        LowBitTest(RowBits(Glyph(font, c), 11 - p.y), k);
      }
    }
  }

  /** `MonogramText`: the text shown, its colour, the font and the picture drawn;
      `drawnColor` is the colour of the last redraw. */
  class MonogramText {
    var text: string
    var color: int
    const font: Font
    var pixels: set<Pixel>
    var drawnColor: int

    /** The picture shows the current text in the current colour. */
    ghost predicate Valid() reads this {
      pixels == TextPixels(text, font) && drawnColor == color
    }

    /** `new MonogramText(scene, x, y, text, fontData, color)`: starts empty, then shows
        `text` when it is not empty. */
    constructor (text: string, font: Font, color: int)
      ensures this.text == text && this.font == font && this.color == color
      ensures Valid()
    {
      this.text := "";
      this.font := font;
      this.color := color;
      pixels := {};
      drawnColor := color;
      new;
      if text != "" {
        SetText(text);
      }
    }

    /** `setText(text)`: nothing changes when the text is the same; otherwise the text is
        replaced and redrawn. */
    method SetText(t: string)
      requires Valid()
      modifies this`text, this`pixels, this`drawnColor
      ensures Valid()
      ensures text == t
      ensures old(text) == t ==> pixels == old(pixels)
    {
      if text == t {
        return;
      }
      text := t;
      Redraw();
    }

    /** `setColor(color)`: nothing changes when the colour is the same; otherwise the
        colour is replaced and the text redrawn in it. */
    method SetColor(c: int)
      requires Valid()
      modifies this`color, this`pixels, this`drawnColor
      ensures Valid()
      ensures color == c && pixels == old(pixels)
    {
      if color == c {
        return;
      }
      color := c;
      Redraw();
    }

    /** `redraw()`: clears the picture and, for each character, row and column, fills
        the square of every set bit. */
    method Redraw()
      modifies this`pixels, this`drawnColor
      ensures pixels == TextPixels(text, font) && drawnColor == color
    {
      pixels := {};
      drawnColor := color;
      if text == "" {
        return;
      }
      var x := 0;
      for i := 0 to |text|
        invariant x == CharSpacing * i
        invariant pixels == TextUpTo(text, font, i) && drawnColor == color
      {
        DrawGlyph(Glyph(font, text[i]), x);
        x := x + CharSpacing;
      }
    }

    /** The row loop of `redraw` for one character placed at column `x`. */
    method DrawGlyph(rows: seq<Row>, x: int)
      modifies this`pixels
      ensures pixels == old(pixels) + GlyphUpTo(rows, x, CharHeight)
    {
      for row := 0 to CharHeight
        invariant pixels == old(pixels) + GlyphUpTo(rows, x, row)
      {
        DrawRow(RowBits(rows, row), x, 11 - row);
      }
    }

    /** The column loop of `redraw` for one font row drawn at height `drawY`. */
    method DrawRow(bits: Row, x: int, drawY: int)
      modifies this`pixels
      ensures pixels == old(pixels) + RowUpTo(bits, x, drawY, CharWidth)
    {
      for col := 0 to CharWidth
        invariant pixels == old(pixels) + RowUpTo(bits, x, drawY, col)
      {
        assert RowUpTo(bits, x, drawY, col + 1) == RowUpTo(bits, x, drawY, col) +
          (if BitSet(bits, 4 - col) then {Pixel(x + 4 - col, drawY)} else {});
        if BitSet(bits, 4 - col) {
          pixels := pixels + {Pixel(x + (4 - col), drawY)};
        }
      }
    }

    /** The `width` getter: six columns per character. */
    function Width(): (w: int)
      reads this
      ensures w >= 0 && (text != "" <==> w > 0)
      ensures forall p :: p in TextPixels(text, font) ==> 0 <= p.x < w
    {
      PixelsInsideBox(text, font);
      |text| * CharSpacing
    }

    /** The `height` getter: the glyph height, whatever the text. */
    function Height(): (h: int)
      reads this
      ensures forall p :: p in TextPixels(text, font) ==> 0 <= p.y < h
    {
      PixelsInsideBox(text, font);
      CharHeight
    }
  }
}
