/**
 * Style: a fluent builder of inline CSS declarations, kept in a property map that it updates
 * in place and hands out live. Pixel sizes are Java `int`s written in decimal.
 */
module Styles {
  import opened Wrappers
  import opened VirtualDom
  import opened PropertyMaps

  newtype int32 = x: int | -0x8000_0000 <= x < 0x8000_0000

  predicate IsDigit(c: char)
  {
    '0' as int <= c as int <= '9' as int
  }

  function Digit(d: nat): (c: char)
    requires d < 10
    ensures IsDigit(c) && c as int - '0' as int == d
  {
    ('0' as int + d) as char
  }

  /** Decimal digits of `n`, without leading zeros. */
  function NatToString(n: nat): (s: string)
    ensures |s| >= 1 && forall i :: 0 <= i < |s| ==> IsDigit(s[i])
    ensures s[0] == '0' ==> n == 0
  {
    if n < 10 then [Digit(n)] else NatToString(n / 10) + [Digit(n % 10)]
  }

  /** `Integer.toString`: a minus sign for negative numbers, then the digits. */
  function IntToString(n: int): string
  {
    if n < 0 then "-" + NatToString(-n) else NatToString(n)
  }

  function DigitsValue(s: string): nat
    requires forall i :: 0 <= i < |s| ==> IsDigit(s[i])
  {
    if s == [] then 0
    else
      assert IsDigit(s[|s| - 1]);
      DigitsValue(s[..|s| - 1]) * 10 + (s[|s| - 1] as int - '0' as int)
  }

  predicate AllDigits(s: string)
  {
    s != [] && forall i :: 0 <= i < |s| ==> IsDigit(s[i])
  }

  /** The inverse of `IntToString`: an optional minus sign and at least one digit. */
  function ParseInt(s: string): Option<int>
  {
    if |s| > 0 && s[0] == '-' then (if AllDigits(s[1..]) then Some(-(DigitsValue(s[1..]) as int)) else None)
    else if AllDigits(s) then Some(DigitsValue(s))
    else None
  }

  lemma {:induction false} NatToStringRoundTrip(n: nat)
    ensures DigitsValue(NatToString(n)) == n
  {
    if n >= 10 {
      var s := NatToString(n);
      NatToStringRoundTrip(n / 10);
      assert s[..|s| - 1] == NatToString(n / 10);
    }
  }

  lemma IntToStringRoundTrip(n: int)
    ensures ParseInt(IntToString(n)) == Some(n)
  {
    var s := IntToString(n);
    if n < 0 {
      assert s[1..] == NatToString(-n);
      NatToStringRoundTrip(-n);
    } else {
      NatToStringRoundTrip(n);
    }
  }

  /** The value `setPixels` stores: `0` bare, any other size with the `px` unit. */
  function PixelValue(pixels: int32): (r: string)
    ensures pixels == 0 <==> r == "0"
  {
    if pixels == 0 then IntToString(pixels as int) else IntToString(pixels as int) + "px"
  }

  /** Reads a stored size back: the number, with or without the `px` unit. */
  function ParsePixels(s: string): Option<int>
  {
    if |s| >= 2 && s[|s| - 2..] == "px" then ParseInt(s[..|s| - 2]) else ParseInt(s)
  }

  /** Every stored size reads back as the number that was set. */
  lemma PixelValueRoundTrip(pixels: int32)
    ensures ParsePixels(PixelValue(pixels)) == Some(pixels as int)
  {
    var n := pixels as int;
    IntToStringRoundTrip(n);
    if pixels == 0 {
      assert PixelValue(pixels) == "0";
    } else {
      var s := PixelValue(pixels);
      assert s[|s| - 2..] == "px";
      assert s[..|s| - 2] == IntToString(n);
    }
  }

  class Style {
    var declarations: AttrMap

    constructor ()
      ensures fresh(declarations) && declarations.entries == map[]
    {
      declarations := new AttrMap();
    }

    /** `set`: write the declaration into the map; returns this style. */
    method Set(propName: string, value: string) returns (r: Style)
      modifies declarations
      ensures declarations.entries == old(declarations.entries)[propName := Str(value)]
      ensures r == this
    {
      var _ := declarations.Set(propName, Str(value));
      r := this;
    }

    method SetPixels(propName: string, pixels: int32) returns (r: Style)
      modifies declarations
      ensures declarations.entries == old(declarations.entries)[propName := Str(PixelValue(pixels))]
      ensures r == this
    {
      if pixels == 0 {
        r := Set(propName, IntToString(pixels as int));
      } else {
        r := Set(propName, IntToString(pixels as int) + "px");
      }
    }

    /** `textAlign`: the argument is ignored and `center` is stored. */
    method TextAlign(align: string) returns (r: Style)
      modifies declarations
      ensures declarations.entries == old(declarations.entries)["textAlign" := Str("center")]
      ensures r == this
    {
      r := Set("textAlign", "center");
    }

    /** `verticalAlign`: the argument is ignored and `center` is stored. */
    method VerticalAlign(align: string) returns (r: Style)
      modifies declarations
      ensures declarations.entries == old(declarations.entries)["verticalAlign" := Str("center")]
      ensures r == this
    {
      r := Set("verticalAlign", "center");
    }

    /** `textAlign` as evidently intended: the argument is stored. */
    method TextAlignIntended(align: string) returns (r: Style)
      modifies declarations
      ensures declarations.entries == old(declarations.entries)["textAlign" := Str(align)]
      ensures r == this
    {
      r := Set("textAlign", align);
    }

    /** `verticalAlign` as evidently intended: the argument is stored. */
    method VerticalAlignIntended(align: string) returns (r: Style)
      modifies declarations
      ensures declarations.entries == old(declarations.entries)["verticalAlign" := Str(align)]
      ensures r == this
    {
      r := Set("verticalAlign", align);
    }

    method LineHeight(height: int32) returns (r: Style)
      modifies declarations
      ensures declarations.entries == old(declarations.entries)["lineHeight" := Str(PixelValue(height))]
      ensures r == this
    {
      r := SetPixels("lineHeight", height);
    }

    method Border(border: int32) returns (r: Style)
      modifies declarations
      ensures declarations.entries == old(declarations.entries)["border" := Str(PixelValue(border))]
      ensures r == this
    {
      r := SetPixels("border", border);
    }

    /** `border(String)`: the shorthand is stored as given. */
    method BorderShorthand(shorthand: string) returns (r: Style)
      modifies declarations
      ensures declarations.entries == old(declarations.entries)["border" := Str(shorthand)]
      ensures r == this
    {
      r := Set("border", shorthand);
    }

    method Width(width: int32) returns (r: Style)
      modifies declarations
      ensures declarations.entries == old(declarations.entries)["width" := Str(PixelValue(width))]
      ensures r == this
    {
      r := SetPixels("width", width);
    }

    method Height(height: int32) returns (r: Style)
      modifies declarations
      ensures declarations.entries == old(declarations.entries)["height" := Str(PixelValue(height))]
      ensures r == this
    {
      r := SetPixels("height", height);
    }

    method FontSize(size: int32) returns (r: Style)
      modifies declarations
      ensures declarations.entries == old(declarations.entries)["fontSize" := Str(PixelValue(size))]
      ensures r == this
    {
      r := SetPixels("fontSize", size);
    }

    /** `display`, `setPosition` and `overflow` store the CSS name of their enum constant. */
    method Display(cssName: string) returns (r: Style)
      modifies declarations
      ensures declarations.entries == old(declarations.entries)["display" := Str(cssName)]
      ensures r == this
    {
      r := Set("display", cssName);
    }

    method SetPosition(cssName: string) returns (r: Style)
      modifies declarations
      ensures declarations.entries == old(declarations.entries)["position" := Str(cssName)]
      ensures r == this
    {
      r := Set("position", cssName);
    }

    method Overflow(cssName: string) returns (r: Style)
      modifies declarations
      ensures declarations.entries == old(declarations.entries)["overflow" := Str(cssName)]
      ensures r == this
    {
      r := Set("overflow", cssName);
    }

    /** `asPropMap`: the live declarations map, not a copy. */
    method AsPropMap() returns (m: AttrMap)
      ensures m == declarations
    {
      m := declarations;
    }
  }

  /** Asking for `right` and `top`: as written both declarations read `center`; as intended they
      read what was asked for. */
  method AlignmentTrace(intended: bool) returns (textAlign: PropValue, verticalAlign: PropValue)
    ensures !intended ==> textAlign == Str("center") && verticalAlign == Str("center")
    ensures intended ==> textAlign == Str("right") && verticalAlign == Str("top")
  {
    var s := new Style();
    if intended {
      var _ := s.TextAlignIntended("right");
      var _ := s.VerticalAlignIntended("top");
    } else {
      var _ := s.TextAlign("right");
      var _ := s.VerticalAlign("top");
    }
    textAlign, verticalAlign := s.declarations.entries["textAlign"], s.declarations.entries["verticalAlign"];
  }

  /** A map obtained before a change to the style shows that change. */
  method PropMapIsLive() returns (m: AttrMap)
    ensures m.entries == map["width" := Str("10px"), "border" := Str("0")]
  {
    var s := new Style();
    m := s.AsPropMap();
    var _ := s.Width(10);
    var _ := s.Border(0);
    assert NatToString(10) == "10" by {
      assert NatToString(1) == "1" && NatToString(0) == "0";
    }
    assert IntToString(10) + "px" == "10px";
  }
}
