/**
 * Entities of Crystal Rush (js/entities.js): the state every entity shares,
 * platforms with their colour shading, and the two collectibles.
 *
 * The Entity base class becomes the record Body; subclasses hold a Body in a
 * field, so the physics engine can work on players and enemies alike.
 */
module Entities {
  import opened Utils

  /** Position, size, velocity and the two flags of class Entity. */
  datatype Body = Body(x: real, y: real, width: real, height: real,
                       vx: real, vy: real, onGround: bool, active: bool)

  /** Entity constructor: at rest, airborne and active. */
  function NewBody(x: real, y: real, width: real, height: real): (b: Body)
    ensures b.x == x && b.y == y && b.width == width && b.height == height
    ensures b.vx == 0.0 && b.vy == 0.0 && !b.onGround && b.active
  {
    Body(x, y, width, height, 0.0, 0.0, false, true)
  }

  /** getBounds: exactly the entity's position and size. */
  function Bounds(b: Body): (r: Rect)
    ensures r.x == b.x && r.y == b.y && r.width == b.width && r.height == b.height
  {
    Rect(b.x, b.y, b.width, b.height)
  }

  /** What collect() does to the shared state: only `active` is cleared. */
  function Deactivated(b: Body): (r: Body)
    ensures !r.active
    ensures r.(active := b.active) == b
  {
    b.(active := false)
  }

  /** Collecting twice leaves the state of collecting once. */
  lemma DeactivatedIdempotent(b: Body)
    ensures Deactivated(Deactivated(b)) == Deactivated(b)
  {
  }

  // ---------------------------------------------------------------------
  // Platform

  const DEFAULT_PLATFORM_COLOR: string := "#8B4513"

  /** A solid, never-moving platform; its colour is cosmetic. */
  datatype Platform = Platform(body: Body, color: string)

  /** Platform constructor; the colour parameter defaults only when it is undefined. */
  function NewPlatform(x: real, y: real, width: real, height: real, color: Option<string>): (p: Platform)
    ensures p.body == NewBody(x, y, width, height)
    ensures p.color == (if color.Some? then color.value else DEFAULT_PLATFORM_COLOR)
  {
    Platform(NewBody(x, y, width, height),
             match color case Some(c) => c case None => DEFAULT_PLATFORM_COLOR)
  }

  // Hexadecimal digits, as parseInt(_, 16) and toString(16) use them.

  predicate IsHexDigit(c: char) { '0' <= c <= '9' || 'a' <= c <= 'f' || 'A' <= c <= 'F' }

  predicate IsLowerHexDigit(c: char) { '0' <= c <= '9' || 'a' <= c <= 'f' }

  predicate AllHex(s: string) { forall i :: 0 <= i < |s| ==> IsHexDigit(s[i]) }

  predicate AllLowerHex(s: string) { forall i :: 0 <= i < |s| ==> IsLowerHexDigit(s[i]) }

  function HexValue(c: char): (d: nat)
    requires IsHexDigit(c)
    ensures d < 16
  {
    if '0' <= c <= '9' then (c as int) - 48
    else if 'a' <= c <= 'f' then (c as int) - 87
    else (c as int) - 55
  }

  function LowerHexChar(d: nat): (c: char)
    requires d < 16
    ensures IsLowerHexDigit(c) && HexValue(c) == d
  {
    if d < 10 then (48 + d) as char else (87 + d) as char
  }

  function ToLowerHex(c: char): (r: char)
    requires IsHexDigit(c)
    ensures IsLowerHexDigit(r) && HexValue(r) == HexValue(c)
  {
    if 'A' <= c <= 'F' then ((c as int) + 32) as char else c
  }

  function LowerHex(s: string): (r: string)
    requires AllHex(s)
    ensures |r| == |s| && forall i :: 0 <= i < |s| ==> r[i] == ToLowerHex(s[i])
  {
    if s == [] then [] else [ToLowerHex(s[0])] + LowerHex(s[1..])
  }

  /** Value of a string of hexadecimal digits. */
  function HexDigitsValue(s: string): nat
    requires AllHex(s)
    decreases |s|
  {
    if |s| == 0 then 0 else 16 * HexDigitsValue(s[..|s| - 1]) + HexValue(s[|s| - 1])
  }

  /** The longest prefix of hexadecimal digits. */
  function HexPrefix(s: string): (p: string)
    ensures AllHex(p) && p <= s
    ensures |p| < |s| ==> !IsHexDigit(s[|p|])
  {
    if |s| > 0 && IsHexDigit(s[0]) then [s[0]] + HexPrefix(s[1..]) else []
  }

  /** The value of the leading hexadecimal digits; None when there are none. */
  function ParseHex(s: string): Option<nat>
  {
    var p := HexPrefix(s);
    if |p| == 0 then None else Some(HexDigitsValue(p))
  }

  /** The characters parseInt skips at the start: WhiteSpace and LineTerminator of ECMA-262. */
  predicate IsStrWhiteSpace(c: char)
  {
    c == '\t' || c == '\n' || c == '\U{000B}' || c == '\U{000C}' || c == '\r' || c == ' ' ||
    c == '\U{00A0}' || c == '\U{1680}' || ('\U{2000}' <= c <= '\U{200A}') || c == '\U{2028}' ||
    c == '\U{2029}' || c == '\U{202F}' || c == '\U{205F}' || c == '\U{3000}' || c == '\U{FEFF}'
  }

  /** The string without its leading white space. */
  function TrimStart(s: string): (r: string)
    ensures |r| <= |s| && r == s[|s| - |r|..]
    ensures forall i :: 0 <= i < |s| - |r| ==> IsStrWhiteSpace(s[i])
    ensures |r| > 0 ==> !IsStrWhiteSpace(r[0])
  {
    if |s| > 0 && IsStrWhiteSpace(s[0]) then TrimStart(s[1..]) else s
  }

  lemma TrimStartKeeps(s: string)
    requires |s| > 0 && !IsStrWhiteSpace(s[0])
    ensures TrimStart(s) == s
  {
  }

  /** The sign parseInt takes from a leading '+' or '-': true for negative, and the rest of the string. */
  function StripSign(t: string): (r: (bool, string))
    ensures r.0 <==> |t| > 0 && t[0] == '-'
    ensures r.1 == if |t| > 0 && (t[0] == '-' || t[0] == '+') then t[1..] else t
  {
    if |t| > 0 && (t[0] == '-' || t[0] == '+') then (t[0] == '-', t[1..]) else (false, t)
  }

  /** Radix 16 lets parseInt skip one "0x" or "0X" before the digits. */
  function StripHexPrefix(u: string): (r: string)
    ensures r == if |u| >= 2 && u[0] == '0' && (u[1] == 'x' || u[1] == 'X') then u[2..] else u
  {
    if |u| >= 2 && u[0] == '0' && (u[1] == 'x' || u[1] == 'X') then u[2..] else u
  }

  /**
   * parseInt(s, 16) (section 19.2.5 of ECMA-262): leading white space is
   * skipped, one '+' or '-' is taken as the sign, then an optional "0x" or
   * "0X", and the longest run of hexadecimal digits that follows is the
   * magnitude; None stands for NaN (no digit there).
   */
  function ParseIntHex(s: string): Option<int>
  {
    ParseSignedHex(TrimStart(s))
  }

  /** parseInt(s, 16) once the white space is gone: sign, optional "0x", digits. */
  function ParseSignedHex(t: string): Option<int>
  {
    var (negative, u) := StripSign(t);
    match ParseHex(StripHexPrefix(u))
    case None => None
    case Some(v) => var m: int := v; Some(if negative then -m else m)
  }

  /** A string that starts with a hexadecimal digit reads as its leading digits. */
  lemma ParseIntHexOfDigits(s: string)
    requires |s| > 0 && IsHexDigit(s[0]) && (|s| == 1 || s[0] != '0' || (s[1] != 'x' && s[1] != 'X'))
    ensures ParseHex(s).Some? && ParseIntHex(s) == Some(ParseHex(s).value as int)
  {
    TrimStartKeeps(s);
    assert StripSign(TrimStart(s)) == (false, s);
    assert StripHexPrefix(s) == s;
    assert ParseHex(s).Some? by { assert |HexPrefix(s)| > 0; }
  }

  /** A string of hexadecimal digits reads back as its value. */
  lemma ParseIntHexOfHex(s: string)
    requires |s| > 0 && AllHex(s)
    ensures ParseIntHex(s) == Some(HexDigitsValue(s))
  {
    HexPrefixOfAllHex(s);
    ParseIntHexOfDigits(s);
  }

  /** Leading white space is dropped by TrimStart. */
  lemma {:induction false} TrimStartSkips(w: string, s: string)
    requires forall i :: 0 <= i < |w| ==> IsStrWhiteSpace(w[i])
    ensures TrimStart(w + s) == TrimStart(s)
    decreases |w|
  {
    if |w| > 0 {
      assert (w + s)[0] == w[0] && (w + s)[1..] == w[1..] + s;
      TrimStartSkips(w[1..], s);
    } else {
      assert w + s == s;
    }
  }

  /** Leading white space does not change what parseInt reads. */
  lemma ParseIntHexSkipsWhiteSpace(w: string, s: string)
    requires forall i :: 0 <= i < |w| ==> IsStrWhiteSpace(w[i])
    ensures ParseIntHex(w + s) == ParseIntHex(s)
  {
    TrimStartSkips(w, s);
  }

  /** A minus sign in front of the digits negates their value. */
  lemma ParseIntHexMinus(s: string)
    requires |s| > 0 && IsHexDigit(s[0]) && (|s| == 1 || s[0] != '0' || (s[1] != 'x' && s[1] != 'X'))
    ensures ParseHex(s).Some?
    ensures var v: int := ParseHex(s).value; ParseIntHex("-" + s) == Some(-v)
  {
    assert ParseHex(s).Some? by { assert |HexPrefix(s)| > 0; }
    TrimStartKeeps("-" + s);
    assert StripSign("-" + s) == (true, s);
    assert StripHexPrefix(s) == s;
  }

  /** A plus sign in front of the digits changes nothing. */
  lemma ParseIntHexPlus(s: string)
    requires |s| > 0 && IsHexDigit(s[0]) && (|s| == 1 || s[0] != '0' || (s[1] != 'x' && s[1] != 'X'))
    ensures ParseHex(s).Some?
    ensures ParseIntHex("+" + s) == Some(ParseHex(s).value as int)
  {
    assert ParseHex(s).Some? by { assert |HexPrefix(s)| > 0; }
    TrimStartKeeps("+" + s);
    assert StripSign("+" + s) == (false, s);
    assert StripHexPrefix(s) == s;
  }

  /** A "0x" or "0X" in front of the digits is skipped. */
  lemma ParseIntHexPrefix(s: string)
    requires |s| > 0 && IsHexDigit(s[0])
    ensures ParseHex(s).Some?
    ensures ParseIntHex("0x" + s) == ParseIntHex("0X" + s) == Some(ParseHex(s).value as int)
  {
    TrimStartKeeps("0x" + s);
    TrimStartKeeps("0X" + s);
    assert StripSign(TrimStart("0x" + s)) == (false, "0x" + s);
    assert StripSign(TrimStart("0X" + s)) == (false, "0X" + s);
    assert StripHexPrefix("0x" + s) == s && StripHexPrefix("0X" + s) == s;
    assert ParseHex(s).Some? by { assert |HexPrefix(s)| > 0; }
  }


  /** n.toString(16): shortest lower-case hexadecimal rendering. */
  function ToHex(n: nat): (s: string)
    ensures |s| >= 1 && AllLowerHex(s) && AllHex(s)
    ensures n < 16 <==> |s| == 1
    decreases n
  {
    if n < 16 then [LowerHexChar(n)] else ToHex(n / 16) + [LowerHexChar(n % 16)]
  }

  /** String.prototype.replace with a one-character pattern: drops the first occurrence. */
  function RemoveFirst(s: string, c: char): (r: string)
    ensures c !in s ==> r == s
    ensures c in s ==> |r| == |s| - 1
  {
    if s == [] then [] else if s[0] == c then s[1..] else [s[0]] + RemoveFirst(s[1..], c)
  }

  /** The ToInt32 conversion JavaScript applies before a bitwise operator. */
  function ToInt32(n: int): (r: int)
    ensures -0x8000_0000 <= r < 0x8000_0000
    ensures 0 <= n < 0x8000_0000 ==> r == n
  {
    var m := n % 0x1_0000_0000;
    if m >= 0x8000_0000 then m - 0x1_0000_0000 else m
  }

  datatype RGB = RGB(r: int, g: int, b: int)

  function ClampChannel(v: int): (c: int)
    ensures 0 <= c <= 255
    ensures 0 <= v <= 255 ==> c == v
  {
    if v > 255 then 255 else if v < 0 then 0 else v
  }

  /**
   * The three channels adjustColor computes: the colour with its first '#'
   * removed is read as a hexadecimal number (NaN acts as 0 under the
   * bitwise operators), split into bytes, shifted by `amount` and clamped.
   */
  function AdjustedChannels(color: string, amount: int): (c: RGB)
    ensures 0 <= c.r <= 255 && 0 <= c.g <= 255 && 0 <= c.b <= 255
  {
    var num := match ParseIntHex(RemoveFirst(color, '#')) case Some(v) => ToInt32(v) case None => 0;
    RGB(ClampChannel(num / 0x1_0000 + amount),
        ClampChannel((num / 0x100) % 0x100 + amount),
        ClampChannel(num % 0x100 + amount))
  }

  function Pack(c: RGB): int { c.r * 0x1_0000 + c.g * 0x100 + c.b }

  /**
   * Platform.adjustColor: always '#' and exactly six lower-case hex digits,
   * which read back as the three clamped channels.
   */
  function AdjustColor(color: string, amount: int): (r: string)
    ensures |r| == 7 && r[0] == '#' && AllLowerHex(r[1..])
    ensures ParseHex(r[1..]) == Some(Pack(AdjustedChannels(color, amount)))
  {
    var c := AdjustedChannels(color, amount);
    var v := Pack(c);
    assert 0 <= v < 0x100_0000;
    ToHexLength(v, 6);
    ToHexRoundTrip(v);
    var hex := PadStart(ToHex(v), 6, '0');
    PaddedHexValue(ToHex(v), 6);
    HexPrefixOfAllHex(hex);
    assert ("#" + hex)[1..] == hex;
    "#" + hex
  }

  lemma {:induction false} ToHexRoundTrip(n: nat)
    ensures HexDigitsValue(ToHex(n)) == n
    decreases n
  {
    if n >= 16 {
      var s := ToHex(n);
      assert s[..|s| - 1] == ToHex(n / 16);
      ToHexRoundTrip(n / 16);
    }
  }

  function Pow16(k: nat): nat { if k == 0 then 1 else 16 * Pow16(k - 1) }

  /** A number below 16^k needs at most k hexadecimal digits. */
  lemma {:induction false} ToHexLength(n: nat, k: nat)
    requires k >= 1 && n < Pow16(k)
    ensures |ToHex(n)| <= k
    decreases n
  {
    if n >= 16 {
      assert k >= 2;
      ToHexLength(n / 16, k - 1);
    }
  }

  /** Left-padding with zeros changes neither the digits' kind nor their value. */
  lemma {:induction false} PaddedHexValue(s: string, target: nat)
    requires AllLowerHex(s) && AllHex(s)
    ensures var p := PadStart(s, target, '0');
      AllLowerHex(p) && AllHex(p) && HexDigitsValue(p) == HexDigitsValue(s)
    decreases target
  {
    if |s| < target {
      var p := PadStart(s, target, '0');
      assert p == ['0'] + PadStart(s, target - 1, '0');
      PaddedHexValue(s, target - 1);
      LeadingZeroHex(PadStart(s, target - 1, '0'));
    }
  }

  lemma {:induction false} LeadingZeroHex(s: string)
    requires AllHex(s)
    ensures AllHex(['0'] + s) && HexDigitsValue(['0'] + s) == HexDigitsValue(s)
    decreases |s|
  {
    var t := ['0'] + s;
    if |s| > 0 {
      assert t[..|t| - 1] == ['0'] + s[..|s| - 1];
      LeadingZeroHex(s[..|s| - 1]);
    } else {
      assert t[..0] == [];
    }
  }

  lemma {:induction false} HexPrefixOfAllHex(s: string)
    requires AllHex(s)
    ensures HexPrefix(s) == s
    decreases |s|
  {
    if |s| > 0 {
      HexPrefixOfAllHex(s[1..]);
    }
  }

  /** Two lower-case hex strings of the same length and value are equal. */
  lemma {:induction false} LowerHexInjective(s: string, t: string)
    requires AllLowerHex(s) && AllHex(s) && AllLowerHex(t) && AllHex(t) && |s| == |t|
    requires HexDigitsValue(s) == HexDigitsValue(t)
    ensures s == t
    decreases |s|
  {
    if |s| > 0 {
      var n := |s| - 1;
      assert AllHex(s[..n]) && AllLowerHex(s[..n]) && AllHex(t[..n]) && AllLowerHex(t[..n]);
      DigitSplit(HexDigitsValue(s[..n]), HexValue(s[n]), HexDigitsValue(t[..n]), HexValue(t[n]));
      LowerHexDigitInjective(s[n], t[n]);
      LowerHexInjective(s[..n], t[..n]);
      assert s == s[..n] + [s[n]] && t == t[..n] + [t[n]];
    }
  }

  /** A base-16 numeral's last digit and the rest are determined by its value. */
  lemma DigitSplit(a: nat, x: nat, b: nat, y: nat)
    requires x < 16 && y < 16 && 16 * a + x == 16 * b + y
    ensures a == b && x == y
  {
  }

  lemma LowerHexDigitInjective(a: char, b: char)
    requires IsLowerHexDigit(a) && IsLowerHexDigit(b) && HexValue(a) == HexValue(b)
    ensures a == b
  {
  }

  lemma {:induction false} LowerHexValue(s: string)
    requires AllHex(s)
    ensures AllHex(LowerHex(s)) && HexDigitsValue(LowerHex(s)) == HexDigitsValue(s)
    decreases |s|
  {
    if |s| > 0 {
      var n := |s| - 1;
      var l := LowerHex(s);
      assert l[..n] == LowerHex(s[..n]);
      LowerHexValue(s[..n]);
    }
  }

  /** On a 24-bit value the byte split and Pack are inverse. */
  lemma PackUnpack(num: int)
    requires 0 <= num < 0x100_0000
    ensures Pack(RGB(num / 0x1_0000, (num / 0x100) % 0x100, num % 0x100)) == num
    ensures num / 0x1_0000 <= 255
  {
  }

  /** adjustColor(c, 0) on '#' and six hex digits gives back the colour in lower case. */
  lemma AdjustColorZero(hex: string)
    requires |hex| == 6 && AllHex(hex)
    ensures AdjustColor("#" + hex, 0) == "#" + LowerHex(hex)
  {
    AdjustZeroValue(hex);
    HashAndDigitsOfValue(AdjustColor("#" + hex, 0), hex);
  }

  /** '#' and six lower-case digits with the value of hex are '#' and hex in lower case. */
  lemma HashAndDigitsOfValue(out: string, hex: string)
    requires |out| == 7 && out[0] == '#' && AllLowerHex(out[1..])
    requires |hex| == 6 && AllHex(hex) && ParseHex(out[1..]) == Some(HexDigitsValue(hex))
    ensures out == "#" + LowerHex(hex)
  {
    assert AllHex(out[1..]) by {
      forall i | 0 <= i < 6 ensures IsHexDigit(out[1..][i]) {
        assert IsLowerHexDigit(out[1..][i]);
      }
    }
    HexPrefixOfAllHex(out[1..]);
    LowerHexValue(hex);
    LowerHexInjective(out[1..], LowerHex(hex));
    assert out == [out[0]] + out[1..];
  }

  /** With amount 0 the channels pack back to the colour's own value. */
  lemma AdjustZeroValue(hex: string)
    requires |hex| == 6 && AllHex(hex)
    ensures Pack(AdjustedChannels("#" + hex, 0)) == HexDigitsValue(hex)
  {
    var color := "#" + hex;
    assert RemoveFirst(color, '#') == hex;
    ParseIntHexOfHex(hex);
    var num := HexDigitsValue(hex);
    assert num < 0x100_0000 by {
      HexBelowPow(hex);
      assert Pow16(6) == 0x100_0000;
    }
    PackUnpack(num);
  }

  /** parseInt itself reads the six digits of an adjusted colour back as the packed channels. */
  lemma AdjustColorReadsBack(color: string, amount: int)
    ensures ParseIntHex(AdjustColor(color, amount)[1..]) == Some(Pack(AdjustedChannels(color, amount)))
  {
    var hex := AdjustColor(color, amount)[1..];
    assert AllHex(hex) by {
      forall i | 0 <= i < |hex| ensures IsHexDigit(hex[i]) {
        assert IsLowerHexDigit(hex[i]);
      }
    }
    HexPrefixOfAllHex(hex);
    ParseIntHexOfHex(hex);
  }

  /** A "0x" after the '#' is skipped: "#0x1F" adjusts like "#1F". */
  lemma AdjustColorSkipsHexPrefix(digits: string, amount: int)
    requires |digits| > 0 && IsHexDigit(digits[0])
    requires |digits| == 1 || digits[0] != '0' || (digits[1] != 'x' && digits[1] != 'X')
    ensures AdjustedChannels("#0x" + digits, amount) == AdjustedChannels("#" + digits, amount)
  {
    assert RemoveFirst("#0x" + digits, '#') == "0x" + digits;
    assert RemoveFirst("#" + digits, '#') == digits;
    assert ParseIntHex("0x" + digits) == ParseIntHex(digits) by {
      ParseIntHexPrefix(digits);
      ParseIntHexOfDigits(digits);
    }
    SameParseSameChannels("#0x" + digits, "#" + digits, amount);
  }

  /** adjustColor depends on the colour only through what parseInt reads from it. */
  lemma SameParseSameChannels(c1: string, c2: string, amount: int)
    ensures ParseIntHex(RemoveFirst(c1, '#')) == ParseIntHex(RemoveFirst(c2, '#')) ==>
      AdjustedChannels(c1, amount) == AdjustedChannels(c2, amount)
  {
  }

  /** A sign after the '#' is honoured: "#-12" is -0x12, whose low bytes are 0xFF and 0xEE. */
  lemma AdjustColorReadsSign()
    ensures AdjustedChannels("#-12", 0) == RGB(0, 0xFF, 0xEE)
  {
    assert RemoveFirst("#-12", '#') == "-12";
    TrimStartKeeps("-12");
    assert StripSign("-12") == (true, "12");
    assert StripHexPrefix("12") == "12";
    HexPrefixOfAllHex("12");
    assert HexDigitsValue("12") == 0x12;
    assert ParseIntHex("-12") == Some(-0x12);
    assert ToInt32(-0x12) == -0x12;
  }

  /** White space after the '#' is skipped: "# ff0000" adjusts like "#ff0000". */
  lemma AdjustColorSkipsWhiteSpace(w: string, rest: string, amount: int)
    requires forall i :: 0 <= i < |w| ==> IsStrWhiteSpace(w[i])
    ensures AdjustedChannels("#" + w + rest, amount) == AdjustedChannels("#" + rest, amount)
  {
    assert RemoveFirst("#" + w + rest, '#') == w + rest;
    assert RemoveFirst("#" + rest, '#') == rest;
    ParseIntHexSkipsWhiteSpace(w, rest);
    SameParseSameChannels("#" + w + rest, "#" + rest, amount);
  }

  lemma {:induction false} HexBelowPow(s: string)
    requires AllHex(s)
    ensures HexDigitsValue(s) < Pow16(|s|)
    decreases |s|
  {
    if |s| > 0 {
      HexBelowPow(s[..|s| - 1]);
    }
  }

  // ---------------------------------------------------------------------
  // Coin

  const COIN_SIZE: real := 20.0

  datatype CoinState = CoinState(body: Body, rotation: real, scale: real)

  function NewCoinState(x: real, y: real): (c: CoinState)
    ensures c.body == NewBody(x, y, COIN_SIZE, COIN_SIZE) && c.rotation == 0.0 && c.scale == 1.0
  {
    CoinState(NewBody(x, y, COIN_SIZE, COIN_SIZE), 0.0, 1.0)
  }

  /**
   * Coin.update: the spin advances by 0.05 and the pulse scale follows the
   * sine of twice the spin; `sin` stands for Math.sin. Body is untouched.
   */
  function CoinSpin(c: CoinState, sin: real -> real): (r: CoinState)
    ensures r.body == c.body && r.rotation == c.rotation + 0.05
  {
    var rot := c.rotation + 0.05;
    CoinState(c.body, rot, 1.0 + sin(rot * 2.0) * 0.1)
  }

  /** Coin.collect: the coin is deactivated and nothing else changes. */
  function CollectCoin(c: CoinState): (r: CoinState)
    ensures !r.body.active
    ensures r.(body := c.body) == c && r.body == Deactivated(c.body)
  {
    c.(body := Deactivated(c.body))
  }

  lemma CollectCoinIdempotent(c: CoinState)
    ensures CollectCoin(CollectCoin(c)) == CollectCoin(c)
  {
    DeactivatedIdempotent(c.body);
  }

  class Coin {
    var body: Body
    var rotation: real
    var scale: real

    function Model(): CoinState
      reads this
    {
      CoinState(body, rotation, scale)
    }

    constructor (x: real, y: real)
      ensures Model() == NewCoinState(x, y)
    {
      body := NewBody(x, y, COIN_SIZE, COIN_SIZE);
      rotation := 0.0;
      scale := 1.0;
    }

    method Update(sin: real -> real)
      modifies this`rotation, this`scale
      ensures Model() == CoinSpin(old(Model()), sin)
    {
      rotation := rotation + 0.05;
      scale := 1.0 + sin(rotation * 2.0) * 0.1;
    }

    /** The sound it plays is not modelled. */
    method Collect()
      modifies this`body
      ensures Model() == CollectCoin(old(Model()))
    {
      body := body.(active := false);
    }
  }

  // ---------------------------------------------------------------------
  // Crystal

  const DEFAULT_CRYSTAL_COLOR: string := "#00CED1"
  const GLOW_STEP: real := 0.02

  datatype CrystalState = CrystalState(body: Body, color: string, glowIntensity: real, glowDirection: int)

  function NewCrystalState(x: real, y: real, color: Option<string>): (c: CrystalState)
    ensures c.body == NewBody(x, y, 30.0, 40.0)
    ensures c.color == (if color.Some? then color.value else DEFAULT_CRYSTAL_COLOR)
    ensures c.glowIntensity == 0.0 && c.glowDirection == 1
  {
    CrystalState(NewBody(x, y, 30.0, 40.0),
                 match color case Some(s) => s case None => DEFAULT_CRYSTAL_COLOR,
                 0.0, 1)
  }

  /**
   * Where a crystal's glow can be: rising from at most 1, or falling from at
   * most 1.02 (the step that left [0, 1] and caused the turn).
   */
  predicate GlowInvariant(c: CrystalState)
  {
    (c.glowDirection == 1 && -GLOW_STEP <= c.glowIntensity <= 1.0) ||
    (c.glowDirection == -1 && 0.0 <= c.glowIntensity <= 1.0 + GLOW_STEP)
  }

  /**
   * Crystal.update: the intensity moves by exactly 0.02 in the current
   * direction, and the direction turns only once the new intensity has left
   * [0, 1]. The glow invariant is kept.
   */
  function Glow(c: CrystalState): (r: CrystalState)
    ensures r.body == c.body && r.color == c.color
    ensures r.glowIntensity == c.glowIntensity + GLOW_STEP * (c.glowDirection as real)
    ensures c.glowDirection in {1, -1} ==>
      r.glowDirection in {1, -1} &&
      ((r.glowDirection == -c.glowDirection) <==> (r.glowIntensity > 1.0 || r.glowIntensity < 0.0))
    ensures GlowInvariant(c) ==> GlowInvariant(r)
  {
    var i := c.glowIntensity + GLOW_STEP * (c.glowDirection as real);
    var d := if i > 1.0 || i < 0.0 then -c.glowDirection else c.glowDirection;
    assert c.glowDirection == 0 ==> d == c.glowDirection;
    CrystalState(c.body, c.color, i, d)
  }

  function GlowSteps(c: CrystalState, n: nat): CrystalState
  {
    if n == 0 then c else Glow(GlowSteps(c, n - 1))
  }

  /** However many frames pass, a new crystal's glow stays within [-0.02, 1.02]. */
  lemma {:induction false} GlowBounded(c: CrystalState, n: nat)
    requires c.glowIntensity == 0.0 && c.glowDirection == 1
    ensures var g := GlowSteps(c, n);
      -GLOW_STEP <= g.glowIntensity <= 1.0 + GLOW_STEP && g.glowDirection in {1, -1}
  {
    GlowKept(c, n);
  }

  lemma {:induction false} GlowKept(c: CrystalState, n: nat)
    requires GlowInvariant(c)
    ensures GlowInvariant(GlowSteps(c, n))
  {
    if n > 0 {
      GlowKept(c, n - 1);
    }
  }

  function CollectCrystal(c: CrystalState): (r: CrystalState)
    ensures !r.body.active
    ensures r.(body := c.body) == c && r.body == Deactivated(c.body)
  {
    c.(body := Deactivated(c.body))
  }

  lemma CollectCrystalIdempotent(c: CrystalState)
    ensures CollectCrystal(CollectCrystal(c)) == CollectCrystal(c)
  {
  }

  class Crystal {
    var body: Body
    var color: string
    var glowIntensity: real
    var glowDirection: int

    function Model(): CrystalState
      reads this
    {
      CrystalState(body, color, glowIntensity, glowDirection)
    }

    constructor (x: real, y: real, color: Option<string>)
      ensures Model() == NewCrystalState(x, y, color)
    {
      body := NewBody(x, y, 30.0, 40.0);
      this.color := match color case Some(s) => s case None => DEFAULT_CRYSTAL_COLOR;
      glowIntensity := 0.0;
      glowDirection := 1;
    }

    method Update()
      modifies this`glowIntensity, this`glowDirection
      ensures Model() == Glow(old(Model()))
    {
      glowIntensity := glowIntensity + GLOW_STEP * (glowDirection as real);
      if glowIntensity > 1.0 || glowIntensity < 0.0 {
        glowDirection := glowDirection * -1;
      }
    }

    method Collect()
      modifies this`body
      ensures Model() == CollectCrystal(old(Model()))
    {
      body := body.(active := false);
    }
  }
}
