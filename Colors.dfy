/**
 * The colour primitive and the generic lighting settings that every device
 * accepts (`Color` in src/color.rs and the enums it exports).
 */
module Colors {
  import opened Options

  /** An unsigned 8-bit integer (Rust `u8`). */
  type Byte = x: int | 0 <= x < 256

  /** Three independent 8-bit channels. A datatype, so a copy never aliases the original. */
  datatype Color = Color(r: Byte, g: Byte, b: Byte)

  /** Generic lighting settings. Their variants are the ones every exhaustive match over them names. */
  datatype RgbMode = Static
  datatype RgbSpeed = Slow | Medium | Fast
  datatype RgbBrightness =
    Level10 | Level20 | Level30 | Level40 | Level50 | Level60 | Level70 | Level80 | Level90 | Level100

  const Black: Color := Color(0, 0, 0)

  /** `Color::new`: the three channels are stored as given. */
  function NewColor(r: Byte, g: Byte, b: Byte): (c: Color)
    ensures c.r == r && c.g == g && c.b == b
  {
    Color(r, g, b)
  }

  // ---------------------------------------------------------------------------
  // Decimal rendering, as Rust's `{}` prints an unsigned integer

  predicate IsDigit(ch: char) {
    '0' <= ch <= '9'
  }

  function DigitChar(d: nat): (ch: char)
    requires d < 10
    ensures IsDigit(ch) && DigitValue(ch) == d
  {
    ('0' as int + d) as char
  }

  function DigitValue(ch: char): nat
    requires IsDigit(ch)
  {
    ch as int - '0' as int
  }

  /** The value of a string of decimal digits, most significant first. */
  function DigitsValue(s: string): nat
    requires forall i :: 0 <= i < |s| ==> IsDigit(s[i])
  {
    if s == [] then 0 else DigitsValue(s[..|s| - 1]) * 10 + DigitValue(s[|s| - 1])
  }

  /** Decimal digits of n: at least one digit and no leading zero. */
  function Decimal(n: nat): (s: string)
    ensures 1 <= |s|
    ensures forall i :: 0 <= i < |s| ==> IsDigit(s[i])
    ensures s[0] == '0' ==> n == 0 && s == "0"
    decreases n
  {
    if n < 10 then [DigitChar(n)] else Decimal(n / 10) + [DigitChar(n % 10)]
  }

  /** Reading the digits back gives the number: Decimal is injective. */
  lemma {:induction false} DecimalValue(n: nat)
    ensures DigitsValue(Decimal(n)) == n
    decreases n
  {
    if n >= 10 {
      var s := Decimal(n);
      assert s[..|s| - 1] == Decimal(n / 10);
      DecimalValue(n / 10);
    }
  }

  /** A byte takes one, two or three digits. */
  lemma DecimalLength(n: nat)
    requires n < 256
    ensures |Decimal(n)| == if n < 10 then 1 else if n < 100 then 2 else 3
  {
    if n >= 10 {
      assert |Decimal(n)| == |Decimal(n / 10)| + 1;
      if n >= 100 {
        assert |Decimal(n / 10)| == |Decimal(n / 100)| + 1;
      }
    }
  }

  // ---------------------------------------------------------------------------
  // The `Display` formatter and a reader for what it prints

  /** `format!("{}", c)`: `rgb(` r `, ` g `, ` b `)`, each channel in decimal. */
  function Display(c: Color): (s: string)
    ensures 12 <= |s| <= 18
    ensures s[..4] == "rgb(" && s[|s| - 1] == ')'
  {
    DecimalLength(c.r);
    DecimalLength(c.g);
    DecimalLength(c.b);
    "rgb(" + Decimal(c.r) + ", " + Decimal(c.g) + ", " + Decimal(c.b) + ")"
  }

  /** The number of decimal digits at the front of s. */
  function LeadingDigits(s: string): (k: nat)
    ensures k <= |s|
    ensures forall i :: 0 <= i < k ==> IsDigit(s[i])
    ensures k < |s| ==> !IsDigit(s[k])
  {
    if s != [] && IsDigit(s[0]) then 1 + LeadingDigits(s[1..]) else 0
  }

  /** Strips `prefix` from the front of s, if s starts with it. */
  function Expect(prefix: string, s: string): (rest: Option<string>)
    ensures rest.Some? <==> |prefix| <= |s| && s[..|prefix|] == prefix
    ensures rest.Some? ==> s == prefix + rest.value
  {
    if |prefix| <= |s| && s[..|prefix|] == prefix then Some(s[|prefix|..]) else None
  }

  /** Reads one channel of one to three digits with a value below 256; returns it and the rest. */
  function ReadChannel(s: string): Option<(Byte, string)>
  {
    var k := LeadingDigits(s);
    if 1 <= k <= 3 && DigitsValue(s[..k]) < 256 then
      Some((DigitsValue(s[..k]), s[k..]))
    else
      None
  }

  /** Reads `rgb(r, g, b)` back into a colour. */
  function ParseDisplay(s: string): Option<Color> {
    var s1 := Expect("rgb(", s);
    if s1.None? then None else
    var r := ReadChannel(s1.value);
    if r.None? then None else
    var s3 := Expect(", ", r.value.1);
    if s3.None? then None else
    var g := ReadChannel(s3.value);
    if g.None? then None else
    var s5 := Expect(", ", g.value.1);
    if s5.None? then None else
    var b := ReadChannel(s5.value);
    if b.None? || b.value.1 != ")" then None else
    Some(Color(r.value.0, g.value.0, b.value.0))
  }

  /** The digits of a digit string are all read, up to the first non-digit after it. */
  lemma {:induction false} LeadingDigitsOfConcat(u: string, t: string)
    requires forall i :: 0 <= i < |u| ==> IsDigit(u[i])
    requires t == [] || !IsDigit(t[0])
    ensures LeadingDigits(u + t) == |u|
    decreases |u|
  {
    if u != [] {
      assert (u + t)[1..] == u[1..] + t;
      LeadingDigitsOfConcat(u[1..], t);
    }
  }

  /** A channel is read back from its decimal rendering, leaving the text after it. */
  lemma ReadChannelOfDecimal(v: Byte, t: string)
    requires t == [] || !IsDigit(t[0])
    ensures ReadChannel(Decimal(v) + t) == Some((v, t))
  {
    var u := Decimal(v);
    LeadingDigitsOfConcat(u, t);
    DecimalLength(v);
    assert (u + t)[..|u|] == u;
    assert (u + t)[|u|..] == t;
    DecimalValue(v);
  }

  /** What Display prints reads back as the same colour, so Display is injective. */
  lemma DisplayRoundTrip(c: Color)
    ensures ParseDisplay(Display(c)) == Some(c)
  {
    var s4 := Decimal(c.b) + ")";
    var s3 := ", " + s4;
    var s2 := Decimal(c.g) + s3;
    var s1 := ", " + s2;
    DisplayShape(c, Decimal(c.r) + s1);
    ExpectPrefix("rgb(", Decimal(c.r) + s1);
    ReadChannelOfDecimal(c.r, s1);
    SeparatedChannel(c.g, s3);
    SeparatedChannel(c.b, ")");
  }

  /** Display is the opening `rgb(` followed by the channels, each after its separator. */
  lemma DisplayShape(c: Color, rest: string)
    requires rest == Decimal(c.r) + (", " + (Decimal(c.g) + (", " + (Decimal(c.b) + ")"))))
    ensures Display(c) == "rgb(" + rest
  {
  }

  /** A separator followed by a channel's decimal rendering reads back as that channel. */
  lemma SeparatedChannel(v: Byte, t: string)
    requires t == [] || !IsDigit(t[0])
    ensures Expect(", ", ", " + (Decimal(v) + t)) == Some(Decimal(v) + t)
    ensures ReadChannel(Decimal(v) + t) == Some((v, t))
  {
    ExpectPrefix(", ", Decimal(v) + t);
    ReadChannelOfDecimal(v, t);
  }

  lemma ExpectPrefix(prefix: string, rest: string)
    ensures Expect(prefix, prefix + rest) == Some(rest)
  {
    assert (prefix + rest)[..|prefix|] == prefix;
    assert (prefix + rest)[|prefix|..] == rest;
  }

  lemma DisplayInjective(c1: Color, c2: Color)
    ensures Display(c1) == Display(c2) ==> c1 == c2
  {
    DisplayRoundTrip(c1);
    DisplayRoundTrip(c2);
  }
}
