/**
 * Price text of the label: a price in minor currency units (cents) rendered
 * through a template that may use the placeholders {maj}, {min} and {price}.
 */
module PriceFormat {
  import opened Wrappers

  // ---------------------------------------------------------------- digits

  predicate IsDigit(c: char) {
    '0' <= c <= '9'
  }

  predicate AllDigits(s: string) {
    forall i :: 0 <= i < |s| ==> IsDigit(s[i])
  }

  function DigitValue(c: char): (d: nat)
    requires IsDigit(c)
    ensures d < 10
  {
    (c as int) - ('0' as int)
  }

  function DigitChar(d: nat): (c: char)
    requires d < 10
    ensures IsDigit(c) && DigitValue(c) == d
  {
    (('0' as int) + d) as char
  }

  /** Decimal text as Python's str() writes a non-negative int: digits only, no leading zero. */
  predicate Canonical(s: string) {
    |s| > 0 && AllDigits(s) && (s[0] == '0' ==> |s| == 1)
  }

  /** The number a string of decimal digits denotes (most significant digit first). */
  function ValueOf(s: string): nat
    requires AllDigits(s)
    decreases |s|
  {
    if s == [] then 0 else ValueOf(s[..|s| - 1]) * 10 + DigitValue(s[|s| - 1])
  }

  /** str(n) for n >= 0. */
  function Decimal(n: nat): (s: string)
    ensures Canonical(s)
    ensures (s[0] == '0') == (n == 0)
    decreases n
  {
    if n < 10 then [DigitChar(n)] else Decimal(n / 10) + [DigitChar(n % 10)]
  }

  lemma {:induction false} DecimalRoundTrip(n: nat)
    ensures ValueOf(Decimal(n)) == n
    decreases n
  {
    if n >= 10 {
      var s := Decimal(n / 10);
      assert (s + [DigitChar(n % 10)])[..|s|] == s;
      DecimalRoundTrip(n / 10);
    }
  }

  lemma {:induction false} LeadingDigitPositive(s: string)
    requires |s| > 0 && AllDigits(s) && s[0] != '0'
    ensures ValueOf(s) >= 1
    decreases |s|
  {
    if |s| > 1 {
      LeadingDigitPositive(s[..|s| - 1]);
    }
  }

  /** Every canonical digit string is the text of the number it denotes. */
  lemma {:induction false} CanonicalRoundTrip(s: string)
    requires Canonical(s)
    ensures Decimal(ValueOf(s)) == s
    decreases |s|
  {
    if |s| > 1 {
      var init := s[..|s| - 1];
      LeadingDigitPositive(init);
      CanonicalRoundTrip(init);
      var n := ValueOf(s);
      assert n / 10 == ValueOf(init) && n % 10 == DigitValue(s[|s| - 1]);
      assert s == init + [s[|s| - 1]];
    }
  }

  lemma ValueOfPair(s: string)
    requires |s| == 2 && AllDigits(s)
    ensures ValueOf(s) == DigitValue(s[0]) * 10 + DigitValue(s[1])
  {
    assert s[..1][..0] == [];
    assert ValueOf(s[..1]) == DigitValue(s[0]);
  }

  /** f"{m:02d}" for 0 <= m < 100. */
  function TwoDigits(m: nat): (s: string)
    requires m < 100
    ensures |s| == 2 && AllDigits(s) && ValueOf(s) == m
  {
    var s := [DigitChar(m / 10), DigitChar(m % 10)];
    ValueOfPair(s);
    s
  }

  lemma TwoDigitsOfValue(s: string)
    requires |s| == 2 && AllDigits(s)
    ensures ValueOf(s) < 100 && TwoDigits(ValueOf(s)) == s
  {
    ValueOfPair(s);
  }

  // ---------------------------------------------------------------- price text

  /** The {price} value: major units, a dot, and the minor units as exactly two digits. */
  function PriceString(p: nat): (s: string)
    ensures IsPriceShape(s)
  {
    var s := Decimal(p / 100) + "." + TwoDigits(p % 100);
    assert s[..|s| - 3] == Decimal(p / 100) && s[|s| - 2..] == TwoDigits(p % 100);
    s
  }

  /** The shape ^\d+\.\d{2}$, with the major part written without leading zeros. */
  predicate IsPriceShape(s: string) {
    |s| >= 4 && s[|s| - 3] == '.' && Canonical(s[..|s| - 3]) && AllDigits(s[|s| - 2..])
  }

  /** Reads a price text back: major units times 100 plus the two minor digits. */
  function ParsePrice(s: string): Option<nat> {
    if IsPriceShape(s) then Some(ValueOf(s[..|s| - 3]) * 100 + ValueOf(s[|s| - 2..])) else None
  }

  /** The digits of the price text rebuild the price: maj * 100 + min == p. */
  lemma PriceRoundTrip(p: nat)
    ensures IsPriceShape(PriceString(p))
    ensures ParsePrice(PriceString(p)) == Some(p)
  {
    var maj, min := Decimal(p / 100), TwoDigits(p % 100);
    var s := PriceString(p);
    assert s[..|s| - 3] == maj;
    assert s[|s| - 2..] == min;
    DecimalRoundTrip(p / 100);
  }

  /** Conversely, every price-shaped text is the rendering of the price it denotes. */
  lemma ParsedPriceRendersBack(s: string)
    requires ParsePrice(s).Some?
    ensures PriceString(ParsePrice(s).value) == s
  {
    var maj, min := s[..|s| - 3], s[|s| - 2..];
    var p := ParsePrice(s).value;
    TwoDigitsOfValue(min);
    CanonicalRoundTrip(maj);
    assert p / 100 == ValueOf(maj) && p % 100 == ValueOf(min);
    assert s == maj + "." + min;
  }

  // ---------------------------------------------------------------- templates

  /** A template after tokenising: literal text and {name} placeholders. */
  datatype Piece = Text(literal: string) | Field(name: string)

  type Template = seq<Piece>

  datatype FormatError = UnknownField(name: string)

  /** The template used when none is given: '${price}'. */
  const DefaultTemplate: Template := [Text("$"), Field("price")]

  predicate KnownField(name: string) {
    name == "maj" || name == "min" || name == "price"
  }

  /** The replacement text of a placeholder, when the name is one the program supplies. */
  function FieldText(p: nat, name: string): (r: Option<string>)
    ensures r.Some? <==> KnownField(name)
  {
    if name == "maj" then Some(Decimal(p / 100))
    else if name == "min" then Some(TwoDigits(p % 100))
    else if name == "price" then Some(PriceString(p))
    else None
  }

  /** The text one piece contributes, if it can be substituted. */
  function PieceText(p: nat, piece: Piece): (r: Option<string>)
    ensures r.None? <==> piece.Field? && !KnownField(piece.name)
  {
    match piece
    case Text(s) => Some(s)
    case Field(n) => FieldText(p, n)
  }

  /** format_price: substitutes the pieces from the left; the first unknown name fails. */
  function Format(p: nat, t: Template): (r: Result<string, FormatError>)
    ensures r.Success? <==> UsesKnownFields(t)
    ensures r.Failure? ==> Field(r.error.name) in t && !KnownField(r.error.name)
    decreases |t|
  {
    if t == [] then Success("")
    else
      var head := PieceText(p, t[0]);
      if head.None? then Failure(UnknownField(t[0].name))
      else match Format(p, t[1..])
        case Success(rest) => Success(head.value + rest)
        case Failure(e) => Failure(e)
  }

  predicate UsesKnownFields(t: Template) {
    forall i :: 0 <= i < |t| && t[i].Field? ==> KnownField(t[i].name)
  }

  /** Formatting a concatenation of templates concatenates the texts; the left part's error wins. */
  lemma {:induction false} FormatAppend(p: nat, t1: Template, t2: Template)
    ensures Format(p, t1 + t2) ==
      if Format(p, t1).Failure? then Format(p, t1)
      else if Format(p, t2).Failure? then Format(p, t2)
      else Success(Format(p, t1).value + Format(p, t2).value)
    decreases |t1|
  {
    if t1 == [] {
      assert t1 + t2 == t2;
      if Format(p, t2).Success? {
        assert "" + Format(p, t2).value == Format(p, t2).value;
      }
    } else {
      assert (t1 + t2)[0] == t1[0];
      assert (t1 + t2)[1..] == t1[1..] + t2;
      FormatAppend(p, t1[1..], t2);
      if Format(p, t1).Success? && Format(p, t2).Success? {
        var head := PieceText(p, t1[0]).value;
        var rest1, all2 := Format(p, t1[1..]).value, Format(p, t2).value;
        assert Format(p, t1 + t2).value == head + (rest1 + all2);
        assert head + (rest1 + all2) == (head + rest1) + all2;
      }
    }
  }

  /** The default template yields "$" and a price text that rebuilds the price. */
  lemma DefaultFormat(p: nat)
    ensures Format(p, DefaultTemplate).Success?
    ensures Format(p, DefaultTemplate).value == "$" + PriceString(p)
    ensures var r := Format(p, DefaultTemplate).value;
      r[0] == '$' && ParsePrice(r[1..]) == Some(p)
  {
    var r := Format(p, DefaultTemplate).value;
    assert r[1..] == PriceString(p);
    PriceRoundTrip(p);
  }

  /** {maj} and {min} carry the price: their digits rebuild it and {min} is two digits. */
  lemma MajMinRebuild(p: nat)
    ensures var maj, min := FieldText(p, "maj").value, FieldText(p, "min").value;
      |min| == 2 && ValueOf(maj) * 100 + ValueOf(min) == p
  {
    DecimalRoundTrip(p / 100);
  }

  /** The documented examples with the default template: 0 gives "$0.00", 299 gives "$2.99". */
  lemma DefaultFormatExamples()
    ensures Format(0, DefaultTemplate) == Success("$0.00")
    ensures Format(299, DefaultTemplate) == Success("$2.99")
  {
    DefaultFormat(0);
    DefaultFormat(299);
    assert PriceString(0) == "0.00" by {
      assert Decimal(0) == "0";
      assert TwoDigits(0) == "00";
    }
    assert "$" + "0.00" == "$0.00";
    assert PriceString(299) == "2.99" by {
      assert Decimal(2) == "2";
      assert TwoDigits(99) == "99";
    }
    assert "$" + "2.99" == "$2.99";
  }

  /** The documented example '{maj}.{min} zł' with 150 gives "1.50 zł". */
  lemma TemplateExample()
    ensures Format(150, [Field("maj"), Text("."), Field("min"), Text(" zł")]) == Success("1.50 zł")
  {
    var maj, dot, min, unit := [Field("maj")], [Text(".")], [Field("min")], [Text(" zł")];
    assert Format(150, maj) == Success("1") by {
      assert Decimal(1) == "1";
      assert "1" + "" == "1";
    }
    assert Format(150, dot) == Success(".") by { assert "." + "" == "."; }
    assert Format(150, min) == Success("50") by {
      assert TwoDigits(50) == "50";
      assert "50" + "" == "50";
    }
    assert Format(150, unit) == Success(" zł") by { assert " zł" + "" == " zł"; }
    FormatAppend(150, min, unit);
    FormatAppend(150, dot, min + unit);
    FormatAppend(150, maj, dot + (min + unit));
    assert maj + (dot + (min + unit)) == [Field("maj"), Text("."), Field("min"), Text(" zł")];
    assert "1" + ("." + ("50" + " zł")) == "1.50 zł";
  }
}
