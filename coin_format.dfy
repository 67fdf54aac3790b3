/** formatCoin: the plugin renders every amount with
    DecimalFormat("0.########") in the US locale, rounding DOWN (toward
    zero), with no minimum and at most eight fraction digits, and then
    appends ".0" when the result has no decimal point.  A null amount
    renders as "0". */
module CoinFormat {

  import opened Wrappers
  import opened Text
  import opened Decimals

  /** The most fraction digits the pattern shows. */
  const MaxFractionDigits: nat := 8

  /** 10^8: the number of units of 10^-8 in one coin. */
  const Unit: nat := 100000000

  /** The magnitude of an amount in units of 10^-8, truncated toward zero
      (RoundingMode.DOWN). */
  function TruncMagnitude(mag: nat, scale: nat): nat
  {
    if scale <= MaxFractionDigits then Shift(mag, MaxFractionDigits - scale)
    else DropDigits(mag, scale - MaxFractionDigits)
  }

  /** a with its k lowest decimal digits dropped. */
  function DropDigits(a: nat, k: nat): nat
  {
    if k == 0 then a else DropDigits(a / 10, k - 1)
  }

  /** The amount truncated toward zero to eight fraction digits, counted in
      units of 10^-8. */
  function TruncUnits(d: Decimal): int
  {
    if d.unscaled < 0 then -(TruncMagnitude(-d.unscaled, d.scale) as int)
    else TruncMagnitude(d.unscaled, d.scale)
  }

  /** The k lowest decimal digits of f, zero-padded on the left. */
  function PadDigits(f: nat, k: nat): (r: string)
    ensures |r| == k && AllDigits(r)
  {
    if k == 0 then [] else PadDigits(f / 10, k - 1) + [DigitChar(f % 10)]
  }

  /** Drops trailing '0' characters: the pattern's optional '#' digits. */
  function TrimZeros(s: string): (r: string)
    ensures |r| <= |s| && r == s[..|r|]
    ensures r == [] || r[|r| - 1] != '0'
  {
    if s != [] && s[|s| - 1] == '0' then TrimZeros(s[..|s| - 1]) else s
  }

  /** The fraction digits shown for a fraction of fp units of 10^-m: at
      most m digits, trailing zeros dropped, "0" when nothing is left. */
  function FractionDigits(fp: nat, m: nat): string
  {
    ShownFraction(PadDigits(fp, m))
  }

  /** The digits s with trailing zeros dropped, or "0" when none is left. */
  function ShownFraction(s: string): string
  {
    var t := TrimZeros(s);
    if t == [] then "0" else t
  }

  /** DecimalFormat's digits followed by the ".0" suffix when no point was
      produced: "<integer part>.<fraction digits>". */
  function FormatMagnitude(u: nat): string
  {
    NatStr(u / Unit) + "." + FractionDigits(u % Unit, MaxFractionDigits)
  }

  /** The rendering of a non-null amount.  The sign comes from the amount
      itself, so a negative amount that truncates to zero keeps its minus
      sign ("-0.0"), as DecimalFormat does. */
  function FormatAmount(d: Decimal): string
  {
    if d.unscaled < 0 then "-" + FormatMagnitude(TruncMagnitude(-d.unscaled, d.scale))
    else FormatMagnitude(TruncMagnitude(d.unscaled, d.scale))
  }

  /** formatCoin(amount). */
  function FormatCoin(amount: Option<Decimal>): string
  {
    match amount
    case None => "0"
    case Some(d) => FormatAmount(d)
  }

  // ---------------------------------------------------------------------
  // Reading a rendering back

  /** Reads "<digits>.<digits>" as the decimal it denotes, with one unit of
      scale per fraction digit. */
  function ParseUnsigned(s: string): Option<Decimal>
  {
    match IndexOf(s, '.')
    case None => None
    case Some(i) => ParseParts(s[..i], s[i + 1..])
  }

  /** The decimal denoted by an integer part and a fraction part, each of at
      least one digit. */
  function ParseParts(ip: string, fp: string): Option<Decimal>
  {
    if |ip| >= 1 && AllDigits(ip) && |fp| >= 1 && AllDigits(fp)
    then Some(Decimal(Shift(DigitsVal(ip), |fp|) + DigitsVal(fp), |fp|))
    else None
  }

  /** Reads an optionally negated "<digits>.<digits>". */
  function ParseCoin(s: string): Option<Decimal>
  {
    if |s| >= 1 && s[0] == '-' then
      match ParseUnsigned(s[1..])
      case None => None
      case Some(p) => Some(Decimal(-p.unscaled, p.scale))
    else ParseUnsigned(s)
  }

  /** The text after the first '.', or "" when there is none. */
  function FractionPart(s: string): string
  {
    match IndexOf(s, '.')
    case None => []
    case Some(i) => s[i + 1..]
  }

  // ---------------------------------------------------------------------
  // Lemmas

  /** Dropping k digits truncates: the result, scaled back up, is the
      largest multiple of 10^k not above a. */
  lemma {:induction false} DropDigitsTruncates(a: nat, k: nat)
    ensures Shift(DropDigits(a, k), k) <= a < Shift(DropDigits(a, k) + 1, k)
  {
    if k > 0 {
      DropDigitsTruncates(a / 10, k - 1);
      var q := DropDigits(a / 10, k - 1);
      assert Shift(q, k) == Shift(q, k - 1) * 10;
      assert Shift(q + 1, k) == Shift(q + 1, k - 1) * 10;
    }
  }

  /** Below eight fraction digits the magnitude is exact; beyond them it is
      truncated toward zero. */
  lemma TruncMagnitudeValue(mag: nat, scale: nat)
    ensures scale <= MaxFractionDigits ==>
      TruncMagnitude(mag, scale) == ValueAt(Decimal(mag, scale), MaxFractionDigits)
    ensures scale > MaxFractionDigits ==>
      var u := TruncMagnitude(mag, scale);
      Shift(u, scale - MaxFractionDigits) <= mag < Shift(u + 1, scale - MaxFractionDigits)
  {
    if scale > MaxFractionDigits {
      DropDigitsTruncates(mag, scale - MaxFractionDigits);
    }
  }

  lemma UnitIsPow10()
    ensures Pow10(MaxFractionDigits) == Unit
  {
  }

  lemma {:induction false} PadDigitsValue(f: nat, k: nat)
    requires f < Pow10(k)
    ensures DigitsVal(PadDigits(f, k)) == f
  {
    if k > 0 {
      var p := PadDigits(f / 10, k - 1);
      assert f / 10 < Pow10(k - 1);
      PadDigitsValue(f / 10, k - 1);
      assert (p + [DigitChar(f % 10)])[..|p|] == p;
    }
  }

  /** Trimming trailing zeros divides the digit value by the matching power
      of ten. */
  lemma {:induction false} TrimZerosValue(s: string)
    requires AllDigits(s)
    ensures AllDigits(TrimZeros(s))
    ensures Shift(DigitsVal(TrimZeros(s)), |s| - |TrimZeros(s)|) == DigitsVal(s)
  {
    if s != [] && s[|s| - 1] == '0' {
      var p := s[..|s| - 1];
      TrimZerosValue(p);
      var t := TrimZeros(p);
      assert TrimZeros(s) == t;
      assert |s| - |t| == (|p| - |t|) + 1;
    }
  }

  /** The shown digits read back as the value of s, scaled down by one
      power of ten per dropped digit. */
  lemma ShownFractionValue(s: string)
    requires 1 <= |s| && AllDigits(s)
    ensures var f := ShownFraction(s);
      1 <= |f| <= |s| && AllDigits(f) &&
      Shift(DigitsVal(f), |s| - |f|) == DigitsVal(s)
  {
    TrimZerosValue(s);
    var t := TrimZeros(s);
    if t == [] {
      assert ShownFraction(s) == "0";
      assert DigitsVal("0") == 0 && DigitsVal(t) == 0;
    } else {
      assert ShownFraction(s) == t;
    }
  }

  /** The fraction digits read back as exactly fp units of 10^-m. */
  lemma FractionDigitsValue(fp: nat, m: nat)
    requires 1 <= m && fp < Pow10(m)
    ensures var f := FractionDigits(fp, m);
      1 <= |f| <= m && AllDigits(f) &&
      Shift(DigitsVal(f), m - |f|) == fp
  {
    PadDigitsValue(fp, m);
    ShownFractionValue(PadDigits(fp, m));
  }

  lemma NatStrHasNoDot(n: nat)
    ensures forall j :: 0 <= j < |NatStr(n)| ==> NatStr(n)[j] != '.'
  {
    var s := NatStr(n);
    forall j | 0 <= j < |s| ensures s[j] != '.' {
      assert IsDigit(s[j]);
    }
  }

  /** n units and a fraction of a units of 10^-k, counted in units of
      10^-m. */
  lemma RenderValue(n: nat, a: nat, k: nat, m: nat, fp: nat)
    requires k <= m && Shift(a, m - k) == fp
    ensures ValueAt(Decimal(Shift(n, k) + a, k), m) == Shift(n, m) + fp
  {
    ShiftSum(Shift(n, k), a, m - k);
    ShiftAdd(n, k, m - k);
  }

  /** "<digits>.<digits>" reads back with one unit of scale per fraction
      digit. */
  lemma ParseUnsignedOf(ip: string, f: string)
    requires |ip| >= 1 && AllDigits(ip) && |f| >= 1 && AllDigits(f)
    ensures ParseUnsigned(ip + "." + f) == ParseParts(ip, f)
  {
    var s := ip + "." + f;
    forall j | 0 <= j < |ip| ensures ip[j] != '.' {
      assert IsDigit(ip[j]);
    }
    IndexOfAfter(ip, '.', f);
    assert s == ip + ['.'] + f;
    assert s[..|ip|] == ip && s[|ip| + 1..] == f;
  }

  /** "<n>.<f>", for fraction digits f worth fp units of 10^-m, reads back
      as n units plus fp units of 10^-m. */
  lemma RenderDigitsRoundTrip(n: nat, f: string, m: nat, fp: nat)
    requires 1 <= |f| <= m && AllDigits(f) && Shift(DigitsVal(f), m - |f|) == fp
    ensures var p := ParseUnsigned(NatStr(n) + "." + f);
      p.Some? && 1 <= p.value.scale <= m &&
      ValueAt(p.value, m) == Shift(n, m) + fp
  {
    ParseUnsignedOf(NatStr(n), f);
    NatStrRoundTrip(n);
    RenderValue(n, DigitsVal(f), |f|, m, fp);
  }

  /** "<n>.<fraction digits of fp>" reads back as n units plus fp units of
      10^-m. */
  lemma RenderRoundTrip(n: nat, fp: nat, m: nat)
    requires 1 <= m && fp < Pow10(m)
    ensures var p := ParseUnsigned(NatStr(n) + "." + FractionDigits(fp, m));
      p.Some? && 1 <= p.value.scale <= m &&
      ValueAt(p.value, m) == Shift(n, m) + fp
  {
    FractionDigitsValue(fp, m);
    RenderDigitsRoundTrip(n, FractionDigits(fp, m), m, fp);
  }

  /** Reading FormatMagnitude(u) back gives a decimal with at most eight
      fraction digits whose value is exactly u units of 10^-8. */
  lemma MagnitudeRoundTrip(u: nat)
    ensures var p := ParseUnsigned(FormatMagnitude(u));
      p.Some? && 1 <= p.value.scale <= MaxFractionDigits &&
      ValueAt(p.value, MaxFractionDigits) == u
  {
    UnitIsPow10();
    RenderRoundTrip(u / Unit, u % Unit, MaxFractionDigits);
    ShiftIsProduct(u / Unit, MaxFractionDigits);
  }

  /** A rendering that starts with a digit is read without a sign. */
  lemma ParseCoinUnsigned(s: string)
    requires |s| >= 1 && IsDigit(s[0])
    ensures ParseCoin(s) == ParseUnsigned(s)
  {
  }

  /** A rendering with a minus in front reads as the negation. */
  lemma ParseCoinNegated(body: string)
    requires var p := ParseUnsigned(body); p.Some? && p.value.scale <= MaxFractionDigits
    ensures var q := ParseCoin("-" + body);
      q.Some? && q.value.scale <= MaxFractionDigits &&
      ValueAt(q.value, MaxFractionDigits) == -ValueAt(ParseUnsigned(body).value, MaxFractionDigits)
  {
    assert ("-" + body)[1..] == body;
    NegateValue(ParseUnsigned(body).value, MaxFractionDigits);
  }

  /** The truncated units of an amount are its sign applied to the
      truncated magnitude. */
  lemma TruncUnitsSign(d: Decimal)
    ensures d.unscaled < 0 ==> TruncUnits(d) == -(TruncMagnitude(-d.unscaled, d.scale) as int)
    ensures d.unscaled >= 0 ==> TruncUnits(d) == TruncMagnitude(d.unscaled, d.scale)
  {
  }

  lemma NegativeRoundTrip(d: Decimal)
    requires d.unscaled < 0
    ensures var p := ParseCoin(FormatCoin(Some(d)));
      p.Some? && p.value.scale <= MaxFractionDigits &&
      ValueAt(p.value, MaxFractionDigits) == TruncUnits(d)
  {
    var u := TruncMagnitude(-d.unscaled, d.scale);
    var body := FormatMagnitude(u);
    FormatCoinSign(d);
    TruncUnitsSign(d);
    MagnitudeRoundTrip(u);
    ParseCoinNegated(body);
  }

  lemma NonNegativeRoundTrip(d: Decimal)
    requires d.unscaled >= 0
    ensures var p := ParseCoin(FormatCoin(Some(d)));
      p.Some? && p.value.scale <= MaxFractionDigits &&
      ValueAt(p.value, MaxFractionDigits) == TruncUnits(d)
  {
    var u := TruncMagnitude(d.unscaled, d.scale);
    FormatCoinSign(d);
    TruncUnitsSign(d);
    MagnitudeRoundTrip(u);
    MagnitudeStartsWithDigit(u);
    ParseCoinUnsigned(FormatMagnitude(u));
  }

  /** formatCoin round-trips: reading the rendering of any amount back gives
      the amount truncated toward zero to eight fraction digits. */
  lemma FormatCoinRoundTrip(d: Decimal)
    ensures var p := ParseCoin(FormatCoin(Some(d)));
      p.Some? && p.value.scale <= MaxFractionDigits &&
      ValueAt(p.value, MaxFractionDigits) == TruncUnits(d)
  {
    if d.unscaled < 0 {
      NegativeRoundTrip(d);
    } else {
      NonNegativeRoundTrip(d);
    }
  }

  lemma MagnitudeStartsWithDigit(u: nat)
    ensures |FormatMagnitude(u)| >= 1 && IsDigit(FormatMagnitude(u)[0])
  {
    var ip := NatStr(u / Unit);
    assert IsDigit(ip[0]);
  }

  lemma NegateValue(p: Decimal, m: nat)
    requires p.scale <= m
    ensures ValueAt(Decimal(-p.unscaled, p.scale), m) == -ValueAt(p, m)
  {
    ShiftSum(p.unscaled, -p.unscaled, m - p.scale);
  }

  /** "<n>.<fraction digits of fp>" has one '.', and after it one to eight
      digits without a trailing zero unless they are the single "0". */
  lemma RenderShape(n: nat, fp: nat, m: nat)
    requires 1 <= m && fp < Pow10(m)
    ensures var s := NatStr(n) + "." + FractionDigits(fp, m);
      var f := FractionDigits(fp, m);
      CountChar(s, '.') == 1 &&
      IndexOf(s, '.') == Some(|NatStr(n)|) && s[|NatStr(n)| + 1..] == f &&
      1 <= |f| <= m && AllDigits(f) &&
      (f[|f| - 1] == '0' ==> f == "0")
  {
    var ip := NatStr(n);
    var f := FractionDigits(fp, m);
    var s := ip + "." + f;
    FractionDigitsValue(fp, m);
    NatStrHasNoDot(n);
    forall j | 0 <= j < |f| ensures f[j] != '.' {
      assert IsDigit(f[j]);
    }
    CountCharAbsent(ip, '.');
    CountCharAbsent(f, '.');
    CountCharAppend(ip, ".", '.');
    CountCharAppend(ip + ".", f, '.');
    assert CountChar(".", '.') == 1;
    IndexOfAfter(ip, '.', f);
    assert s == ip + ['.'] + f;
    assert s[|ip| + 1..] == f;
  }

  /** A prefix without a '.' changes neither the number of points nor the
      text after the first one. */
  lemma PrefixKeepsFraction(pre: string, body: string)
    requires forall j :: 0 <= j < |pre| ==> pre[j] != '.'
    ensures CountChar(pre + body, '.') == CountChar(body, '.')
    ensures FractionPart(pre + body) == FractionPart(body)
  {
    CountCharAppend(pre, body, '.');
    CountCharAbsent(pre, '.');
    IndexOfPrefix(pre, body, '.');
    if IndexOf(body, '.').Some? {
      var k := IndexOf(body, '.').value;
      assert (pre + body)[|pre| + k + 1..] == body[k + 1..];
    }
  }

  /** The rendering of a magnitude has one '.', followed by one to eight
      digits that end in a non-zero digit unless they are the forced "0". */
  lemma MagnitudeShape(u: nat)
    ensures WellShaped(FormatMagnitude(u))
  {
    UnitIsPow10();
    RenderShape(u / Unit, u % Unit, MaxFractionDigits);
  }

  /** The shape of a rendering, whose fraction part is f. */
  predicate WellShaped(s: string)
  {
    var f := FractionPart(s);
    CountChar(s, '.') == 1 &&
    1 <= |f| <= MaxFractionDigits && AllDigits(f) &&
    (f[|f| - 1] == '0' ==> f == "0")
  }

  /** A minus sign in front keeps a rendering well shaped. */
  lemma NegatedShape(body: string)
    requires WellShaped(body)
    ensures WellShaped("-" + body)
  {
    PrefixKeepsFraction("-", body);
  }

  /** The rendering of an amount is its sign followed by the rendering of
      its truncated magnitude. */
  lemma FormatCoinSign(d: Decimal)
    ensures d.unscaled < 0 ==> FormatCoin(Some(d)) == "-" + FormatMagnitude(TruncMagnitude(-d.unscaled, d.scale))
    ensures d.unscaled >= 0 ==> FormatCoin(Some(d)) == FormatMagnitude(TruncMagnitude(d.unscaled, d.scale))
  {
    if d.unscaled < 0 {
      assert FormatCoin(Some(d)) == FormatAmount(d);
    } else {
      assert FormatCoin(Some(d)) == FormatAmount(d);
    }
  }

  lemma NegativeShape(d: Decimal)
    requires d.unscaled < 0
    ensures WellShaped(FormatCoin(Some(d)))
  {
    var u := TruncMagnitude(-d.unscaled, d.scale);
    MagnitudeShape(u);
    NegatedShape(FormatMagnitude(u));
    FormatCoinSign(d);
  }

  /** The rendering of any amount has exactly one '.', followed by one to
      eight digits that end in a non-zero digit unless they are the forced
      "0". */
  lemma FormatCoinShape(d: Decimal)
    ensures var s := FormatCoin(Some(d));
      var f := FractionPart(s);
      CountChar(s, '.') == 1 &&
      1 <= |f| <= MaxFractionDigits && AllDigits(f) &&
      (f[|f| - 1] == '0' ==> f == "0")
  {
    if d.unscaled < 0 {
      NegativeShape(d);
    } else {
      MagnitudeShape(TruncMagnitude(d.unscaled, d.scale));
      assert FormatCoin(Some(d)) == FormatMagnitude(TruncMagnitude(d.unscaled, d.scale));
    }
  }

  /** A null amount renders as "0", the only rendering without a '.'. */
  lemma FormatCoinNull()
    ensures FormatCoin(None) == "0" && CountChar(FormatCoin(None), '.') == 0
  {
    assert "0"[1..] == [];
  }
}
