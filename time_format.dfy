/** formatTime: a duration in seconds rendered in one of four buckets,
    "<s>s", "<m>m <s>s", "<h>h <m>m" or "<d>d <h>h", each showing the
    largest unit and the next one down. */
module TimeFormat {

  import opened Wrappers
  import opened Text

  /** "<n><unit>", as Java's string concatenation renders a long and a
      unit letter. */
  function Token(n: int, unit: char): string
  {
    IntStr(n) + [unit]
  }

  function FormatTime(seconds: int): string
  {
    if seconds < 60 then Token(seconds, 's')
    else if seconds < 3600 then
      Token(seconds / 60, 'm') + " " + Token(seconds % 60, 's')
    else if seconds < 86400 then
      Token(seconds / 3600, 'h') + " " + Token(seconds % 3600 / 60, 'm')
    else
      Token(seconds / 86400, 'd') + " " + Token(seconds % 86400 / 3600, 'h')
  }

  /** The smallest unit a bucket shows, in seconds. */
  function Granularity(seconds: int): nat
  {
    if seconds < 3600 then 1 else if seconds < 86400 then 60 else 3600
  }

  // ---------------------------------------------------------------------
  // Reading a rendering back

  predicate IsUnit(c: char) { c == 's' || c == 'm' || c == 'h' || c == 'd' }

  /** n of the unit c, in seconds. */
  function InSeconds(n: int, c: char): int
    requires IsUnit(c)
  {
    match c
    case 's' => n
    case 'm' => n * 60
    case 'h' => n * 3600
    case 'd' => n * 86400
  }

  /** Reads one "<number><unit>" token as a count of seconds. */
  function ReadToken(t: string): Option<int>
  {
    if |t| >= 2 && IsUnit(t[|t| - 1]) then
      match ReadInt(t[..|t| - 1])
      case None => None
      case Some(n) => Some(InSeconds(n, t[|t| - 1]))
    else None
  }

  /** Reads a rendering of one token, or of two tokens separated by a space,
      as the number of seconds it shows. */
  function ReadTime(r: string): Option<int>
  {
    match IndexOf(r, ' ')
    case None => ReadToken(r)
    case Some(i) =>
      match (ReadToken(r[..i]), ReadToken(r[i + 1..]))
      case (Some(a), Some(b)) => Some(a + b)
      case _ => None
  }

  /** The number in the second token, if there is one. */
  function MinorField(r: string): Option<int>
  {
    match IndexOf(r, ' ')
    case None => None
    case Some(i) =>
      var t := r[i + 1..];
      if |t| >= 1 then ReadInt(t[..|t| - 1]) else None
  }

  // ---------------------------------------------------------------------
  // Lemmas

  lemma IntStrHasNoSpace(n: int)
    ensures forall j :: 0 <= j < |IntStr(n)| ==> IntStr(n)[j] != ' '
  {
    var s := IntStr(n);
    var digits := NatStr(if n < 0 then -n else n);
    forall j | 0 <= j < |s| ensures s[j] != ' ' {
      if n < 0 && j > 0 {
        assert s[j] == digits[j - 1];
        assert IsDigit(digits[j - 1]);
      } else if n >= 0 {
        assert IsDigit(digits[j]);
      }
    }
  }

  lemma ReadTokenOf(n: int, c: char)
    requires IsUnit(c)
    ensures ReadToken(Token(n, c)) == Some(InSeconds(n, c))
    ensures Token(n, c)[..|Token(n, c)| - 1] == IntStr(n)
    ensures forall j :: 0 <= j < |Token(n, c)| ==> Token(n, c)[j] != ' '
  {
    var t := Token(n, c);
    assert t[..|t| - 1] == IntStr(n);
    IntStrRoundTrip(n);
    IntStrHasNoSpace(n);
  }

  /** A space-free first token is where a two-token rendering splits. */
  lemma SplitAtSpace(first: string, second: string)
    requires forall j :: 0 <= j < |first| ==> first[j] != ' '
    ensures var r := first + " " + second;
      IndexOf(r, ' ') == Some(|first|) && r[..|first|] == first && r[|first| + 1..] == second
  {
    IndexOfAfter(first, ' ', second);
    assert first + " " + second == first + [' '] + second;
  }

  /** The reading of "<a><u> <b><v>": the seconds both tokens show. */
  lemma ReadTwoTokens(a: int, u: char, b: int, v: char, total: int)
    requires IsUnit(u) && IsUnit(v) && InSeconds(a, u) + InSeconds(b, v) == total
    ensures ReadTime(Token(a, u) + " " + Token(b, v)) == Some(total)
  {
    ReadTokenOf(a, u);
    ReadTokenOf(b, v);
    SplitAtSpace(Token(a, u), Token(b, v));
  }

  /** The second token of "<a><u> <b><v>" holds b. */
  lemma MinorOfTwoTokens(a: int, u: char, b: int, v: char)
    requires IsUnit(u) && IsUnit(v)
    ensures MinorField(Token(a, u) + " " + Token(b, v)) == Some(b)
  {
    ReadTokenOf(a, u);
    ReadTokenOf(b, v);
    SplitAtSpace(Token(a, u), Token(b, v));
    IntStrRoundTrip(b);
  }

  /** Euclidean division by a multiple of 60 keeps the remainder mod 60. */
  lemma ModMultiple(s: int, k: nat)
    requires k > 0
    ensures s % (60 * k) % 60 == s % 60
  {
    var q, r := s / (60 * k), s % (60 * k);
    var q2, r2 := r / 60, r % 60;
    assert s == 60 * (k * q + q2) + r2;
    assert 0 <= r2 < 60;
  }

  /** The hours bucket's two fields add up to s truncated to whole
      minutes. */
  lemma HoursArith(s: int)
    requires 3600 <= s
    ensures InSeconds(s / 3600, 'h') + InSeconds(s % 3600 / 60, 'm') == s - s % 60
  {
    var r := s % 3600;
    ModMultiple(s, 60);
    assert r == r / 60 * 60 + r % 60;
    assert s == s / 3600 * 3600 + r;
  }

  lemma ModMultiple3600(q: int, r: int)
    requires 0 <= r < 3600
    ensures (3600 * q + r) % 3600 == r
  {
  }

  /** The days bucket's two fields add up to s truncated to whole hours. */
  lemma DaysArith(s: int)
    requires 86400 <= s
    ensures InSeconds(s / 86400, 'd') + InSeconds(s % 86400 / 3600, 'h') == s - s % 3600
  {
    var d, h := s / 86400, s % 86400 / 3600;
    var r := s % 86400;
    var r2 := r % 3600;
    assert s == 86400 * d + r;
    assert r == 3600 * h + r2 && 0 <= r2 < 3600;
    ModMultiple3600(24 * d + h, r2);
  }

  lemma RoundTripMinutes(s: int)
    requires 60 <= s < 3600
    ensures ReadTime(FormatTime(s)) == Some(s - s % Granularity(s))
  {
    var m, r := s / 60, s % 60;
    var shown := Token(m, 'm') + " " + Token(r, 's');
    assert ReadTime(shown) == Some(s) by {
      ReadTwoTokens(m, 'm', r, 's', s);
    }
    assert FormatTime(s) == shown;
    assert Granularity(s) == 1;
  }

  /** The hours bucket's two tokens read back as whole minutes. */
  lemma HoursTokensRead(s: int)
    requires 3600 <= s
    ensures ReadTime(Token(s / 3600, 'h') + " " + Token(s % 3600 / 60, 'm')) == Some(s - s % 60)
  {
    HoursArith(s);
    ReadTwoTokens(s / 3600, 'h', s % 3600 / 60, 'm', s - s % 60);
  }

  lemma RoundTripHours(s: int)
    requires 3600 <= s < 86400
    ensures ReadTime(FormatTime(s)) == Some(s - s % Granularity(s))
  {
    HoursTokensRead(s);
    assert FormatTime(s) == Token(s / 3600, 'h') + " " + Token(s % 3600 / 60, 'm');
    assert Granularity(s) == 60;
  }

  /** The days bucket's two tokens read back as whole hours. */
  lemma DaysTokensRead(s: int)
    requires 86400 <= s
    ensures ReadTime(Token(s / 86400, 'd') + " " + Token(s % 86400 / 3600, 'h')) == Some(s - s % 3600)
  {
    DaysArith(s);
    ReadTwoTokens(s / 86400, 'd', s % 86400 / 3600, 'h', s - s % 3600);
  }

  lemma RoundTripDays(s: int)
    requires 86400 <= s
    ensures ReadTime(FormatTime(s)) == Some(s - s % Granularity(s))
  {
    DaysTokensRead(s);
    assert FormatTime(s) == Token(s / 86400, 'd') + " " + Token(s % 86400 / 3600, 'h');
    assert Granularity(s) == 3600;
  }

  /** formatTime round-trips: the rendering reads back as the duration
      truncated to the smallest unit its bucket shows (whole seconds below an
      hour, whole minutes below a day, whole hours otherwise). */
  lemma FormatTimeRoundTrip(seconds: int)
    ensures ReadTime(FormatTime(seconds)) == Some(seconds - seconds % Granularity(seconds))
  {
    var s := seconds;
    if s < 60 {
      ReadTokenOf(s, 's');
      assert Granularity(s) == 1;
    } else if s < 3600 {
      RoundTripMinutes(s);
    } else if s < 86400 {
      RoundTripHours(s);
    } else {
      RoundTripDays(s);
    }
  }

  /** Below a minute the rendering is a single token; above it, the second
      token is a proper remainder: seconds or minutes below 60, hours below
      24. */
  lemma FormatTimeMinorBounded(seconds: int)
    ensures seconds < 60 ==> MinorField(FormatTime(seconds)).None?
    ensures seconds >= 60 ==>
      MinorField(FormatTime(seconds)).Some? &&
      0 <= MinorField(FormatTime(seconds)).value < (if seconds >= 86400 then 24 else 60)
  {
    var s := seconds;
    if s < 60 {
      ReadTokenOf(s, 's');
    } else if s < 3600 {
      MinorOfTwoTokens(s / 60, 'm', s % 60, 's');
    } else if s < 86400 {
      MinorOfTwoTokens(s / 3600, 'h', s % 3600 / 60, 'm');
    } else {
      MinorOfTwoTokens(s / 86400, 'd', s % 86400 / 3600, 'h');
    }
  }
}
