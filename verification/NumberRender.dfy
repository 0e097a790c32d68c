/** Decimals and intervals as text, and reading the text back. */
module NumberRender {
  import opened Options
  import opened Sequences
  import opened Text

  // ---- decimals ----

  function Abs(v: int): nat {
    if v < 0 then -v else v
  }

  /** The digits of n with the point scale places from their end. */
  function Pointed(digits: string, scale: nat): string {
    if scale == 0 then digits
    else if |digits| > scale then digits[..|digits| - scale] + "." + digits[|digits| - scale..]
    else "0" + "." + (Zeros(scale - |digits|) + digits)
  }

  /** A missing value prints as 0. */
  function FormatDecimal(value: Option<int>, scale: nat): string {
    match value
    case None => "0"
    case Some(v) => if v < 0 then "-" + Pointed(Dec(-v), scale) else Pointed(Dec(v), scale)
  }

  /** A decimal number as read: its sign, its digits as one number, and how many of them follow the point. */
  datatype Decimal = Decimal(negative: bool, unscaled: nat, scale: nat)

  function ReadUnsigned(s: string, negative: bool): Option<Decimal> {
    match Index(s, ".", 0)
    case None => if s != "" && Digits(s) then Some(Decimal(negative, Val(s), 0)) else None
    case Some(i) =>
      if i > 0 && Digits(s[..i]) && i + 1 < |s| && Digits(s[i + 1..]) then
        Some(Decimal(negative, Shift(Val(s[..i]), |s| - i - 1) + Val(s[i + 1..]), |s| - i - 1))
      else None
  }

  function ReadDecimal(s: string): Option<Decimal> {
    if s != "" && s[0] == '-' then ReadUnsigned(s[1..], true) else ReadUnsigned(s, false)
  }

  lemma PointOnlyAtPoint(s: string, j: nat)
    requires j < |s|
    ensures At(s, ".", j) <==> s[j] == '.'
  {
    assert s[j..j + 1] == [s[j]];
  }

  lemma PointAt(whole: string, frac: string)
    requires Digits(whole)
    ensures Index(whole + "." + frac, ".", 0) == Some(|whole|)
  {
    var s := whole + "." + frac;
    IndexIsFirst(s, ".", 0);
    PointOnlyAtPoint(s, |whole|);
    forall j | 0 <= j < |whole| ensures !At(s, ".", j) {
      PointOnlyAtPoint(s, j);
      assert s[j] == whole[j];
    }
  }

  lemma NoPoint(s: string)
    requires Digits(s)
    ensures Index(s, ".", 0) == None
  {
    IndexIsFirst(s, ".", 0);
    forall j | 0 <= j < |s| ensures !At(s, ".", j) {
      PointOnlyAtPoint(s, j);
    }
  }

  lemma ReadsParts(whole: string, frac: string, negative: bool)
    requires Digits(whole) && Digits(frac) && whole != "" && frac != ""
    ensures ReadUnsigned(whole + "." + frac, negative) == Some(Decimal(negative, Val(whole + frac), |frac|))
  {
    var s := whole + "." + frac;
    PointAt(whole, frac);
    assert s[..|whole|] == whole && s[|whole| + 1..] == frac;
    ValAppend(whole, frac);
  }

  lemma ZeroInFront(zero: string, s: string)
    requires zero == "0" && Digits(s)
    ensures Digits(zero) && Val(zero + s) == Val(s)
  {
    assert zero[..0] == "" && Val(zero) == 0;
    ValAppend(zero, s);
  }

  lemma ReadsFraction(zero: string, frac: string, negative: bool)
    requires zero == "0" && Digits(frac) && frac != ""
    ensures ReadUnsigned(zero + "." + frac, negative) == Some(Decimal(negative, Val(frac), |frac|))
  {
    ZeroInFront(zero, frac);
    ReadsParts(zero, frac, negative);
  }

  lemma ReadsFractionAs(zero: string, frac: string, n: nat, k: nat, negative: bool)
    requires zero == "0" && Digits(frac) && frac != "" && Val(frac) == n && |frac| == k
    ensures ReadUnsigned(zero + "." + frac, negative) == Some(Decimal(negative, n, k))
  {
    ReadsFraction(zero, frac, negative);
  }

  lemma ReadsCut(digits: string, scale: nat, negative: bool)
    requires Digits(digits) && 0 < scale < |digits|
    ensures ReadUnsigned(digits[..|digits| - scale] + "." + digits[|digits| - scale..], negative) ==
            Some(Decimal(negative, Val(digits), scale))
  {
    var k := |digits| - scale;
    assert digits == digits[..k] + digits[k..];
    ReadsParts(digits[..k], digits[k..], negative);
  }

  lemma ReadsPointed(digits: string, scale: nat, negative: bool)
    requires Digits(digits) && digits != ""
    ensures ReadUnsigned(Pointed(digits, scale), negative) == Some(Decimal(negative, Val(digits), scale))
  {
    if scale == 0 {
      NoPoint(digits);
    } else if scale < |digits| {
      ReadsCut(digits, scale, negative);
    } else {
      PaddingCountsNothing(scale - |digits|, digits);
      ReadsFractionAs("0", Zeros(scale - |digits|) + digits, Val(digits), scale, negative);
    }
  }

  lemma PointedStartsWithDigit(digits: string, scale: nat)
    requires Digits(digits) && digits != ""
    ensures Pointed(digits, scale) != "" && IsDigit(Pointed(digits, scale)[0])
  {
  }

  lemma SignReads(body: string, negative: bool)
    requires body != "" && IsDigit(body[0])
    ensures ReadDecimal(if negative then "-" + body else body) == ReadUnsigned(body, negative)
  {
    assert ("-" + body)[1..] == body;
  }

  lemma {:induction false} FormatIs(v: int, scale: nat, body: string)
    requires body == Pointed(Dec(Abs(v)), scale)
    ensures FormatDecimal(Some(v), scale) == if v < 0 then "-" + body else body
  {
  }

  lemma {:induction false} BodyReads(digits: string, n: nat, scale: nat, negative: bool, body: string)
    requires Digits(digits) && digits != "" && Val(digits) == n && body == Pointed(digits, scale)
    ensures ReadDecimal(if negative then "-" + body else body) == Some(Decimal(negative, n, scale))
  {
    ReadsPointed(digits, scale, negative);
    PointedStartsWithDigit(digits, scale);
    SignReads(body, negative);
  }

  /** Reading back gives the sign, exactly Value / 10^Scale, and exactly Scale digits after the point. */
  lemma {:induction false} DecimalRoundTrip(v: int, scale: nat)
    ensures ReadDecimal(FormatDecimal(Some(v), scale)) == Some(Decimal(v < 0, Abs(v), scale))
  {
    var digits := Dec(Abs(v));
    ValDec(Abs(v));
    FormatIs(v, scale, Pointed(digits, scale));
    BodyReads(digits, Abs(v), scale, v < 0, Pointed(digits, scale));
  }

  // ---- intervals ----

  datatype Interval = Interval(months: int, days: int, micros: int)

  /** The program's division, which rounds toward zero. */
  function Quo(a: int, b: int): int
    requires b > 0
  {
    if a >= 0 then a / b else -((-a) / b)
  }

  /** Hours, minutes, seconds and microseconds of a span. */
  datatype Clock = Clock(hours: int, minutes: int, seconds: int, frac: int)

  function MicrosOf(c: Clock): int {
    c.hours * 3_600_000_000 + c.minutes * 60_000_000 + c.seconds * 1_000_000 + c.frac
  }

  /** A number as printed, or a character that is part of no number. */
  datatype Token = Num(negative: bool, digits: string) | Mark(c: char)

  function Spelled(t: Token): string {
    match t
    case Num(negative, digits) => if negative then "-" + digits else digits
    case Mark(c) => [c]
  }

  function Flatten(ts: seq<Token>): string {
    if ts == [] then "" else Spelled(ts[0]) + Flatten(ts[1..])
  }

  /** %d. */
  function Signed(n: int): Token {
    Num(n < 0, Dec(Abs(n)))
  }

  function TrimZeros(s: string): (r: string)
    ensures r <= s
  {
    if s != "" && s[|s| - 1] == '0' then TrimZeros(s[..|s| - 1]) else s
  }

  /** %06d without its trailing zeros; the width counts the sign. */
  function Fraction(frac: int): Token {
    Num(frac < 0, TrimZeros(Padded(Abs(frac), if frac < 0 then 5 else 6)))
  }

  function Ending(frac: int): seq<Token> {
    if frac == 0 then [Mark('S')] else [Mark('.'), Fraction(frac), Mark('S')]
  }

  function Tokens(years: int, months: int, days: int, c: Clock): seq<Token> {
    [Mark('P'), Signed(years), Mark('Y'), Signed(months), Mark('M'), Signed(days), Mark('D'), Mark('T'),
     Signed(c.hours), Mark('H'), Signed(c.minutes), Mark('M'), Signed(c.seconds)] + Ending(c.frac)
  }

  function ClockOf(micros: int): (c: Clock)
    ensures MicrosOf(c) == micros
    ensures micros >= 0 ==> c.hours >= 0 && 0 <= c.minutes < 60 && 0 <= c.seconds < 60 && 0 <= c.frac < 1_000_000
    ensures micros < 0 ==> c.hours <= 0 && -60 < c.minutes <= 0 && -60 < c.seconds <= 0 && -1_000_000 < c.frac <= 0
  {
    var hours := Quo(micros, 3_600_000_000);
    var afterHours := micros - hours * 3_600_000_000;
    var minutes := Quo(afterHours, 60_000_000);
    var afterMinutes := afterHours - minutes * 60_000_000;
    var seconds := Quo(afterMinutes, 1_000_000);
    Clock(hours, minutes, seconds, afterMinutes - seconds * 1_000_000)
  }

  function IntervalTokens(iv: Interval): seq<Token> {
    var years := Quo(iv.months, 12);
    Tokens(years, iv.months - years * 12, iv.days, ClockOf(iv.micros))
  }

  /** One sign throughout, and each part within its unit: the parts spelled are the only ones to come to the months and
      microseconds of the interval. */
  predicate Divides(iv: Interval, years: int, months: int, c: Clock) {
    && years * 12 + months == iv.months && -12 < months < 12
    && (iv.months >= 0 ==> years >= 0 && months >= 0) && (iv.months <= 0 ==> years <= 0 && months <= 0)
    && MicrosOf(c) == iv.micros
    && -60 < c.minutes < 60 && -60 < c.seconds < 60 && -1_000_000 < c.frac < 1_000_000
    && (iv.micros >= 0 ==> c.hours >= 0 && c.minutes >= 0 && c.seconds >= 0 && c.frac >= 0)
    && (iv.micros <= 0 ==> c.hours <= 0 && c.minutes <= 0 && c.seconds <= 0 && c.frac <= 0)
  }

  /** A division into such parts spells the interval exactly if it is the one the program makes. */
  lemma SpelledPartsIff(iv: Interval, years: int, months: int, c: Clock)
    ensures Divides(iv, years, months, c) <==>
            years == Quo(iv.months, 12) && months == iv.months - years * 12 && c == ClockOf(iv.micros)
    ensures Divides(iv, years, months, c) ==> IntervalTokens(iv) == Tokens(years, months, iv.days, c)
  {
    if Divides(iv, years, months, c) {
      SameClock(iv.micros, c);
    }
  }

  lemma SameClock(micros: int, c: Clock)
    requires MicrosOf(c) == micros
    requires -60 < c.minutes < 60 && -60 < c.seconds < 60 && -1_000_000 < c.frac < 1_000_000
    requires micros >= 0 ==> c.hours >= 0 && c.minutes >= 0 && c.seconds >= 0 && c.frac >= 0
    requires micros <= 0 ==> c.hours <= 0 && c.minutes <= 0 && c.seconds <= 0 && c.frac <= 0
    ensures c == ClockOf(micros)
  {
  }

  lemma FlattenFirst(ts: seq<Token>, us: seq<Token>)
    requires ts != []
    ensures Flatten(ts + us) == Spelled(ts[0]) + Flatten(ts[1..] + us)
  {
    assert (ts + us)[1..] == ts[1..] + us;
  }

  lemma {:induction false} FlattenAppend(ts: seq<Token>, us: seq<Token>)
    ensures Flatten(ts + us) == Flatten(ts) + Flatten(us)
  {
    if ts == [] {
      assert ts + us == us;
    } else {
      FlattenAppend(ts[1..], us);
      FlattenFirst(ts, us);
      Assoc(Spelled(ts[0]), Flatten(ts[1..]), Flatten(us));
    }
  }

  method WriteAll(ts: seq<Token>) returns (b: string)
    ensures b == Flatten(ts)
  {
    b := "";
    for i := 0 to |ts|
      invariant b == Flatten(ts[..i])
    {
      assert ts[..i + 1] == ts[..i] + [ts[i]] && [ts[i]][1..] == [];
      FlattenAppend(ts[..i], [ts[i]]);
      b := b + Spelled(ts[i]);
    }
    assert ts[..|ts|] == ts;
  }

  method SplitClock(span: int) returns (c: Clock)
    ensures c == ClockOf(span)
  {
    var micros := span;
    var hours := Quo(micros, 3_600_000_000);
    micros := micros - hours * 3_600_000_000;
    var minutes := Quo(micros, 60_000_000);
    micros := micros - minutes * 60_000_000;
    var seconds := Quo(micros, 1_000_000);
    c := Clock(hours, minutes, seconds, micros - seconds * 1_000_000);
  }

  method FormatInterval(iv: Interval) returns (b: string)
    ensures b == Flatten(IntervalTokens(iv))
  {
    var years := Quo(iv.months, 12);
    var c := SplitClock(iv.micros);
    b := WriteAll(Tokens(years, iv.months - years * 12, iv.days, c));
  }

  // ---- reading an interval ----

  function RunLength(s: string): (n: nat)
    ensures n <= |s| && Digits(s[..n]) && (n < |s| ==> !IsDigit(s[n]))
  {
    if s == "" || !IsDigit(s[0]) then 0
    else
      var n := RunLength(s[1..]);
      assert s[..n + 1] == [s[0]] + s[1..][..n];
      n + 1
  }

  /** The longest numbers, signs included, and the characters between them. */
  function Lex(s: string): seq<Token> {
    if s == "" then []
    else
      var sign := if s[0] == '-' then 1 else 0;
      var n := RunLength(s[sign..]);
      if n > 0 then [Num(sign == 1, s[sign..sign + n])] + Lex(s[sign + n..]) else [Mark(s[0])] + Lex(s[1..])
  }

  predicate Lexical(t: Token) {
    match t
    case Num(_, digits) => digits != "" && Digits(digits)
    case Mark(c) => c != '-' && !IsDigit(c)
  }

  /** Tokens whose text shows where each one ends. */
  predicate Separated(ts: seq<Token>) {
    && (forall i :: 0 <= i < |ts| ==> Lexical(ts[i]))
    && (forall i :: 0 <= i < |ts| - 1 ==> !(ts[i].Num? && ts[i + 1].Num?))
  }

  lemma {:induction false} RunIs(digits: string, rest: string)
    requires Digits(digits) && (rest != "" ==> !IsDigit(rest[0]))
    ensures RunLength(digits + rest) == |digits|
  {
    if digits == "" {
      assert digits + rest == rest;
    } else {
      assert (digits + rest)[1..] == digits[1..] + rest;
      RunIs(digits[1..], rest);
    }
  }

  lemma {:induction false} LexRun(s: string, sign: string, digits: string, rest: string)
    requires sign + digits + rest == s != "" && sign == if s[0] == '-' then "-" else ""
    requires s[|sign|..] == digits + rest && RunLength(digits + rest) == |digits| > 0
    requires s[|sign|..|sign| + |digits|] == digits && s[|sign| + |digits|..] == rest
    ensures Lex(s) == [Num(sign != "", digits)] + Lex(rest)
  {
  }

  lemma {:induction false} LexNumber(s: string, negative: bool, digits: string, rest: string)
    requires digits != "" && Digits(digits) && (rest != "" ==> !IsDigit(rest[0]))
    requires s == Spelled(Num(negative, digits)) + rest
    ensures Lex(s) == [Num(negative, digits)] + Lex(rest)
  {
    var sign := if negative then "-" else "";
    assert sign + digits == Spelled(Num(negative, digits));
    RunIs(digits, rest);
    Parts(sign, digits, rest);
    LexRun(s, sign, digits, rest);
  }

  /** Separated tokens can be read back from their text. */
  lemma {:induction false} LexFlatten(ts: seq<Token>)
    requires Separated(ts)
    ensures Lex(Flatten(ts)) == ts
  {
    if ts != [] {
      var rest := Flatten(ts[1..]);
      var s := Flatten(ts);
      LexFlatten(ts[1..]);
      assert ts == [ts[0]] + ts[1..];
      if ts[0].Num? {
        if |ts| > 1 {
          assert ts[1].Mark? && rest[0] == ts[1].c && Lexical(ts[1]);
        }
        LexNumber(s, ts[0].negative, ts[0].digits, rest);
      } else {
        assert s[0] == ts[0].c && s[1..] == rest && s[0..] == s;
        assert RunLength(s) == 0;
      }
    }
  }

  function Number(t: Token): int
    requires t.Num? && Digits(t.digits)
  {
    var v: int := Val(t.digits);
    if t.negative then -v else v
  }

  predicate NumAt(ts: seq<Token>, i: nat) {
    i < |ts| && ts[i].Num? && Digits(ts[i].digits)
  }

  predicate Shape(ts: seq<Token>) {
    && |ts| >= 13
    && ts[0] == Mark('P') && NumAt(ts, 1) && ts[2] == Mark('Y') && NumAt(ts, 3) && ts[4] == Mark('M') && NumAt(ts, 5)
    && ts[6] == Mark('D') && ts[7] == Mark('T') && NumAt(ts, 8) && ts[9] == Mark('H') && NumAt(ts, 10)
    && ts[11] == Mark('M') && NumAt(ts, 12)
  }

  /** S, or a point, at most six digits of a fraction of a second, and S. */
  function ReadEnding(ts: seq<Token>): Option<nat> {
    if ts == [Mark('S')] then Some(0)
    else if |ts| == 3 && ts[0] == Mark('.') && NumAt(ts, 1) && !ts[1].negative && |ts[1].digits| <= 6 && ts[2] == Mark('S')
    then Some(Shift(Val(ts[1].digits), 6 - |ts[1].digits|))
    else None
  }

  /** Reads the duration format of ISO 8601:2004, section 4.4.3.2, with a sign allowed on every component. */
  function ReadTokens(ts: seq<Token>): Option<Interval> {
    if !Shape(ts) then None
    else match ReadEnding(ts[13..])
      case None => None
      case Some(frac) =>
        Some(Interval(Number(ts[1]) * 12 + Number(ts[3]), Number(ts[5]),
                      MicrosOf(Clock(Number(ts[8]), Number(ts[10]), Number(ts[12]), frac))))
  }

  function ReadInterval(s: string): Option<Interval> {
    ReadTokens(Lex(s))
  }

  lemma SignedDenotes(n: int)
    ensures Lexical(Signed(n)) && Number(Signed(n)) == n
  {
    ValDec(Abs(n));
  }

  lemma {:induction false} TrimmedDenotes(s: string)
    requires Digits(s)
    ensures var t := TrimZeros(s);
            Digits(t) && Shift(Val(t), |s| - |t|) == Val(s) && (Val(s) > 0 ==> t != "")
  {
    if s != "" && s[|s| - 1] == '0' {
      TrimmedDenotes(s[..|s| - 1]);
    }
  }

  lemma {:induction false} DecWidth(n: nat, k: nat)
    requires n < Shift(1, k) && k > 0
    ensures |Dec(n)| <= k
  {
    if n >= 10 {
      assert k > 1;
      DecWidth(n / 10, k - 1);
    }
  }

  lemma SixDigits(n: nat)
    requires n < 1_000_000
    ensures |Dec(n)| <= 6
  {
    assert Shift(1, 3) == 1_000 && Shift(1, 6) == 1_000_000;
    DecWidth(n, 6);
  }

  lemma FractionDenotes(frac: int)
    requires frac != 0 && -1_000_000 < frac < 1_000_000
    ensures Lexical(Fraction(frac)) && Fraction(frac).negative == (frac < 0)
    ensures frac > 0 ==> |Fraction(frac).digits| <= 6 &&
                         Shift(Val(Fraction(frac).digits), 6 - |Fraction(frac).digits|) == frac
  {
    var width := if frac < 0 then 5 else 6;
    SixDigits(Abs(frac));
    PaddedDenotes(Abs(frac), width);
    TrimmedDenotes(Padded(Abs(frac), width));
  }

  lemma EndingReads(frac: int)
    requires -1_000_000 < frac < 1_000_000
    ensures ReadEnding(Ending(frac)) == if frac >= 0 then Some(frac) else None
    ensures Separated(Ending(frac)) && Ending(frac)[0].Mark?
  {
    if frac != 0 {
      FractionDenotes(frac);
    }
  }

  lemma TokensSeparated(years: int, months: int, days: int, c: Clock)
    requires -1_000_000 < c.frac < 1_000_000
    ensures Separated(Tokens(years, months, days, c))
  {
    var ns := [years, months, days, c.hours, c.minutes, c.seconds];
    forall i | 0 <= i < 6 ensures Lexical(Signed(ns[i])) {
      SignedDenotes(ns[i]);
    }
    assert Lexical(Signed(ns[0])) && Lexical(Signed(ns[1])) && Lexical(Signed(ns[2]));
    assert Lexical(Signed(ns[3])) && Lexical(Signed(ns[4])) && Lexical(Signed(ns[5]));
    EndingReads(c.frac);
  }

  lemma ShapeReads(a: Token, b: Token, c: Token, d: Token, e: Token, f: Token, ending: seq<Token>)
    requires forall t :: t in {a, b, c, d, e, f} ==> t.Num? && Digits(t.digits)
    ensures ReadTokens([Mark('P'), a, Mark('Y'), b, Mark('M'), c, Mark('D'), Mark('T'), d, Mark('H'), e, Mark('M'), f] + ending) ==
            match ReadEnding(ending)
            case None => None
            case Some(frac) => Some(Interval(Number(a) * 12 + Number(b), Number(c),
                                             MicrosOf(Clock(Number(d), Number(e), Number(f), frac))))
  {
    var ts := [Mark('P'), a, Mark('Y'), b, Mark('M'), c, Mark('D'), Mark('T'), d, Mark('H'), e, Mark('M'), f] + ending;
    assert ts[13..] == ending;
    assert ts[1] == a && ts[3] == b && ts[5] == c && ts[8] == d && ts[10] == e && ts[12] == f;
  }

  lemma TokensRead(years: int, months: int, days: int, c: Clock)
    requires -1_000_000 < c.frac < 1_000_000
    ensures ReadTokens(Tokens(years, months, days, c)) ==
            if c.frac >= 0 then Some(Interval(years * 12 + months, days, MicrosOf(c))) else None
  {
    SignedDenotes(years);
    SignedDenotes(months);
    SignedDenotes(days);
    SignedDenotes(c.hours);
    SignedDenotes(c.minutes);
    SignedDenotes(c.seconds);
    EndingReads(c.frac);
    ShapeReads(Signed(years), Signed(months), Signed(days), Signed(c.hours), Signed(c.minutes), Signed(c.seconds), Ending(c.frac));
  }

  lemma WholeIff(micros: int, whole: int, frac: int)
    requires micros == whole * 1_000_000 + frac && -1_000_000 < frac < 1_000_000
    requires micros >= 0 ==> frac >= 0
    requires micros < 0 ==> frac <= 0
    ensures frac >= 0 <==> micros >= 0 || micros % 1_000_000 == 0
  {
  }

  lemma FractionSign(micros: int)
    ensures ClockOf(micros).frac >= 0 <==> micros >= 0 || micros % 1_000_000 == 0
  {
    var c := ClockOf(micros);
    var whole := c.hours * 3_600 + c.minutes * 60 + c.seconds;
    WholeIff(micros, whole, c.frac);
  }

  /** An interval reads back with its months, days and microseconds exactly as they were, unless the span is negative
      and not a whole number of seconds: then the text does not read back at all. */
  lemma IntervalRoundTripIff(iv: Interval)
    ensures var read := ReadInterval(Flatten(IntervalTokens(iv)));
            if iv.micros >= 0 || iv.micros % 1_000_000 == 0 then read == Some(iv) else read == None
  {
    var years := Quo(iv.months, 12);
    var c := ClockOf(iv.micros);
    TokensSeparated(years, iv.months - years * 12, iv.days, c);
    LexFlatten(IntervalTokens(iv));
    TokensRead(years, iv.months - years * 12, iv.days, c);
    FractionSign(iv.micros);
  }
}
