/** "HH:MM" points: what the schedule reader makes of one untrusted value, with the
    leniency of Python's `int` (blanks around it, a sign, single underscores). */
module HourPoints {
  import opened Options

  type Minute = m: nat | m < 24 * 60

  datatype Value = Text(text: string) | NotText

  predicate IsDigit(c: char) { '0' <= c <= '9' }

  predicate IsSpace(c: char) { c in " \t\n\r" || c as int in {11, 12} }

  function SkipSpaces(s: string): string { if |s| > 0 && IsSpace(s[0]) then SkipSpaces(s[1..]) else s }

  function DropSpaces(s: string): string {
    if |s| > 0 && IsSpace(s[|s| - 1]) then DropSpaces(s[..|s| - 1]) else s
  }

  /** Decimal digits with single underscores between them, as `int` reads them. */
  function Digits(s: string): Option<nat> {
    if |s| == 0 || !IsDigit(s[|s| - 1]) then None
    else
      var d := s[|s| - 1] as int - '0' as int;
      if |s| == 1 then Some(d)
      else
        var rest := if s[|s| - 2] == '_' then s[..|s| - 2] else s[..|s| - 1];
        match Digits(rest)
        case None => None
        case Some(n) => Some(10 * n + d)
  }

  function Signed(sign: int, n: Option<nat>): Option<int> {
    match n
    case None => None
    case Some(value) => Some(sign * value)
  }

  function ParseInt(s: string): Option<int> {
    var t := DropSpaces(SkipSpaces(s));
    if |t| > 0 && t[0] == '-' then Signed(-1, Digits(t[1..]))
    else if |t| > 0 && t[0] == '+' then Digits(t[1..])
    else Digits(t)
  }

  function SplitColon(s: string): seq<string> {
    if |s| == 0 then [""]
    else
      var rest := SplitColon(s[1..]);
      if s[0] == ':' then [""] + rest else [[s[0]] + rest[0]] + rest[1..]
  }

  /** Minutes since midnight. */
  function ParseHhmm(p: Value): Option<Minute> {
    match p
    case NotText => None
    case Text(s) =>
      var parts := SplitColon(s);
      if |parts| != 2 then None
      else
        var h, m := ParseInt(parts[0]), ParseInt(parts[1]);
        if h.None? || m.None? || !(0 <= h.value <= 23 && 0 <= m.value <= 59) then None
        else Some(h.value * 60 + m.value)
  }

  function TwoDigits(n: nat): string
    requires n < 100
  {
    [(n / 10 + '0' as int) as char, (n % 10 + '0' as int) as char]
  }

  function Hhmm(minute: Minute): string { TwoDigits(minute / 60) + ":" + TwoDigits(minute % 60) }

  predicate NoColon(s: string) { forall i :: 0 <= i < |s| ==> s[i] != ':' }

  lemma TwoDigitsParse(n: nat)
    requires n < 100
    ensures ParseInt(TwoDigits(n)) == Some(n)
    ensures NoColon(TwoDigits(n))
  {
    var s := TwoDigits(n);
    assert SkipSpaces(s) == s && DropSpaces(s) == s;
    assert s[..1] == [s[0]] && Digits(s[..1]) == Some(n / 10);
  }

  lemma {:induction false} SplitWithoutColon(s: string)
    requires NoColon(s)
    ensures SplitColon(s) == [s]
  {
    if |s| > 0 {
      SplitWithoutColon(s[1..]);
      assert [s[0]] + s[1..] == s;
    }
  }

  lemma {:induction false} SplitAtColon(a: string, b: string)
    requires NoColon(a) && NoColon(b)
    ensures SplitColon(a + ":" + b) == [a, b]
  {
    var s := a + ":" + b;
    if |a| == 0 {
      assert s[1..] == b;
      SplitWithoutColon(b);
    } else {
      assert s[1..] == a[1..] + ":" + b;
      SplitAtColon(a[1..], b);
      assert [s[0]] + a[1..] == a;
    }
  }

  /** Every minute of the day, written as HH:MM, reads back as itself. */
  lemma HhmmRoundTrip(minute: Minute)
    ensures ParseHhmm(Text(Hhmm(minute))) == Some(minute)
  {
    TwoDigitsParse(minute / 60);
    TwoDigitsParse(minute % 60);
    JoinedParse(TwoDigits(minute / 60), TwoDigits(minute % 60), minute);
  }

  lemma JoinedParse(a: string, b: string, minute: Minute)
    requires NoColon(a) && NoColon(b) && ParseInt(a) == Some(minute / 60) && ParseInt(b) == Some(minute % 60)
    ensures ParseHhmm(Text(a + ":" + b)) == Some(minute)
  {
    SplitAtColon(a, b);
  }

  // ── exactly which texts are read ──

  /** Digits, with single underscores between them. */
  predicate IsNumeral(s: string) {
    && |s| > 0 && IsDigit(s[0]) && IsDigit(s[|s| - 1])
    && (forall i :: 0 <= i < |s| ==> IsDigit(s[i]) || s[i] == '_')
    && (forall i :: 0 <= i < |s| - 1 ==> IsDigit(s[i]) || IsDigit(s[i + 1]))
  }

  lemma {:induction false} DigitsIff(s: string)
    ensures Digits(s).Some? <==> IsNumeral(s)
  {
    if |s| > 1 && IsDigit(s[|s| - 1]) {
      var rest := if s[|s| - 2] == '_' then s[..|s| - 2] else s[..|s| - 1];
      DigitsIff(rest);
      if IsNumeral(rest) {
        assert forall i :: 0 <= i < |rest| - 1 ==> IsDigit(rest[i]) || IsDigit(rest[i + 1]);
        forall i | 0 <= i < |s| - 1 ensures IsDigit(s[i]) || IsDigit(s[i + 1]) {
          if i < |rest| - 1 {
            assert rest[i] == s[i] && rest[i + 1] == s[i + 1];
          }
        }
      }
      if IsNumeral(s) && |rest| > 0 {
        assert rest[|rest| - 1] == s[|rest| - 1];
        forall i | 0 <= i < |rest| - 1 ensures IsDigit(rest[i]) || IsDigit(rest[i + 1]) {
          assert IsDigit(s[i]) || IsDigit(s[i + 1]);
        }
      }
    }
  }

  lemma {:induction false} SplitParts(s: string)
    ensures |SplitColon(s)| >= 1 && forall i :: 0 <= i < |SplitColon(s)| ==> NoColon(SplitColon(s)[i])
    ensures |SplitColon(s)| == 1 ==> s == SplitColon(s)[0]
    ensures |SplitColon(s)| == 2 ==> s == SplitColon(s)[0] + ":" + SplitColon(s)[1]
  {
    if |s| > 0 {
      SplitParts(s[1..]);
      assert s == [s[0]] + s[1..];
    }
  }

  /** A text is read as a minute iff it is an hour and a minute in range around its one
      colon; everything else is refused. */
  lemma ParseHhmmIff(s: string, minute: Minute)
    ensures ParseHhmm(Text(s)) == Some(minute) <==>
            exists a, b :: NoColon(a) && NoColon(b) && s == a + ":" + b
                           && ParseInt(a) == Some(minute / 60) && ParseInt(b) == Some(minute % 60)
  {
    if a, b :| NoColon(a) && NoColon(b) && s == a + ":" + b
               && ParseInt(a) == Some(minute / 60) && ParseInt(b) == Some(minute % 60) {
      JoinedParse(a, b, minute);
    }
    if ParseHhmm(Text(s)) == Some(minute) {
      SplitParts(s);
      var parts := SplitColon(s);
      assert s == parts[0] + ":" + parts[1];
    }
  }
}
