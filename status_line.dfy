/**
 * The text of the status line a channel prints when its button toggles it:
 * "LEDs connected to pin <A> and <B> disabled!\n\n", or the "enabled!"
 * variant, with both pin offsets in decimal (printf's %hu). A parser for that
 * text shows that the line names the state and both pins unambiguously.
 */
module StatusLine {
  import opened Types
  import opened Events

  predicate IsDigit(c: char)
  {
    '0' <= c <= '9'
  }

  predicate AllDigits(s: string)
  {
    forall i :: 0 <= i < |s| ==> IsDigit(s[i])
  }

  /** The decimal numeral of `n`, without leading zeros, as %hu prints it. */
  function Decimal(n: nat): (s: string)
    ensures |s| >= 1 && AllDigits(s)
    ensures |s| > 1 ==> s[0] != '0'
  {
    if n < 10 then [('0' as int + n) as char]
    else Decimal(n / 10) + [('0' as int + n % 10) as char]
  }

  /** The value of a string of decimal digits. */
  function DecimalValue(s: string): nat
    requires AllDigits(s)
  {
    if s == [] then 0
    else DecimalValue(s[..|s| - 1]) * 10 + (s[|s| - 1] as int - '0' as int)
  }

  lemma {:induction false} DecimalValueOfDecimal(n: nat)
    ensures DecimalValue(Decimal(n)) == n
  {
    if n >= 10 {
      var s := Decimal(n);
      assert s[..|s| - 1] == Decimal(n / 10);
      DecimalValueOfDecimal(n / 10);
    }
  }

  /** The length of the longest prefix of `s` made of digits. */
  function DigitRun(s: string): (k: nat)
    ensures k <= |s| && AllDigits(s[..k])
    ensures k < |s| ==> !IsDigit(s[k])
  {
    if s == [] || !IsDigit(s[0]) then 0
    else
      var k := 1 + DigitRun(s[1..]);
      assert forall i :: 1 <= i < k ==> s[..k][i] == s[1..][..k - 1][i - 1];
      k
  }

  lemma {:induction false} DigitRunOfNumeral(d: string, rest: string)
    requires AllDigits(d)
    requires rest != [] && !IsDigit(rest[0])
    ensures DigitRun(d + rest) == |d|
    decreases |d|
  {
    if d == [] {
      assert d + rest == rest;
    } else {
      var s := d + rest;
      assert s[0] == d[0] && IsDigit(s[0]);
      assert s[1..] == d[1..] + rest;
      assert AllDigits(d[1..]) by {
        forall i | 0 <= i < |d| - 1 ensures IsDigit(d[1..][i]) {
          assert d[1..][i] == d[i + 1];
        }
      }
      DigitRunOfNumeral(d[1..], rest);
    }
  }

  const Lead := "LEDs connected to pin "
  const Between := " and "
  const DisabledTail := " disabled!\n\n"
  const EnabledTail := " enabled!\n\n"

  /** The line printed when a channel whose LEDs are on pins `a` and `b` becomes enabled or disabled. */
  function Render(enabled: bool, a: u16, b: u16): string
  {
    Lead + Decimal(a as nat) + Between + Decimal(b as nat) + (if enabled then EnabledTail else DisabledTail)
  }

  /** What a status line reports: the new state and the two LED pins. */
  datatype Report = Report(enabled: bool, pinA: u16, pinB: u16)

  /** Reads a pin numeral off the front of `s`, returning it and what follows it. */
  function ParsePin(s: string): Option<(u16, string)>
  {
    var k := DigitRun(s);
    if k == 0 then None
    else
      var v := DecimalValue(s[..k]);
      if v < 0x1_0000 then Some((v as u16, s[k..])) else None
  }

  /** Reads a status line back; None for any text that is not one. */
  function Parse(s: string): Option<Report>
  {
    if |Lead| <= |s| && s[..|Lead|] == Lead then ParseFromPinA(s[|Lead|..]) else None
  }

  /** The part of Parse after the leading words: pin A, " and ", the rest. */
  function ParseFromPinA(s: string): Option<Report>
  {
    match ParsePin(s)
    case None => None
    case Some((a, r)) =>
      if |Between| <= |r| && r[..|Between|] == Between then ParseFromPinB(a, r[|Between|..]) else None
  }

  /** The part of Parse after " and ": pin B and the word naming the state. */
  function ParseFromPinB(a: u16, s: string): Option<Report>
  {
    match ParsePin(s)
    case None => None
    case Some((b, tail)) =>
      if tail == EnabledTail then Some(Report(true, a, b))
      else if tail == DisabledTail then Some(Report(false, a, b))
      else None
  }

  lemma ParsePinOfDecimal(n: u16, rest: string)
    requires rest != [] && !IsDigit(rest[0])
    ensures ParsePin(Decimal(n as nat) + rest) == Some((n, rest))
  {
    var d := Decimal(n as nat);
    DigitRunOfNumeral(d, rest);
    assert (d + rest)[..|d|] == d;
    assert (d + rest)[|d|..] == rest;
    DecimalValueOfDecimal(n as nat);
  }

  lemma ParseFromPinBOfRender(enabled: bool, a: u16, b: u16)
    ensures ParseFromPinB(a, Decimal(b as nat) + (if enabled then EnabledTail else DisabledTail))
         == Some(Report(enabled, a, b))
  {
    ParsePinOfDecimal(b, if enabled then EnabledTail else DisabledTail);
  }

  lemma ParseFromPinAOfRender(enabled: bool, a: u16, b: u16)
    ensures ParseFromPinA(Decimal(a as nat) + (Between + Decimal(b as nat) + (if enabled then EnabledTail else DisabledTail)))
         == Some(Report(enabled, a, b))
  {
    var rest := Decimal(b as nat) + (if enabled then EnabledTail else DisabledTail);
    var afterA := Between + rest;
    assert afterA == Between + Decimal(b as nat) + (if enabled then EnabledTail else DisabledTail);
    ParsePinOfDecimal(a, afterA);
    assert afterA[..|Between|] == Between;
    assert afterA[|Between|..] == rest;
    ParseFromPinBOfRender(enabled, a, b);
  }

  /** The printed line determines the reported state and both pins. */
  lemma ParseRender(enabled: bool, a: u16, b: u16)
    ensures Parse(Render(enabled, a, b)) == Some(Report(enabled, a, b))
  {
    var afterLead := Decimal(a as nat) + (Between + Decimal(b as nat) + (if enabled then EnabledTail else DisabledTail));
    var s := Render(enabled, a, b);
    assert s == Lead + afterLead;
    assert s[..|Lead|] == Lead;
    assert s[|Lead|..] == afterLead;
    ParseFromPinAOfRender(enabled, a, b);
  }

  /** Different reports give different lines, so no two status lines can be confused. */
  lemma RenderInjective(e1: bool, a1: u16, b1: u16, e2: bool, a2: u16, b2: u16)
    requires Render(e1, a1, b1) == Render(e2, a2, b2)
    ensures e1 == e2 && a1 == a2 && b1 == b2
  {
    ParseRender(e1, a1, b1);
    ParseRender(e2, a2, b2);
  }

  /** The terminal output of a trace: the text of each status line it prints, in order. */
  function Console(t: seq<Event>): (out: seq<string>)
    ensures |out| == |Prints(t)|
  {
    var p := Prints(t);
    seq(|p|, i requires 0 <= i < |p| => Render(p[i].enabled, p[i].pinA, p[i].pinB))
  }

  /** Every line on the terminal reads back as the report of the Print event that wrote it. */
  lemma ConsoleParses(t: seq<Event>)
    ensures var out, p := Console(t), Prints(t);
      forall i :: 0 <= i < |out| ==> Parse(out[i]) == Some(Report(p[i].enabled, p[i].pinA, p[i].pinB))
  {
    var out, p := Console(t), Prints(t);
    forall i | 0 <= i < |out|
      ensures Parse(out[i]) == Some(Report(p[i].enabled, p[i].pinA, p[i].pinB))
    {
      ParseRender(p[i].enabled, p[i].pinA, p[i].pinB);
    }
  }
}
