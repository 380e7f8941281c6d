/**
 * The condition bar (src/components/common/ConditionBar.tsx): a score is
 * classified by two thresholds, and the right-hand label reads
 * "<value>% · <status>".
 */
module ConditionBar {
  import opened Wrappers

  /** The three statuses, worst first. */
  datatype Status = NeedsCare | Fair | Good

  /** The nested conditional on the score. */
  function StatusOf(value: int): Status
  {
    if value < 40 then NeedsCare else if value < 70 then Fair else Good
  }

  /** The text each status is displayed as. */
  function StatusText(st: Status): string
  {
    match st
    case NeedsCare => "관리 필요"
    case Fair => "보통"
    case Good => "양호"
  }

  /** Worse statuses rank lower. */
  function Rank(st: Status): nat
  {
    match st
    case NeedsCare => 0
    case Fair => 1
    case Good => 2
  }

  /** Each status covers exactly one interval of scores. */
  lemma StatusIntervals(value: int)
    ensures StatusOf(value) == NeedsCare <==> value < 40
    ensures StatusOf(value) == Fair <==> 40 <= value < 70
    ensures StatusOf(value) == Good <==> 70 <= value
  {
  }

  /** A larger score never gets a worse status. */
  lemma StatusMonotone(a: int, b: int)
    requires a <= b
    ensures Rank(StatusOf(a)) <= Rank(StatusOf(b))
  {
  }

  // ---------------------------------------------------------------------
  // Decimal text of an integer, as JavaScript renders an integral number
  // of magnitude below 1e21

  function DigitChar(d: nat): char
    requires d < 10
  {
    "0123456789"[d]
  }

  predicate AllDigits(s: string)
  {
    forall i :: 0 <= i < |s| ==> '0' <= s[i] <= '9'
  }

  function DecimalDigits(n: nat): (r: string)
    ensures r != [] && AllDigits(r)
  {
    if n < 10 then [DigitChar(n)] else DecimalDigits(n / 10) + [DigitChar(n % 10)]
  }

  /** The text `{value}` renders for an integral number. */
  function NumberText(v: int): string
  {
    if v < 0 then "-" + DecimalDigits(-v) else DecimalDigits(v)
  }

  /** The value of a non-empty string of decimal digits. */
  function DigitsValue(s: string): nat
    requires s != [] && AllDigits(s)
  {
    var last := s[|s| - 1] as int - '0' as int;
    if |s| == 1 then last else DigitsValue(s[..|s| - 1]) * 10 + last
  }

  function ParseNumber(s: string): Option<int>
  {
    if s != [] && s[0] == '-' then
      if |s| > 1 && AllDigits(s[1..]) then Some(0 - DigitsValue(s[1..])) else None
    else if s != [] && AllDigits(s) then Some(DigitsValue(s))
    else None
  }

  lemma {:induction false} DigitsRoundTrip(n: nat)
    ensures DigitsValue(DecimalDigits(n)) == n
  {
    if n >= 10 {
      var s := DecimalDigits(n);
      DigitsRoundTrip(n / 10);
      assert s[..|s| - 1] == DecimalDigits(n / 10);
    }
  }

  /** A digit string reads back as its number, with or without a leading minus. */
  lemma ParseDecimalDigits(n: nat)
    ensures ParseNumber(DecimalDigits(n)) == Some(n)
    ensures ParseNumber("-" + DecimalDigits(n)) == Some(0 - n)
  {
    var d := DecimalDigits(n);
    DigitsRoundTrip(n);
    assert d[0] != '-';
    assert ("-" + d)[1..] == d;
  }

  lemma NumberRoundTrip(v: int)
    ensures ParseNumber(NumberText(v)) == Some(v)
  {
    if v < 0 {
      ParseDecimalDigits(-v);
    } else {
      ParseDecimalDigits(v);
    }
  }

  // ---------------------------------------------------------------------
  // The right-hand label

  const Separator: string := "% · "

  /** The text after the number: the separator, then the status. */
  function Tail(st: Status): string
  {
    Separator + StatusText(st)
  }

  /** `{value}% · {status}` */
  function Label(value: int): string
  {
    NumberText(value) + Tail(StatusOf(value))
  }

  function EndsWith(s: string, suffix: string): bool
  {
    |suffix| <= |s| && s[|s| - |suffix|..] == suffix
  }

  /** Reads a label back into its number and the status it shows. */
  function ParseLabel(s: string): Option<(int, Status)>
  {
    var st :=
      if EndsWith(s, Tail(NeedsCare)) then Some(NeedsCare)
      else if EndsWith(s, Tail(Fair)) then Some(Fair)
      else if EndsWith(s, Tail(Good)) then Some(Good)
      else None;
    match st
    case None => None
    case Some(status) =>
      match ParseNumber(s[..|s| - |Tail(status)|])
      case None => None
      case Some(v) => Some((v, status))
  }

  /** A label holds its number and the status that number gets, and nothing else. */
  lemma {:induction false} LabelRoundTrip(value: int)
    ensures ParseLabel(Label(value)) == Some((value, StatusOf(value)))
  {
    var num := NumberText(value);
    var st := StatusOf(value);
    var s := Label(value);
    assert s[|s| - |Tail(st)|..] == Tail(st);
    assert s[..|s| - |Tail(st)|] == num;
    assert s[|s| - 1] == Tail(st)[|Tail(st)| - 1];
    if st != NeedsCare {
      assert Tail(NeedsCare)[|Tail(NeedsCare)| - 1] != s[|s| - 1];
    }
    if st == Good {
      assert Tail(Fair)[|Tail(Fair)| - 1] != s[|s| - 1];
    }
    NumberRoundTrip(value);
  }
}
