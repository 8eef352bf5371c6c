/** Estonia: publication months, their arithmetic, and the text a cursor stores them as. */
module EstoniaMonths {
  import opened Common

  datatype Month = Month(year: int, month: int)

  /** The number of a month counted from year 0. */
  function Index(m: Month): int {
    m.year * 12 + m.month - 1
  }

  function OfIndex(index: int): Month {
    Month(index / 12, index % 12 + 1)
  }

  predicate Calendar(m: Month) {
    1 <= m.month <= 12
  }

  function ShiftMonth(m: Month, offset: int): Month {
    OfIndex(m.year * 12 + (m.month - 1) + offset)
  }

  function MonthRange(start: Month, end: Month): seq<Month> {
    if Index(start) > Index(end) then []
    else seq(Index(end) + 1 - Index(start), i requires 0 <= i => OfIndex(Index(start) + i))
  }

  lemma IndexOfIndex(index: int)
    ensures Index(OfIndex(index)) == index && Calendar(OfIndex(index))
  {
  }

  lemma OfIndexIndex(m: Month)
    ensures OfIndex(Index(m)) == m <==> Calendar(m)
  {
    if Calendar(m) {
      assert (m.year * 12 + (m.month - 1)) / 12 == m.year;
    }
  }

  /** Shifting composes additively, undoes itself, and always lands on a calendar month. */
  lemma ShiftComposes(m: Month, a: int, b: int)
    ensures ShiftMonth(ShiftMonth(m, a), b) == ShiftMonth(m, a + b)
    ensures Calendar(ShiftMonth(m, a))
    ensures ShiftMonth(ShiftMonth(m, a), -a) == m <==> Calendar(m)
    ensures Index(ShiftMonth(m, a)) == Index(m) + a
  {
    IndexOfIndex(Index(m) + a);
    OfIndexIndex(m);
  }

  lemma RangeLength(start: Month, end: Month)
    ensures |MonthRange(start, end)| == Max(0, Index(end) - Index(start) + 1)
  {
    hide Index, OfIndex;
  }

  lemma RangeAt(start: Month, end: Month, i: nat)
    requires i < |MonthRange(start, end)|
    ensures MonthRange(start, end)[i] == OfIndex(Index(start) + i) == ShiftMonth(start, i)
    ensures Index(MonthRange(start, end)[i]) == Index(start) + i
  {
    IndexOfIndex(Index(start) + i);
    hide OfIndex;
  }

  lemma InRange(start: Month, end: Month, m: Month)
    requires Calendar(m)
    ensures m in MonthRange(start, end) <==> Index(start) <= Index(m) <= Index(end)
  {
    var range := MonthRange(start, end);
    RangeLength(start, end);
    OfIndexIndex(m);
    if Index(start) <= Index(m) <= Index(end) {
      RangeAt(start, end, Index(m) - Index(start));
      hide *;
      assert range[Index(m) - Index(start)] == m;
    } else if m in range {
      var i :| 0 <= i < |range| && range[i] == m;
      RangeAt(start, end, i);
      hide Index, OfIndex, MonthRange;
    }
  }

  /** A range lists every month between its ends, each once, in order. */
  lemma RangeIsContiguous(start: Month, end: Month)
    requires Calendar(start) && Calendar(end)
    ensures var range := MonthRange(start, end);
            && |range| == Max(0, Index(end) - Index(start) + 1)
            && (forall i | 0 <= i < |range| :: range[i] == ShiftMonth(start, i))
            && (range != [] ==> range[0] == start && range[|range| - 1] == end)
            && (forall m | Calendar(m) :: m in range <==> Index(start) <= Index(m) <= Index(end))
  {
    var range := MonthRange(start, end);
    RangeLength(start, end);
    OfIndexIndex(start);
    OfIndexIndex(end);
    hide Index, OfIndex, MonthRange, ShiftMonth;
    forall i | 0 <= i < |range| ensures range[i] == ShiftMonth(start, i) {
      RangeAt(start, end, i);
    }
    if range != [] {
      RangeAt(start, end, 0);
      RangeAt(start, end, |range| - 1);
    }
    forall m | Calendar(m) ensures m in range <==> Index(start) <= Index(m) <= Index(end) {
      InRange(start, end, m);
    }
  }

  /** Cutting a range after its first n months leaves the range that starts n months later. */
  lemma RangeSplits(start: Month, end: Month, n: nat)
    requires Calendar(start) && n <= |MonthRange(start, end)|
    ensures MonthRange(start, end)[n..] == MonthRange(ShiftMonth(start, n), end)
  {
    ShiftComposes(start, n, 0);
    var whole, rest := MonthRange(start, end), MonthRange(ShiftMonth(start, n), end);
    RangeLength(start, end);
    RangeLength(ShiftMonth(start, n), end);
    hide Index, OfIndex, MonthRange, ShiftMonth;
    forall i | 0 <= i < |rest| ensures whole[n..][i] == rest[i] {
      RangeAt(start, end, n + i);
      RangeAt(ShiftMonth(start, n), end, i);
    }
  }

  // ---- numerals -----------------------------------------------------------------------------------

  predicate IsDigit(c: char) {
    '0' <= c <= '9'
  }

  predicate IsSpace(c: char) {
    c == ' ' || '\t' <= c <= '\r'
  }

  function DigitValue(c: char): nat
    requires IsDigit(c)
  {
    (c - '0') as nat
  }

  function DigitChar(d: nat): (c: char)
    requires d < 10
    ensures IsDigit(c) && DigitValue(c) == d
  {
    '0' + d as char
  }

  function Decimal(n: nat): string {
    if n < 10 then [DigitChar(n)] else Decimal(n / 10) + [DigitChar(n % 10)]
  }

  function ZeroFilled(s: string, width: nat): string
    decreases width - |s|
  {
    if |s| >= width then s else ZeroFilled("0" + s, width)
  }

  /** The zero-filled format of an integer, the sign counting towards the width. */
  function Formatted(n: int, width: nat): string {
    if n >= 0 then ZeroFilled(Decimal(n), width)
    else "-" + ZeroFilled(Decimal(-n), if width == 0 then 0 else width - 1)
  }

  function Stripped(s: string): string {
    if s != "" && IsSpace(s[0]) then Stripped(s[1..])
    else if s != "" && IsSpace(s[|s| - 1]) then Stripped(s[..|s| - 1])
    else s
  }

  /** Digits, optionally grouped by single underscores. */
  function Magnitude(s: string): Option<nat> {
    if s == "" || !IsDigit(s[|s| - 1]) then None
    else
      var init, last := s[..|s| - 1], DigitValue(s[|s| - 1]);
      if init == "" then Some(last)
      else
        var rest := if init[|init| - 1] == '_' then Magnitude(init[..|init| - 1]) else Magnitude(init);
        if rest.Some? then Some(10 * rest.value + last) else None
  }

  /** The integer a text denotes, None when it denotes none. */
  function ParseInt(text: string): Option<int> {
    var s := Stripped(text);
    if s != "" && (s[0] == '-' || s[0] == '+') then
      var m := Magnitude(s[1..]);
      if m.None? then None else Some(if s[0] == '-' then 0 - m.value else m.value)
    else
      var m := Magnitude(s);
      if m.None? then None else Some(m.value)
  }

  function FirstHyphen(s: string): (i: nat)
    ensures i <= |s|
    ensures i < |s| ==> s[i] == '-'
    ensures forall j | 0 <= j < i :: s[j] != '-'
  {
    if s == "" || s[0] == '-' then 0 else 1 + FirstHyphen(s[1..])
  }

  function MonthText(m: Month): string {
    Formatted(m.year, 4) + "-" + Formatted(m.month, 2)
  }

  lemma TextIsNotEmpty(m: Month)
    ensures MonthText(m) != ""
  {
  }

  const INVALID_MONTH := "invalid EE_RHR cursor catchup_next"

  function ParseMonth(value: string): Result<Month> {
    var text := Stripped(value);
    var cut := FirstHyphen(text);
    if cut == |text| then Err(INVALID_MONTH)
    else
      CheckedMonth(ParseInt(text[..cut]), ParseInt(text[cut + 1..]))
  }

  function CheckedMonth(year: Option<int>, month: Option<int>): Result<Month> {
    if year.None? || month.None? then Err(INVALID_MONTH)
    else if year.value < 2000 || month.value < 1 || month.value > 12 then Err(INVALID_MONTH)
    else Ok(Month(year.value, month.value))
  }

  // ---- the round trip -----------------------------------------------------------------------------

  ghost predicate Digits(s: string) {
    s != "" && forall i | 0 <= i < |s| :: IsDigit(s[i])
  }

  lemma {:induction false} DecimalReads(n: nat)
    ensures Digits(Decimal(n)) && Magnitude(Decimal(n)) == Some(n)
  {
    if n >= 10 {
      DecimalReads(n / 10);
      var s, init := Decimal(n), Decimal(n / 10);
      assert s[..|s| - 1] == init;
      assert init[|init| - 1] != '_';
    }
  }

  lemma {:induction false} LeadingZero(s: string)
    requires Digits(s)
    ensures Magnitude("0" + s) == Magnitude(s)
  {
    var t := "0" + s;
    assert t[..|t| - 1] == "0" + s[..|s| - 1];
    assert t[|t| - 1] == s[|s| - 1];
    if |s| == 1 {
      assert t[..|t| - 1] == "0";
      assert "0"[..0] == "";
      assert Magnitude("0") == Some(0);
    } else {
      assert Digits(s[..|s| - 1]);
      LeadingZero(s[..|s| - 1]);
    }
  }

  lemma {:induction false} ZeroFilledReads(s: string, width: nat)
    requires Digits(s)
    ensures Digits(ZeroFilled(s, width)) && Magnitude(ZeroFilled(s, width)) == Magnitude(s)
    decreases width - |s|
  {
    if |s| < width {
      LeadingZero(s);
      ZeroFilledReads("0" + s, width);
    }
  }

  lemma FormattedReads(n: int, width: nat)
    ensures ParseInt(Formatted(n, width)) == Some(n)
    ensures n >= 0 ==> Digits(Formatted(n, width))
    ensures n < 0 ==> Formatted(n, width) != "" && Formatted(n, width)[0] == '-' && Digits(Formatted(n, width)[1..])
  {
    if n >= 0 {
      FilledReads(n, width);
    } else {
      FilledReads(-n, if width == 0 then 0 else width - 1);
    }
    hide ParseInt, ZeroFilled, Decimal;
  }

  lemma FilledReads(size: nat, width: nat)
    ensures var digits := ZeroFilled(Decimal(size), width);
            && Digits(digits)
            && ParseInt(digits) == Some(size)
            && ParseInt("-" + digits) == Some(0 - size)
            && ("-" + digits)[1..] == digits && ("-" + digits)[0] == '-'
  {
    hide ParseInt, Magnitude, ZeroFilled, Decimal;
    DecimalReads(size);
    ZeroFilledReads(Decimal(size), width);
    SignedReads(ZeroFilled(Decimal(size), width), size);
  }

  lemma SignedReads(digits: string, size: nat)
    requires Digits(digits) && Magnitude(digits) == Some(size)
    ensures ParseInt(digits) == Some(size)
    ensures ParseInt("-" + digits) == Some(0 - size)
    ensures ("-" + digits)[1..] == digits && ("-" + digits)[0] == '-'
  {
    hide Magnitude;
    AlreadyStripped(digits);
    AlreadyStripped("-" + digits);
    assert ("-" + digits)[1..] == digits;
    hide Stripped;
  }

  lemma AlreadyStripped(s: string)
    requires s != "" && !IsSpace(s[0]) && !IsSpace(s[|s| - 1])
    ensures Stripped(s) == s
  {
  }

  /** Reading back a written month: for every pair, the month itself exactly when its year is
      2000 or later and its number is a calendar month; otherwise the error. */
  lemma MonthTextRoundTrip(m: Month)
    ensures ParseMonth(MonthText(m)) == if m.year >= 2000 && Calendar(m) then Ok(m) else Err(INVALID_MONTH)
  {
    FormattedReads(m.year, 4);
    FormattedReads(m.month, 2);
    var year, month := Formatted(m.year, 4), Formatted(m.month, 2);
    assert year != "" && !IsSpace(year[0]) && month != "" && !IsSpace(month[|month| - 1]);
    hide Formatted, ParseInt;
    if m.year >= 0 {
      CutAtTheHyphen(year, month);
      ParsedParts(year, month);
    } else {
      NothingToRead();
      LeadingHyphen(year, month);
    }
    hide ParseMonth;
  }

  lemma ParsedParts(year: string, month: string)
    requires year != "" && !IsSpace(year[0]) && month != "" && !IsSpace(month[|month| - 1])
    requires FirstHyphen(year + "-" + month) == |year|
    ensures ParseMonth(year + "-" + month) == CheckedMonth(ParseInt(year), ParseInt(month))
  {
    hide ParseInt, FirstHyphen, CheckedMonth;
    var text := year + "-" + month;
    assert text[0] == year[0] && text[|text| - 1] == month[|month| - 1];
    AlreadyStripped(text);
    hide Stripped, IsSpace;
    assert text[..|year|] == year && text[|year| + 1..] == month;
  }

  lemma LeadingHyphen(year: string, month: string)
    requires year != "" && year[0] == '-' && month != "" && !IsSpace(month[|month| - 1])
    requires ParseInt("") == None
    ensures ParseMonth(year + "-" + month) == Err(INVALID_MONTH)
  {
    hide ParseInt;
    var text := year + "-" + month;
    assert text[0] == '-' && text[|text| - 1] == month[|month| - 1];
    AlreadyStripped(text);
    hide Stripped, IsSpace;
    assert FirstHyphen(text) == 0 && text[..0] == "";
  }

  lemma NothingToRead()
    ensures ParseInt("") == None
  {
  }

  lemma CutAtTheHyphen(year: string, rest: string)
    requires Digits(year)
    ensures FirstHyphen(year + "-" + rest) == |year|
  {
    var text := year + "-" + rest;
    assert text[|year|] == '-';
    assert forall j | 0 <= j < |year| :: text[j] == year[j];
  }
}
