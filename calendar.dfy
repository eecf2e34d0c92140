/** Calendar dates as status8.py reads them from a log file's name with
    `re.search(r"(\d{4})\.(\d{1,2})\.(\d{1,2})", file_name)` and builds
    them with `datetime(y, m, d)`, which refuses a day that does not exist. */
module Calendar {
  import opened Options
  import opened Text

  datatype Date = Date(year: nat, month: nat, day: nat)

  predicate IsLeap(y: nat) {
    y % 4 == 0 && (y % 100 != 0 || y % 400 == 0)
  }

  function DaysInMonth(y: nat, m: nat): (n: nat)
    requires 1 <= m <= 12
    ensures 28 <= n <= 31
    ensures n == 29 <==> m == 2 && IsLeap(y)
  {
    if m == 2 then (if IsLeap(y) then 29 else 28)
    else if m == 4 || m == 6 || m == 9 || m == 11 then 30
    else 31
  }

  /** The dates `datetime.date` accepts: years 1 to 9999 and a day that
      exists in its month. */
  predicate ValidDate(d: Date) {
    1 <= d.year <= 9999 && 1 <= d.month <= 12 && 1 <= d.day <= DaysInMonth(d.year, d.month)
  }

  /** The value of a run of decimal digits, as `int()` reads it. */
  function DigitsValue(s: string): (v: nat)
    requires AllDigits(s)
    ensures |s| <= 1 ==> v < 10
    ensures |s| <= 2 ==> v < 100
    ensures |s| <= 3 ==> v < 1000
    ensures |s| <= 4 ==> v < 10000
  {
    if s == [] then 0 else 10 * DigitsValue(s[..|s| - 1]) + DigitValue(s[|s| - 1])
  }

  /** How many digits a greedy `\d{1,2}` takes at `j`: two when there are
      two, one when there is one, none otherwise. */
  function DigitRun(s: string, j: nat): (w: nat)
    requires j <= |s|
    ensures w <= 2 && j + w <= |s| && AllDigits(s[j..j + w])
    ensures w < 2 ==> j + w == |s| || !IsDigit(s[j + w])
  {
    if j < |s| && IsDigit(s[j]) then
      (if j + 1 < |s| && IsDigit(s[j + 1]) then 2 else 1)
    else 0
  }

  /** The match of the date pattern starting at `i`, if any. A two-digit
      month must be followed by the dot: backtracking to one digit would
      need a dot where a digit is. The day takes two digits when it can. */
  function DateAt(stem: string, i: nat): (r: Option<Date>)
    ensures r.Some? ==> r.value.year < 10000 && r.value.month < 100 && r.value.day < 100
  {
    if i + 8 > |stem| || !AllDigits(stem[i..i + 4]) || stem[i + 4] != '.' then None
    else
      var mw := DigitRun(stem, i + 5);
      if mw == 0 || i + 5 + mw >= |stem| || stem[i + 5 + mw] != '.' then None
      else
        var dw := DigitRun(stem, i + 6 + mw);
        if dw == 0 then None
        else Some(Date(DigitsValue(stem[i..i + 4]), DigitsValue(stem[i + 5..i + 5 + mw]),
                       DigitsValue(stem[i + 6 + mw..i + 6 + mw + dw])))
  }

  /** The leftmost match of the date pattern in a file name. */
  function DateMatch(stem: string): (r: Option<Date>)
    ensures r.None? <==> forall i :: 0 <= i < |stem| ==> DateAt(stem, i).None?
    ensures r.Some? ==> exists i :: 0 <= i < |stem| && DateAt(stem, i) == r
                                    && forall j :: 0 <= j < i ==> DateAt(stem, j).None?
  {
    FirstDateFrom(stem, 0)
  }

  function FirstDateFrom(stem: string, k: nat): (r: Option<Date>)
    requires forall j :: 0 <= j < k ==> DateAt(stem, j).None?
    ensures r.None? <==> forall i :: 0 <= i < |stem| ==> DateAt(stem, i).None?
    ensures r.Some? ==> exists i :: k <= i < |stem| && DateAt(stem, i) == r
                                    && forall j :: 0 <= j < i ==> DateAt(stem, j).None?
    decreases |stem| - k
  {
    if k >= |stem| then None
    else if DateAt(stem, k).Some? then DateAt(stem, k)
    else FirstDateFrom(stem, k + 1)
  }

  /** What the file header of status8.py makes of a file name: no date
      (the file is skipped), a date `datetime` refuses (the script stops
      with an exception), or a date. */
  datatype FileDate = NoDate | BadDate | DateOk(date: Date)

  function ParseFileDate(stem: string): (r: FileDate)
    ensures r.NoDate? <==> DateMatch(stem).None?
    ensures r.BadDate? <==> DateMatch(stem).Some? && !ValidDate(DateMatch(stem).value)
    ensures r.DateOk? ==> ValidDate(r.date) && DateMatch(stem) == Some(r.date)
  {
    match DateMatch(stem)
    case None => NoDate
    case Some(d) => if ValidDate(d) then DateOk(d) else BadDate
  }

  /** The digits of `n`, without leading zeros (as `str(n)` writes them). */
  function ShowNat(n: nat): (s: string)
    ensures |s| >= 1 && AllDigits(s) && DigitsValue(s) == n
    ensures n < 10 ==> |s| == 1
    ensures 10 <= n < 100 ==> |s| == 2
    ensures 1000 <= n < 10000 ==> |s| == 4
  {
    if n < 10 then [DigitChar(n)]
    else
      var s := ShowNat(n / 10) + [DigitChar(n % 10)];
      assert s[..|s| - 1] == ShowNat(n / 10);
      s
  }

  /** A file named like "2024.3.9" or "2024.12.25" (four-digit year, month
      and day without padding) reads back as its date. */
  lemma {:induction false} FileDateRoundTrip(d: Date)
    requires ValidDate(d) && d.year >= 1000
    ensures ParseFileDate(ShowNat(d.year) + "." + ShowNat(d.month) + "." + ShowNat(d.day)) == DateOk(d)
  {
    var y, m, dd := ShowNat(d.year), ShowNat(d.month), ShowNat(d.day);
    var stem := y + "." + m + "." + dd;
    assert stem[..4] == y && stem[4] == '.';
    assert stem[5..5 + |m|] == m && stem[5 + |m|] == '.';
    assert stem[6 + |m|..] == dd;
    assert DigitRun(stem, 5) == |m|;
    assert DigitRun(stem, 6 + |m|) == |dd|;
    assert stem[6 + |m|..6 + |m| + |dd|] == dd;
    assert DateAt(stem, 0) == Some(d);
  }
}
