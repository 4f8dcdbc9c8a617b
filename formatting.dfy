/** The client's display formats (client/utils/formatting.py): money with
    Spanish separators, a date with its month name, a month key as
    "<name> <year>". */
module Formatting {
  import opened Wrappers
  import opened PyText
  import opened Ledger
  import opened AppStateModule

  /** _MONTH_NAMES. */
  const MonthNames: seq<string> := [
    "Enero", "Febrero", "Marzo", "Abril", "Mayo", "Junio",
    "Julio", "Agosto", "Septiembre", "Octubre", "Noviembre", "Diciembre"
  ]

  /** The table holds twelve distinct names without spaces, January first
      and December last. */
  lemma MonthTable()
    ensures |MonthNames| == 12 && MonthNames[0] == "Enero" && MonthNames[11] == "Diciembre"
    ensures forall i :: 0 <= i < 12 ==> MonthNames[i] != [] && ' ' !in MonthNames[i]
    ensures forall i, j :: 0 <= i < j < 12 ==> MonthNames[i] != MonthNames[j]
  {
    forall i | 0 <= i < 12 ensures MonthNames[i] != [] && ' ' !in MonthNames[i] {
      assert i in {0, 1, 2, 3, 4, 5, 6, 7, 8, 9, 10, 11};
    }
    MonthNamesDistinct();
  }

  /** The first and third letters already tell the names apart. */
  lemma MonthNamesDistinct()
    ensures forall i, j :: 0 <= i < j < 12 ==> MonthNames[i] != MonthNames[j]
  {
    forall i, j | 0 <= i < j < 12 ensures MonthNames[i] != MonthNames[j] {
      assert i in {0, 1, 2, 3, 4, 5, 6, 7, 8, 9, 10, 11};
      assert j in {0, 1, 2, 3, 4, 5, 6, 7, 8, 9, 10, 11};
      assert (MonthNames[i][0], MonthNames[i][2]) != (MonthNames[j][0], MonthNames[j][2]);
    }
  }

  /** Python's list indexing: a negative index counts from the end, and
      an index outside both ranges raises IndexError. */
  function PyIndex<T>(s: seq<T>, i: int): (r: Result<T, Failure>)
    ensures r.Err? <==> i < -|s| || i >= |s|
    ensures r.Err? ==> r.error == IndexError
    ensures r.Ok? ==> r.value == s[if i < 0 then |s| + i else i]
  {
    if 0 <= i < |s| then Ok(s[i])
    else if -|s| <= i < 0 then Ok(s[|s| + i])
    else Err(IndexError)
  }

  // ---------------------------------------------------------------------
  // format_currency

  /** The replace chain of format_currency: ',' to ' ', '.' to ',', then
      ' ' to '.'. */
  function SwapSeparators(s: string): (r: string)
    ensures |r| == |s|
    ensures forall i :: 0 <= i < |s| ==>
      r[i] == (if s[i] == ',' || s[i] == ' ' then '.' else if s[i] == '.' then ',' else s[i])
  {
    Replace(Replace(Replace(s, ',', ' '), '.', ','), ' ', '.')
  }

  /** format_currency of the text f"{value:,.2f}" writes. */
  function FormatCurrency(formatted: string): (r: string)
    ensures |r| == |formatted| + 2 && r[..2] == "$ "
    ensures forall i :: 0 <= i < |formatted| && formatted[i] !in {',', '.', ' '} ==> r[i + 2] == formatted[i]
    ensures forall i :: 0 <= i < |formatted| && formatted[i] == ',' ==> r[i + 2] == '.'
    ensures forall i :: 0 <= i < |formatted| && formatted[i] == '.' ==> r[i + 2] == ','
  {
    "$ " + SwapSeparators(formatted)
  }

  /** On a text without spaces (a formatted number has none) the swap is
      its own inverse: it only exchanges the two separators. */
  lemma SwapSeparatorsInvolution(s: string)
    requires ' ' !in s
    ensures SwapSeparators(SwapSeparators(s)) == s
  {
    var once := SwapSeparators(s);
    assert ' ' !in once by {
      forall i | 0 <= i < |once| ensures once[i] != ' ' {
        assert s[i] != ' ';
      }
    }
  }

  /** The text of 1234.5 becomes "$ 1.234,50". */
  lemma CurrencyExample()
    ensures FormatCurrency("1,234.50") == "$ 1.234,50"
  {
    var r := FormatCurrency("1,234.50");
    assert r[2] == '1' && r[3] == '.' && r[7] == ',';
  }

  // ---------------------------------------------------------------------
  // format_full_date

  /** "{day} {name} {year}" with the day and year unpadded. */
  function FormatFullDate(d: CalendarDate): (r: string)
    ensures Split(r, ' ') == [NatText(d.day), MonthNames[d.month - 1], NatText(d.year)]
  {
    var parts := [NatText(d.day), MonthNames[d.month - 1], NatText(d.year)];
    MonthTable();
    NoSpaceInDigits(NatText(d.day));
    NoSpaceInDigits(NatText(d.year));
    SplitJoin(parts, ' ');
    assert Join(parts, ' ') == NatText(d.day) + " " + MonthNames[d.month - 1] + " " + NatText(d.year) by {
      assert parts[1..] == [MonthNames[d.month - 1], NatText(d.year)];
      assert parts[1..][1..] == [NatText(d.year)];
      assert Join(parts[1..], ' ') == MonthNames[d.month - 1] + " " + NatText(d.year);
    }
    NatText(d.day) + " " + MonthNames[d.month - 1] + " " + NatText(d.year)
  }

  lemma NoSpaceInDigits(t: string)
    requires AllDigits(t)
    ensures ' ' !in t
  {
    forall i | 0 <= i < |t| ensures t[i] != ' ' {
      assert IsDigit(t[i]);
    }
  }

  /** Two dates with the same text are the same date. */
  lemma FullDateInjective(a: CalendarDate, b: CalendarDate)
    requires FormatFullDate(a) == FormatFullDate(b)
    ensures a == b
  {
    var pa, pb := Split(FormatFullDate(a), ' '), Split(FormatFullDate(b), ' ');
    assert pa == pb;
    assert NatText(a.day) == NatText(b.day) && NatText(a.year) == NatText(b.year);
    assert MonthNames[a.month - 1] == MonthNames[b.month - 1];
    MonthTable();
  }

  // ---------------------------------------------------------------------
  // format_month

  /** format_month: the key is split on "-" into exactly two pieces (else
      ValueError), int() reads the month, and the month indexes the name
      table, whose negative indexes count from the end. */
  function FormatMonth(key: string): (r: Result<string, Failure>)
    ensures |Split(key, '-')| != 2 ==> r == Err(ValueError)
    ensures r.Err? ==> r.error in {ValueError, IndexError}
  {
    var parts := Split(key, '-');
    if |parts| != 2 then Err(ValueError)
    else
      var month :- ParseInt(parts[1]);
      var name :- PyIndex(MonthNames, month - 1);
      Ok(name + " " + parts[0])
  }

  /** int() of a digit text with no sign reads its value. */
  lemma ParseIntDigits(t: string)
    requires t != [] && AllDigits(t)
    ensures ParseInt(t) == Ok(DigitsValue(t) as int)
  {
    assert IsDigit(t[0]) && IsDigit(t[|t| - 1]);
    assert LeadingSpaces(t) == 0 && TrailingSpaces(t) == 0;
    assert t[0..|t|] == t;
  }

  /** A key made of two dash-free pieces: the month piece is read with
      int() and indexes the table. */
  lemma FormatMonthOf(y: string, m: string, k: int)
    requires '-' !in y && '-' !in m && ParseInt(m) == Ok(k)
    ensures 1 <= k <= 12 ==> FormatMonth(y + "-" + m) == Ok(MonthNames[k - 1] + " " + y)
    ensures -11 <= k <= 0 ==> FormatMonth(y + "-" + m) == Ok(MonthNames[11 + k] + " " + y)
    ensures (k < -11 || k > 12) ==> FormatMonth(y + "-" + m) == Err(IndexError)
  {
    assert y + "-" + m == Join([y, m], '-');
    SplitJoin([y, m], '-');
  }

  /** The month key of a date (strftime("%Y-%m")) formats as its month's
      name and its four-digit year. */
  lemma MonthKeyFormats(d: CalendarDate)
    ensures FormatMonth(MonthKey(d)) == Ok(MonthNames[d.month - 1] + " " + Padded(d.year, 4))
  {
    var y, m := Padded(d.year, 4), Padded(d.month, 2);
    NoDashInDigits(y);
    NoDashInDigits(m);
    assert Pow10(2) == 100;
    PaddedWidth(d.month, 2);
    ParseIntDigits(m);
    FormatMonthOf(y, m, d.month);
  }

  lemma NoDashInDigits(t: string)
    requires AllDigits(t)
    ensures '-' !in t
  {
    forall i | 0 <= i < |t| ensures t[i] != '-' {
      assert IsDigit(t[i]);
    }
  }

  /** "2025-09" gives "Septiembre 2025". */
  lemma MonthExample()
    ensures FormatMonth("2025-09") == Ok("Septiembre 2025")
  {
    assert "2025" + "-" + "09" == "2025-09";
    MonthPieces("09", 9, 8);
    assert MonthNames[8] + " " + "2025" == "Septiembre 2025";
  }

  /** A month "00" reads as index -1, which Python's list indexing takes
      as the last name. */
  lemma MonthZeroWraps()
    ensures FormatMonth("2025-00") == Ok("Diciembre 2025")
  {
    assert "2025" + "-" + "00" == "2025-00";
    MonthPieces("00", 0, 11);
    assert MonthNames[11] + " " + "2025" == "Diciembre 2025";
  }

  /** A key of year 2025 whose two-digit month piece reads as k picks the
      name at index i. */
  lemma MonthPieces(m: string, k: int, i: nat)
    requires |m| == 2 && AllDigits(m) && k == DigitsValue(m) && i < 12
    requires (1 <= k <= 12 && i == k - 1) || (k == 0 && i == 11)
    ensures FormatMonth("2025" + "-" + m) == Ok(MonthNames[i] + " " + "2025")
  {
    ParseIntDigits(m);
    NoDashInDigits(m);
    FormatMonthOf("2025", m, k);
  }

  /** A month piece above 12 raises IndexError. */
  lemma MonthBeyondRaises(y: string, m: string)
    requires '-' !in y && m != [] && AllDigits(m) && DigitsValue(m) > 12
    ensures FormatMonth(y + "-" + m) == Err(IndexError)
  {
    ParseIntDigits(m);
    NoDashInDigits(m);
    FormatMonthOf(y, m, DigitsValue(m));
  }

  /** "2025-13" raises IndexError. */
  lemma MonthThirteenRaises()
    ensures FormatMonth("2025-13") == Err(IndexError)
  {
    assert DigitsValue("13") == 13 by { assert "13"[..1] == "1"; }
    MonthBeyondRaises("2025", "13");
    assert "2025" + "-" + "13" == "2025-13";
  }
}
