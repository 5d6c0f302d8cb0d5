/** companies/yahooData.py: getStockDataYahoo, which reads the price history
    table of a Yahoo! Finance quote page into a header line followed by one
    line per trading period (a date, then the prices and the volume). */
module Yahoo {
  import opened Wrappers
  import opened PyText
  import opened Page

  // ------------------------------------------------------------ frequency

  /** Line 54: the accepted values of `frequency`. */
  const PossibleFrequencies: seq<string> := ["1d", "1wk", "1mo"]

  // ------------------------------------------------------------------ URL

  const QuoteBase: string := "https://sg.finance.yahoo.com/quote/"

  /** Lines 61-66: the history URL for the whole-second timestamps of the
      start and end dates, one piece per line. It always asks for monthly
      data. */
  function YahooUrl(ticker: string, period1: int, period2: int): string
  {
    QuoteBase + ticker + "/history?" + ("period1=" + IntToString(period1))
      + ("&period2=" + IntToString(period2))
      + "&interval=1mo" + "&filter=history" + "&frequency=1mo"
  }

  predicate NoAmpersand(s: string)
  {
    forall j :: 0 <= j < |s| ==> s[j] != '&'
  }

  lemma IntToStringNoAmpersand(i: int)
    ensures NoAmpersand(IntToString(i))
  {
    var digits := NatToString(if i < 0 then -i else i);
    assert AllDigits(digits);
    if i < 0 {
      assert forall j :: 1 <= j < |IntToString(i)| ==> IntToString(i)[j] == digits[j - 1];
    }
  }

  /** The position of the first '&' (the length when there is none). */
  function FirstAmpersand(s: string): (n: nat)
    ensures n <= |s|
  {
    if |s| == 0 || s[0] == '&' then 0 else 1 + FirstAmpersand(s[1..])
  }

  /** Text free of '&' followed by text starting with '&': the first '&'
      is right after the text. */
  lemma {:induction false} FirstAmpersandAfter(x: string, rest: string)
    requires NoAmpersand(x) && |rest| > 0 && rest[0] == '&'
    ensures FirstAmpersand(x + rest) == |x|
  {
    if |x| == 0 {
      assert x + rest == rest;
    } else {
      assert (x + rest)[1..] == x[1..] + rest;
      FirstAmpersandAfter(x[1..], rest);
    }
  }

  lemma IntToStringInjective(a: int, b: int)
    requires IntToString(a) == IntToString(b)
    ensures a == b
  {
    IntRoundTrip(a);
    IntRoundTrip(b);
  }

  /** The shape of the URL: a fixed head, a key and a value free of '&',
      an '&'-led key and a value, fixed pieces. Equal such texts have equal
      values. */
  lemma CutUrl(head: string, k1: string, x1: string, y1: string, k2: string, x2: string, y2: string,
               t1: string, t2: string, t3: string)
    requires NoAmpersand(x1) && NoAmpersand(y1) && |k2| > 0 && k2[0] == '&'
    requires head + (k1 + x1) + (k2 + x2) + t1 + t2 + t3 == head + (k1 + y1) + (k2 + y2) + t1 + t2 + t3
    ensures x1 == y1 && x2 == y2
  {
    var n := |head| + |k1|;
    var tail := t1 + t2 + t3;
    var sx := head + (k1 + x1) + (k2 + x2) + t1 + t2 + t3;
    var sy := head + (k1 + y1) + (k2 + y2) + t1 + t2 + t3;
    var rx, ry := k2 + x2 + tail, k2 + y2 + tail;
    assert sx[n..] == x1 + rx;
    assert sy[n..] == y1 + ry;
    FirstAmpersandAfter(x1, rx);
    FirstAmpersandAfter(y1, ry);
    assert x1 == (x1 + rx)[..|x1|];
    assert y1 == (y1 + ry)[..|y1|];
    assert rx == (x1 + rx)[|x1|..];
    assert ry == (y1 + ry)[|y1|..];
    assert x2 == rx[|k2|..|rx| - |tail|];
    assert y2 == ry[|k2|..|ry| - |tail|];
  }

  /** The URL determines the two periods: different dates give different URLs. */
  lemma YahooUrlPeriods(ticker: string, a1: int, a2: int, b1: int, b2: int)
    requires YahooUrl(ticker, a1, a2) == YahooUrl(ticker, b1, b2)
    ensures a1 == b1 && a2 == b2
  {
    IntToStringNoAmpersand(a1);
    IntToStringNoAmpersand(b1);
    CutUrl(QuoteBase + ticker + "/history?", "period1=", IntToString(a1), IntToString(b1),
           "&period2=", IntToString(a2), IntToString(b2), "&interval=1mo", "&filter=history", "&frequency=1mo");
    IntToStringInjective(a1, b1);
    IntToStringInjective(a2, b2);
  }

  /** A text starts with its first piece and ends with its last three. */
  lemma Ends(head: string, m1: string, m2: string, t1: string, t2: string, t3: string)
    ensures StartsWith(head + m1 + m2 + t1 + t2 + t3, head)
    ensures EndsWith(head + m1 + m2 + t1 + t2 + t3, t1 + t2 + t3)
  {
    var s := head + m1 + m2 + t1 + t2 + t3;
    assert s[..|head|] == head;
    assert s[|s| - |t1 + t2 + t3|..] == t1 + t2 + t3;
  }

  /** Whatever the frequency asked for, the URL names the ticker's quote
      page and asks for monthly prices. */
  lemma YahooUrlShape(ticker: string, period1: int, period2: int)
    ensures StartsWith(YahooUrl(ticker, period1, period2), QuoteBase + ticker + "/history?")
    ensures EndsWith(YahooUrl(ticker, period1, period2), "&interval=1mo" + "&filter=history" + "&frequency=1mo")
  {
    Ends(QuoteBase + ticker + "/history?", "period1=" + IntToString(period1), "&period2=" + IntToString(period2),
         "&interval=1mo", "&filter=history", "&frequency=1mo");
  }

  // ---------------------------------------------------------------- dates

  /** The three-letter month names of a date such as "31 Jul 2020" and the
      month numbers datetime expects: the table line 97 looks up. */
  const MonthNames: seq<string> := ["Jan", "Feb", "Mar", "Apr", "May", "Jun",
                                    "Jul", "Aug", "Sep", "Oct", "Nov", "Dec"]

  const MiniMonthMap: map<string, int> :=
    map["Jan" := 1, "Feb" := 2, "Mar" := 3, "Apr" := 4, "May" := 5, "Jun" := 6,
        "Jul" := 7, "Aug" := 8, "Sep" := 9, "Oct" := 10, "Nov" := 11, "Dec" := 12]

  predicate IsLeapYear(y: int)
  {
    y % 4 == 0 && (y % 100 != 0 || y % 400 == 0)
  }

  function DaysInMonth(y: int, m: int): (days: int)
    requires 1 <= m <= 12
    ensures 28 <= days <= 31
  {
    if m == 2 then (if IsLeapYear(y) then 29 else 28)
    else if m == 4 || m == 6 || m == 9 || m == 11 then 30
    else 31
  }

  /** What datetime(y, m, d) accepts; anything else raises ValueError. */
  predicate ValidDate(y: int, m: int, d: int)
  {
    1 <= y <= 9999 && 1 <= m <= 12 && 1 <= d <= DaysInMonth(y, m)
  }

  /** Lines 96-98 with the month table defined: split the text into day,
      month name and year, convert them, build the date. None stands for
      the ValueError or KeyError any of these steps raises. */
  function ParseDate(text: string): (r: Option<Cell>)
    ensures r.Some? ==> r.value.Date? && ValidDate(r.value.year, r.value.month, r.value.day)
  {
    var tokens := Split(text);
    if |tokens| != 3 then None
    else
      var d, y := PyInt(tokens[0]), PyInt(tokens[2]);
      if d.None? || tokens[1] !in MiniMonthMap || y.None? then None
      else if ValidDate(y.value, MiniMonthMap[tokens[1]], d.value) then
        Some(Date(y.value, MiniMonthMap[tokens[1]], d.value))
      else None
  }

  /** The text Yahoo writes for a date: day, month name and year, one space apart. */
  function DateText(y: int, m: int, d: int): string
    requires 1 <= m <= 12
  {
    IntToString(d) + " " + MonthNames[m - 1] + " " + IntToString(y)
  }

  lemma MonthNameNumber(m: int)
    requires 1 <= m <= 12
    ensures MonthNames[m - 1] in MiniMonthMap && MiniMonthMap[MonthNames[m - 1]] == m
    ensures |MonthNames[m - 1]| == 3 && NoSpace(MonthNames[m - 1])
  {
  }

  /** Every valid date written as Yahoo writes it converts back to itself. */
  lemma DateRoundTrip(y: int, m: int, d: int)
    requires ValidDate(y, m, d)
    ensures ParseDate(DateText(y, m, d)) == Some(Date(y, m, d))
  {
    var name := MonthNames[m - 1];
    MonthNameNumber(m);
    SplitThreeWords(IntToString(d), name, IntToString(y));
    IntRoundTrip(d);
    IntRoundTrip(y);
  }

  /** The date of the example output line. */
  lemma ParseDateExample()
    ensures ParseDate("31 Jul 2020") == Some(Date(2020, 7, 31))
  {
    assert ValidDate(2020, 7, 31);
    assert IntToString(31) == "31" by {
      assert NatToString(31) == NatToString(3) + [DigitChar(1)];
    }
    assert IntToString(2020) == "2020" by {
      assert NatToString(2020) == NatToString(202) + [DigitChar(0)];
      assert NatToString(202) == NatToString(20) + [DigitChar(2)];
      assert NatToString(20) == NatToString(2) + [DigitChar(0)];
    }
    assert DateText(2020, 7, 31) == "31 Jul 2020";
    DateRoundTrip(2020, 7, 31);
  }

  /** Lines 96-97 as written: `miniMonthMaps` is not defined anywhere, so
      no date is ever produced. A text that does not split into three parts
      or whose day does not convert raises ValueError first; any other text
      reaches the lookup and raises NameError. */
  function ParseDateAsWritten(text: string): (r: Option<Cell>)
    ensures r == None
  {
    None
  }

  // ---------------------------------------------------------------- rows

  /** Line 101's `float(d.replace(',', ''))` for each cell; None when one of
      them is not a number. */
  function Floats(texts: seq<string>): (r: Option<seq<Cell>>)
    ensures r.Some? ==> |r.value| == |texts|
  {
    if |texts| == 0 then Some([])
    else
      match Floats(texts[..|texts| - 1])
      case None => None
      case Some(cells) =>
        match PyFloat(RemoveChar(texts[|texts| - 1], ','))
        case None => None
        case Some(v) => Some(cells + [Number(v)])
  }

  /** Line 101 cell by cell: the conversion succeeds exactly when float()
      accepts every text once its commas are removed, and cell j is then
      that number. */
  lemma FloatsAt(texts: seq<string>)
    ensures Floats(texts).Some? <==> forall j :: 0 <= j < |texts| ==> PyFloat(RemoveChar(texts[j], ',')).Some?
    ensures Floats(texts).Some? ==>
      forall j :: 0 <= j < |texts| ==> Floats(texts).value[j] == Number(PyFloat(RemoveChar(texts[j], ',')).value)
  {
    if Floats(texts).Some? {
      forall j | 0 <= j < |texts|
        ensures PyFloat(RemoveChar(texts[j], ',')).Some?
        ensures Floats(texts).value[j] == Number(PyFloat(RemoveChar(texts[j], ',')).value)
      {
        FloatsCellAt(texts, j);
      }
    } else {
      var j := FloatsRefusedCell(texts);
    }
  }

  /** A converted cell is the float of its text. */
  lemma {:induction false} FloatsCellAt(texts: seq<string>, j: nat)
    requires j < |texts| && Floats(texts).Some?
    ensures PyFloat(RemoveChar(texts[j], ',')).Some?
    ensures Floats(texts).value[j] == Number(PyFloat(RemoveChar(texts[j], ',')).value)
  {
    var init, last := texts[..|texts| - 1], texts[|texts| - 1];
    var v := PyFloat(RemoveChar(last, ','));
    assert Floats(init).Some? && v.Some?;
    assert Floats(texts).value == Floats(init).value + [Number(v.value)];
    if j < |texts| - 1 {
      FloatsCellAt(init, j);
      assert init[j] == texts[j];
    }
  }

  /** A refused conversion names a text that float() refuses. */
  lemma {:induction false} FloatsRefusedCell(texts: seq<string>) returns (j: nat)
    requires Floats(texts).None?
    ensures j < |texts| && PyFloat(RemoveChar(texts[j], ',')).None?
  {
    var init, last := texts[..|texts| - 1], texts[|texts| - 1];
    if Floats(init).None? {
      j := FloatsRefusedCell(init);
      assert init[j] == texts[j];
    } else {
      j := |texts| - 1;
    }
  }

  /** Lines 95-101 for the <td> texts of a row that is long enough: the
      first text becomes a date (convert) or stays text, the others become
      numbers. None stands for an exception. */
  function DataLine(data: seq<string>, convert: bool, date: string -> Option<Cell>): (r: Option<seq<Cell>>)
    ensures r.Some? ==> |r.value| == |data|
  {
    if |data| == 0 then
      if convert then None else Some([])
    else
      var first := if convert then date(data[0]) else Some(Text(data[0]));
      match first
      case None => None
      case Some(cell) =>
        match Floats(data[1..])
        case None => None
        case Some(cells) => Some([cell] + cells)
  }

  /** Lines 89-102 for one row, given the header bound so far (None when it
      was never bound, which raises UnboundLocalError at line 91): nothing
      for a row with fewer <td> than header cells, else its line. */
  function RowLines(header: Option<seq<string>>, row: Row, convert: bool,
                    date: string -> Option<Cell>): (r: Option<seq<seq<Cell>>>)
    ensures r.Some? ==> |r.value| <= 1
  {
    if header.None? then None
    else if |row.cells| < |header.value| then Some([])
    else
      match DataLine(row.cells, convert, date)
      case None => None
      case Some(line) => Some([line])
  }

  /** Lines 95-101: the first cell is the converted date (convert) or the
      text itself, every later cell is its float; the line exists exactly
      when all of these convert. A row without cells raises at line 96 under
      convert and gives an empty line otherwise. */
  lemma DataLineCells(data: seq<string>, convert: bool, date: string -> Option<Cell>)
    ensures |data| == 0 ==> DataLine(data, convert, date) == if convert then None else Some([])
    ensures |data| > 0 ==>
      (DataLine(data, convert, date).Some? <==> (!convert || date(data[0]).Some?) && Floats(data[1..]).Some?)
    ensures |data| > 0 && DataLine(data, convert, date).Some? ==>
      DataLine(data, convert, date).value[0] == (if convert then date(data[0]).value else Text(data[0])) &&
      DataLine(data, convert, date).value[1..] == Floats(data[1..]).value
  {
  }

  /** Lines 89-92 in both directions: before the header is bound the row
      raises; a row with fewer <td> than header cells adds nothing; any
      other row adds exactly its line, and raises exactly when that line
      does. */
  lemma RowLinesFilter(header: Option<seq<string>>, row: Row, convert: bool, date: string -> Option<Cell>)
    ensures header.None? ==> RowLines(header, row, convert, date).None?
    ensures header.Some? && |row.cells| < |header.value| ==> RowLines(header, row, convert, date) == Some([])
    ensures header.Some? && |row.cells| >= |header.value| ==>
      (RowLines(header, row, convert, date).Some? <==> DataLine(row.cells, convert, date).Some?)
    ensures header.Some? && |row.cells| >= |header.value| && RowLines(header, row, convert, date).Some? ==>
      RowLines(header, row, convert, date).value == [DataLine(row.cells, convert, date).value]
  {
  }

  /** The lines of a sequence of rows, or None when one of them raised. */
  function Lines(rows: seq<Row>, header: Option<seq<string>>, convert: bool,
                 date: string -> Option<Cell>): Option<seq<seq<Cell>>>
  {
    if |rows| == 0 then Some([])
    else
      match Lines(rows[..|rows| - 1], header, convert, date)
      case None => None
      case Some(lines) =>
        match RowLines(header, rows[|rows| - 1], convert, date)
        case None => None
        case Some(more) => Some(lines + more)
  }

  /** Line 85: the header is the stripped <th> texts of the first row of the
      first table, bound only when that row exists. */
  function YahooHeader(tables: seq<Table>): Option<seq<string>>
  {
    if |tables| > 0 && |tables[0]| > 0 then Some(StripAll(tables[0][0].headers)) else None
  }

  function HeaderPart(header: Option<seq<string>>): seq<seq<Cell>>
  {
    if header.Some? then [Texts(header.value)] else []
  }

  /** Lines 81-110 on the parsed tables: the header line, then the line of
      every long-enough row of every table; [] if any row raised. */
  function YahooTableLines(tables: seq<Table>, convert: bool, date: string -> Option<Cell>): seq<seq<Cell>>
  {
    match Lines(AllRows(tables), YahooHeader(tables), convert, date)
    case None => []
    case Some(lines) => HeaderPart(YahooHeader(tables)) + lines
  }

  /** getStockDataYahoo given what fetching and parsing the URL produced
      (None stands for an exception there): [] for an unknown frequency
      (lines 55-57) or any exception (lines 108-110). */
  function StockData(frequency: string, page: Option<seq<Table>>, convert: bool,
                     date: string -> Option<Cell>): seq<seq<Cell>>
  {
    if frequency !in PossibleFrequencies then []
    else
      match page
      case None => []
      case Some(tables) => YahooTableLines(tables, convert, date)
  }

  /** getStockDataYahoo with the month table defined. `fetch` stands for the
      HTTP request and the HTML parsing of lines 70-77; the periods are the
      whole-second timestamps of the start and end dates. frequency and
      convert default to "1mo" and true, as in line 9. */
  method GetStockDataYahoo(ticker: string, fetch: string -> Option<seq<Table>>, period1: int, period2: int,
                           frequency: string := "1mo", convert: bool := true)
    returns (allData: seq<seq<Cell>>)
    ensures allData == StockData(frequency, fetch(YahooUrl(ticker, period1, period2)), convert, ParseDate)
    ensures frequency !in PossibleFrequencies ==> allData == []
  {
    if frequency !in PossibleFrequencies {
      return [];
    }
    var url := QuoteBase + ticker + "/history?";
    url := url + ("period1=" + IntToString(period1));
    url := url + ("&period2=" + IntToString(period2));
    url := url + "&interval=1mo";
    url := url + "&filter=history";
    url := url + "&frequency=1mo";
    assert url == YahooUrl(ticker, period1, period2);
    var page := fetch(url);
    if page.None? {
      return [];
    }
    allData := ReadHistoryTables(page.value, convert, ParseDate);
  }

  /** Lines 81-106: the nested loops over the tables and their rows. Any
      exception in a row abandons the whole result (lines 108-110). */
  method ReadHistoryTables(tables: seq<Table>, convert: bool, date: string -> Option<Cell>)
    returns (allData: seq<seq<Cell>>)
    ensures allData == YahooTableLines(tables, convert, date)
  {
    ghost var h := YahooHeader(tables);
    var header: Option<seq<string>> := None;
    ghost var lines: seq<seq<Cell>> := [];
    allData := [];
    var tNo := 0;
    while tNo < |tables|
      invariant 0 <= tNo <= |tables|
      invariant header == if tNo > 0 then h else None
      invariant Lines(AllRows(tables[..tNo]), h, convert, date) == Some(lines)
      invariant allData == HeaderPart(header) + lines
    {
      var table := tables[tNo];
      ghost var done := AllRows(tables[..tNo]);
      var i := 0;
      assert done + table[..i] == done;
      while i < |table|
        invariant 0 <= i <= |table|
        invariant header == if tNo > 0 || i > 0 then h else None
        invariant Lines(done + table[..i], h, convert, date) == Some(lines)
        invariant allData == HeaderPart(header) + lines
      {
        var raised;
        header, allData, lines, raised := VisitRow(tables, tNo, i, convert, date, header, allData, lines);
        if raised {
          RaisedRowEndsAll(tables, tNo, i, h, convert, date);
          return [];
        }
        i := i + 1;
      }
      TableStep(tables, tNo);
      tNo := tNo + 1;
    }
    assert tables[..tNo] == tables;
  }

  /** Lines 84-102 for row i of table tNo: bind and emit the header at the
      very first row, then emit the row's line. `raised` reports an
      exception. */
  method VisitRow(tables: seq<Table>, tNo: nat, i: nat, convert: bool, date: string -> Option<Cell>,
                  header0: Option<seq<string>>, allData0: seq<seq<Cell>>, ghost lines0: seq<seq<Cell>>)
    returns (header: Option<seq<string>>, allData: seq<seq<Cell>>, ghost lines: seq<seq<Cell>>, raised: bool)
    requires tNo < |tables| && i < |tables[tNo]|
    requires header0 == if tNo > 0 || i > 0 then YahooHeader(tables) else None
    requires Lines(AllRows(tables[..tNo]) + tables[tNo][..i], YahooHeader(tables), convert, date) == Some(lines0)
    requires allData0 == HeaderPart(header0) + lines0
    ensures raised ==> Lines(AllRows(tables[..tNo]) + tables[tNo][..i + 1], YahooHeader(tables), convert, date).None?
    ensures !raised ==> header == YahooHeader(tables)
    ensures !raised ==> Lines(AllRows(tables[..tNo]) + tables[tNo][..i + 1], YahooHeader(tables), convert, date) == Some(lines)
    ensures !raised ==> allData == HeaderPart(header) + lines
  {
    ghost var h := YahooHeader(tables);
    ghost var done := AllRows(tables[..tNo]);
    header, allData, lines := header0, allData0, lines0;
    var row := tables[tNo][i];
    if i == 0 && tNo == 0 {
      FirstRowHeader(tables, done, h, convert, date, lines, allData);
      header := Some(StripAll(row.headers));
      allData := allData + [Texts(header.value)];
    }
    var more := RowStep(header, row, convert, date);
    RowPrefixStep(done, tables[tNo], i, h, convert, date, lines, more);
    if more.None? {
      return header, [], lines, true;
    }
    allData := allData + more.value;
    lines := lines + more.value;
    raised := false;
  }

  /** When the first row is reached nothing has been appended, and the header
      bound there is the header of the whole page. */
  lemma FirstRowHeader(tables: seq<Table>, done: seq<Row>, h: Option<seq<string>>, convert: bool,
                       date: string -> Option<Cell>, lines: seq<seq<Cell>>, before: seq<seq<Cell>>)
    requires |tables| > 0 && |tables[0]| > 0
    requires done == AllRows(tables[..0]) && h == YahooHeader(tables)
    requires Lines(done + tables[0][..0], h, convert, date) == Some(lines)
    requires before == HeaderPart(None) + lines
    ensures h == Some(StripAll(tables[0][0].headers))
    ensures before + [Texts(StripAll(tables[0][0].headers))] == HeaderPart(h) + lines
  {
    assert done + tables[0][..0] == [];
    assert lines == [];
  }

  /** One pass of the row loop: the row's lines follow those before it. */
  lemma RowPrefixStep(done: seq<Row>, table: Table, i: nat, h: Option<seq<string>>, convert: bool,
                      date: string -> Option<Cell>, lines: seq<seq<Cell>>, more: Option<seq<seq<Cell>>>)
    requires i < |table|
    requires Lines(done + table[..i], h, convert, date) == Some(lines)
    requires more == RowLines(h, table[i], convert, date)
    ensures Lines(done + table[..i + 1], h, convert, date)
         == if more.None? then None else Some(lines + more.value)
  {
    assert table[..i + 1] == table[..i] + [table[i]];
    assert (done + table[..i + 1])[..|done + table[..i + 1]| - 1] == done + table[..i];
  }

  /** A row that raises makes the whole page's lines None. */
  lemma RaisedRowEndsAll(tables: seq<Table>, tNo: nat, i: nat, h: Option<seq<string>>, convert: bool,
                          date: string -> Option<Cell>)
    requires tNo < |tables| && i < |tables[tNo]|
    requires Lines(AllRows(tables[..tNo]) + tables[tNo][..i + 1], h, convert, date).None?
    ensures Lines(AllRows(tables), h, convert, date).None?
  {
    var table := tables[tNo];
    var front := AllRows(tables[..tNo]) + table[..i + 1];
    var back := table[i + 1..] + AllRows(tables[tNo + 1..]);
    assert tables == tables[..tNo] + [table] + tables[tNo + 1..];
    AllRowsAppend(tables[..tNo] + [table], tables[tNo + 1..]);
    AllRowsAppend(tables[..tNo], [table]);
    assert AllRows([table]) == AllRows([table][..0]) + table;
    assert table == table[..i + 1] + table[i + 1..];
    assert AllRows(tables) == front + back;
    LinesRaised(front, back, h, convert, date);
  }

  /** Once a row raised, no later row changes that. */
  lemma {:induction false} LinesRaised(a: seq<Row>, b: seq<Row>, h: Option<seq<string>>, convert: bool,
                                       date: string -> Option<Cell>)
    requires Lines(a, h, convert, date).None?
    ensures Lines(a + b, h, convert, date).None?
  {
    if |b| == 0 {
      assert a + b == a;
    } else {
      LinesRaised(a, b[..|b| - 1], h, convert, date);
      assert (a + b)[..|a + b| - 1] == a + b[..|b| - 1];
    }
  }

  lemma TableStep(tables: seq<Table>, tNo: nat)
    requires tNo < |tables|
    ensures AllRows(tables[..tNo]) + tables[tNo][..|tables[tNo]|] == AllRows(tables[..tNo + 1])
  {
    assert tables[..tNo + 1][..tNo] == tables[..tNo];
    assert tables[tNo][..|tables[tNo]|] == tables[tNo];
  }

  /** Lines 89-102 for one row. */
  method RowStep(header: Option<seq<string>>, row: Row, convert: bool, date: string -> Option<Cell>)
    returns (more: Option<seq<seq<Cell>>>)
    ensures more == RowLines(header, row, convert, date)
  {
    if header.None? {
      return None;
    }
    var data := row.cells;
    if |data| < |header.value| {
      return Some([]);
    }
    var first: Cell;
    if |data| == 0 {
      if convert {
        return None;
      }
      return Some([[]]);
    }
    if convert {
      var day := date(data[0]);
      if day.None? {
        return None;
      }
      first := day.value;
    } else {
      first := Text(data[0]);
    }
    var rest := ConvertFloats(data[1..]);
    if rest.None? {
      return None;
    }
    more := Some([[first] + rest.value]);
  }

  /** Line 101's comprehension over the cells after the first. */
  method ConvertFloats(texts: seq<string>) returns (cells: Option<seq<Cell>>)
    ensures cells == Floats(texts)
  {
    var acc: seq<Cell> := [];
    var j := 0;
    while j < |texts|
      invariant 0 <= j <= |texts|
      invariant Floats(texts[..j]) == Some(acc)
    {
      var v := PyFloat(RemoveChar(texts[j], ','));
      FloatsStep(texts, j, acc, v);
      if v.None? {
        FloatsRaisedAt(texts, j + 1);
        return None;
      }
      acc := acc + [Number(v.value)];
      j := j + 1;
    }
    assert texts[..j] == texts;
    cells := Some(acc);
  }

  lemma FloatsStep(texts: seq<string>, j: nat, acc: seq<Cell>, v: Option<real>)
    requires j < |texts| && Floats(texts[..j]) == Some(acc)
    requires v == PyFloat(RemoveChar(texts[j], ','))
    ensures Floats(texts[..j + 1]) == if v.None? then None else Some(acc + [Number(v.value)])
  {
    assert texts[..j + 1][..j] == texts[..j];
  }

  /** A cell that is not a number spoils the whole line. */
  lemma FloatsRaisedAt(texts: seq<string>, j: nat)
    requires j <= |texts| && Floats(texts[..j]).None?
    ensures Floats(texts).None?
  {
    FloatsRaised(texts[..j], texts[j..]);
    assert texts[..j] + texts[j..] == texts;
  }

  lemma {:induction false} FloatsRaised(a: seq<string>, b: seq<string>)
    requires Floats(a).None?
    ensures Floats(a + b).None?
  {
    if |b| == 0 {
      assert a + b == a;
    } else {
      FloatsRaised(a, b[..|b| - 1]);
      assert (a + b)[..|a + b| - 1] == a + b[..|b| - 1];
    }
  }

  // ---------------------------------------------------------------- properties

  /** The length filter of lines 91-92: every line has at least as many cells
      as the header, there is at most one line per row, and without
      conversion the first cell keeps the date text. */
  lemma {:induction false} LinesShape(rows: seq<Row>, hd: seq<string>, convert: bool,
                                      date: string -> Option<Cell>)
    requires Lines(rows, Some(hd), convert, date).Some?
    ensures |Lines(rows, Some(hd), convert, date).value| <= |rows|
    ensures forall line :: line in Lines(rows, Some(hd), convert, date).value ==> |line| >= |hd|
    ensures !convert ==> forall line: seq<Cell> :: line in Lines(rows, Some(hd), convert, date).value && |line| > 0 ==> line[0].Text?
  {
    if |rows| > 0 {
      LinesShape(rows[..|rows| - 1], hd, convert, date);
    }
  }

  /** The first line of a non-empty result is the header line of line 86. */
  lemma HeaderLineFirst(tables: seq<Table>, convert: bool, date: string -> Option<Cell>)
    requires YahooTableLines(tables, convert, date) != []
    ensures YahooHeader(tables).Some?
    ensures YahooTableLines(tables, convert, date)[0] == Texts(StripAll(tables[0][0].headers))
  {
  }

  /** Lines 95-99 as written: with conversion on, every row that passes the
      length filter raises NameError, so no row ever adds a line. */
  lemma {:induction false} AsWrittenNoDataLines(rows: seq<Row>, hd: seq<string>)
    ensures Lines(rows, Some(hd), true, ParseDateAsWritten).None? ||
            Lines(rows, Some(hd), true, ParseDateAsWritten).value == []
  {
    if |rows| > 0 {
      AsWrittenNoDataLines(rows[..|rows| - 1], hd);
      var row := rows[|rows| - 1];
      if |row.cells| >= |hd| {
        assert DataLine(row.cells, true, ParseDateAsWritten).None? by {
          if |row.cells| > 0 {
            assert ParseDateAsWritten(row.cells[0]) == None;
          }
        }
      }
    }
  }

  /** Hence the converted result is at most the header line. */
  lemma AsWrittenOnlyHeader(tables: seq<Table>)
    ensures |YahooTableLines(tables, true, ParseDateAsWritten)| <= 1
  {
    if YahooHeader(tables).Some? {
      AsWrittenNoDataLines(AllRows(tables), YahooHeader(tables).value);
    }
  }

  /** Lines of rows followed by one more row. */
  lemma LinesAppendRow(rows: seq<Row>, row: Row, h: Option<seq<string>>, convert: bool,
                       date: string -> Option<Cell>)
    ensures Lines(rows + [row], h, convert, date) ==
            if Lines(rows, h, convert, date).None? || RowLines(h, row, convert, date).None? then None
            else Some(Lines(rows, h, convert, date).value + RowLines(h, row, convert, date).value)
  {
    assert (rows + [row])[..|rows|] == rows;
  }

  /** A history table of a header row and one dated row: the date line
      appears when the date converts, and nothing at all when it raises. */
  lemma OneDatedRow(name: string, text: string, date: string -> Option<Cell>)
    requires Strip(name) == name
    ensures YahooTableLines([[Row([name], []), Row([], [text])]], true, date) ==
            if date(text).Some? then [[Text(name)], [date(text).value]] else []
  {
    var row0, row1 := Row([name], []), Row([], [text]);
    var tables := [[row0, row1]];
    assert AllRows(tables) == [row0, row1] by {
      assert tables[..0] == [];
    }
    assert StripAll([name]) == [name] by {
      assert StripAll([name])[0] == Strip(name);
    }
    assert YahooHeader(tables) == Some([name]);
    LinesAppendRow([], row0, Some([name]), true, date);
    assert [] + [row0] == [row0];
    LinesAppendRow([row0], row1, Some([name]), true, date);
    assert [row0] + [row1] == [row0, row1];
    assert [text][1..] == [];
    assert Floats([]) == Some([]);
    assert DataLine([text], true, date) == if date(text).Some? then Some([date(text).value]) else None by {
      if date(text).Some? {
        var cells: seq<Cell> := [];
        assert [date(text).value] + cells == [date(text).value];
      }
    }
    assert RowLines(Some([name]), row1, true, date) ==
           if date(text).Some? then Some([[date(text).value]]) else None;
    assert Texts([name]) == [Text(name)] by {
      assert Texts([name])[0] == Text(name);
    }
  }

  /** The example date: with the month table defined the row becomes a date
      line; as written the same page yields nothing at all. */
  lemma MonthTableFinding()
    ensures YahooTableLines([[Row(["Date"], []), Row([], ["31 Jul 2020"])]], true, ParseDate) ==
            [[Text("Date")], [Date(2020, 7, 31)]]
    ensures YahooTableLines([[Row(["Date"], []), Row([], ["31 Jul 2020"])]], true, ParseDateAsWritten) == []
  {
    StripUnchanged("Date");
    ParseDateExample();
    OneDatedRow("Date", "31 Jul 2020", ParseDate);
    OneDatedRow("Date", "31 Jul 2020", ParseDateAsWritten);
  }
}
