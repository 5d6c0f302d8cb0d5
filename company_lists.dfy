/** companyLists.py: the S&P 500 constituents table of the Wikipedia list
    page turned into one record per company, keyed by the table's header. */
module CompanyLists {
  import opened Wrappers
  import opened PyText
  import opened Page

  /** A company record: header text to the text of the matching data cell. */
  type Record = map<string, string>

  function Min(a: nat, b: nat): nat
  {
    if a <= b then a else b
  }

  /** dict(zip(keys, values)) over the first n pairs. The pairs are inserted
      in order, so the key set is the first n keys. */
  function ZipPrefix(keys: seq<string>, values: seq<string>, n: nat): (r: Record)
    requires n <= |keys| && n <= |values|
    ensures r.Keys == set j | 0 <= j < n :: keys[j]
  {
    if n == 0 then map[]
    else
      var before := ZipPrefix(keys, values, n - 1);
      assert (set j | 0 <= j < n :: keys[j]) == before.Keys + {keys[n - 1]};
      before[keys[n - 1] := values[n - 1]]
  }

  /** Python's dict(zip(keys, values)): zip stops at the shorter list. */
  function Zip(keys: seq<string>, values: seq<string>): Record
  {
    ZipPrefix(keys, values, Min(|keys|, |values|))
  }

  /** A key that does not come back later in the zipped prefix keeps the
      value paired with it: the last occurrence of a repeated key wins. */
  lemma {:induction false} ZipLastWins(keys: seq<string>, values: seq<string>, n: nat, j: nat)
    requires n <= |keys| && n <= |values| && j < n
    requires forall i :: j < i < n ==> keys[i] != keys[j]
    ensures ZipPrefix(keys, values, n)[keys[j]] == values[j]
  {
    if j < n - 1 {
      ZipLastWins(keys, values, n - 1, j);
    }
  }

  /** Line 46 for one data row: the header zipped with the row's stripped
      <td> texts. */
  function RowRecord(header: seq<string>, row: Row): Record
  {
    Zip(header, StripAll(row.cells))
  }

  /** The keys of a row's record are the headers of the columns the row
      has; headers beyond the shorter list are absent. */
  lemma RowRecordKeys(header: seq<string>, row: Row)
    ensures RowRecord(header, row).Keys == set j | 0 <= j < |header| && j < |row.cells| :: header[j]
  {
    assert (set j | 0 <= j < |header| && j < |row.cells| :: header[j]) ==
           (set j | 0 <= j < Min(|header|, |row.cells|) :: header[j]);
  }

  /** With header texts all different, every zipped header names the
      stripped text of its own column. */
  lemma RowRecordFields(header: seq<string>, row: Row, j: nat)
    requires forall a, b :: 0 <= a < b < |header| ==> header[a] != header[b]
    requires j < |header| && j < |row.cells|
    ensures RowRecord(header, row)[header[j]] == Strip(row.cells[j])
  {
    ZipLastWins(header, StripAll(row.cells), Min(|header|, |row.cells|), j);
  }

  /** Line 41: the header is the stripped <th> texts of the first row. */
  function CompanyHeader(rows: Table): (header: seq<string>)
    requires |rows| > 0
    ensures |header| == |rows[0].headers|
    ensures forall j :: 0 <= j < |header| ==> header[j] == Strip(rows[0].headers[j])
  {
    StripAll(rows[0].headers)
  }

  /** The records of the data rows, in row order. */
  function Records(header: seq<string>, rows: seq<Row>): seq<Record>
  {
    if |rows| == 0 then [] else Records(header, rows[..|rows| - 1]) + [RowRecord(header, rows[|rows| - 1])]
  }

  /** Exactly one record per data row, and record k is the one of row k. */
  lemma {:induction false} RecordsAt(header: seq<string>, rows: seq<Row>, k: nat)
    requires k < |rows|
    ensures |Records(header, rows)| == |rows|
    ensures Records(header, rows)[k] == RowRecord(header, rows[k])
  {
    if k < |rows| - 1 {
      RecordsAt(header, rows[..|rows| - 1], k);
    } else if k > 0 {
      RecordsAt(header, rows[..|rows| - 1], k - 1);
    }
  }

  /** getSNP500CompanyList on the rows of the table with id "constituents"
      (None when the page has no such table, whose find_all then raises):
      one record per row after the first, or [] on any exception (lines
      53-56), here a missing table or a table with no rows (rows[0] at line 40). */
  function CompanyRecords(constituents: Option<Table>): seq<Record>
  {
    match constituents
    case None => []
    case Some(rows) => if |rows| == 0 then [] else Records(CompanyHeader(rows), rows[1..])
  }

  /** Lines 29-56 once the table is found: the header from the first row,
      then a loop appending one record per remaining row, in row order. */
  method GetSNP500CompanyList(constituents: Option<Table>) returns (results: seq<Record>)
    ensures results == CompanyRecords(constituents)
    ensures constituents.None? || |constituents.value| == 0 ==> results == []
    ensures constituents.Some? && |constituents.value| > 0 ==> |results| == |constituents.value| - 1
  {
    if constituents.None? {
      return [];
    }
    var rows := constituents.value;
    if |rows| == 0 {
      return [];
    }
    var header := StripAll(rows[0].headers);
    results := [];
    for i := 1 to |rows|
      invariant results == Records(header, rows[1..i])
      invariant |results| == i - 1
    {
      var data := RowRecord(header, rows[i]);
      assert rows[1..i + 1][..i - 1] == rows[1..i];
      results := results + [data];
    }
    assert rows[1..|rows|] == rows[1..];
  }

  /** Record i comes from data row i + 1: it holds exactly the headers of the
      columns that row has, and with distinct headers each names the
      stripped text of its column. */
  lemma CompanyRecordFields(rows: Table, i: nat, j: nat)
    requires |rows| > 0 && i < |rows| - 1
    requires forall a, b :: 0 <= a < b < |rows[0].headers| ==> Strip(rows[0].headers[a]) != Strip(rows[0].headers[b])
    requires j < |rows[0].headers| && j < |rows[i + 1].cells|
    ensures |CompanyRecords(Some(rows))| == |rows| - 1
    ensures CompanyRecords(Some(rows))[i].Keys ==
            set k | 0 <= k < |rows[0].headers| && k < |rows[i + 1].cells| :: Strip(rows[0].headers[k])
    ensures CompanyRecords(Some(rows))[i][Strip(rows[0].headers[j])] == Strip(rows[i + 1].cells[j])
  {
    var header := CompanyHeader(rows);
    RecordsAt(header, rows[1..], i);
    assert CompanyRecords(Some(rows))[i] == RowRecord(header, rows[i + 1]);
    RowRecordFields(header, rows[i + 1], j);
    RowRecordKeys(header, rows[i + 1]);
    assert (set k | 0 <= k < |header| && k < |rows[i + 1].cells| :: header[k]) ==
           (set k | 0 <= k < |rows[0].headers| && k < |rows[i + 1].cells| :: Strip(rows[0].headers[k]));
  }

  /** Two header cells with the same text collapse into one key, which keeps
      the later column's text: a three-column example. */
  lemma RepeatedHeaderKeepsLast()
    ensures Zip(["Symbol", "Name", "Symbol"], ["MMM", "3M", "X"]) == map["Symbol" := "X", "Name" := "3M"]
  {
    var keys, values := ["Symbol", "Name", "Symbol"], ["MMM", "3M", "X"];
    assert ZipPrefix(keys, values, 1) == map["Symbol" := "MMM"];
    assert ZipPrefix(keys, values, 2) == map["Symbol" := "MMM", "Name" := "3M"];
  }
}
