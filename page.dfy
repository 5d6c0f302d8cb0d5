/** The abstract shape of a parsed HTML page: what BeautifulSoup's
    find_all('table'), find_all('tr') and find_all('th' / 'td') with
    get_text() hand to the scraping code. */
module Page {
  import opened PyText

  /** One <tr>: the texts of its <th> cells and the texts of its <td> cells. */
  datatype Row = Row(headers: seq<string>, cells: seq<string>)

  /** One <table>: its rows in document order. */
  type Table = seq<Row>

  /** A cell of a scraped result list: the label or header text, a number,
      or a calendar date (Python's datetime at midnight). */
  datatype Cell = Text(s: string) | Number(v: real) | Date(year: int, month: int, day: int)

  /** Python's `s[:-1]`: everything but the last element (nothing for an empty list). */
  function DropLast<T>(s: seq<T>): (r: seq<T>)
    ensures |s| > 0 ==> |r| == |s| - 1 && r + [s[|s| - 1]] == s
    ensures |s| == 0 ==> r == []
  {
    if |s| == 0 then [] else s[..|s| - 1]
  }

  /** `[t.strip() for t in texts]` */
  function StripAll(texts: seq<string>): (r: seq<string>)
    ensures |r| == |texts|
    ensures forall j :: 0 <= j < |texts| ==> r[j] == Strip(texts[j])
  {
    seq(|texts|, j requires 0 <= j < |texts| => Strip(texts[j]))
  }

  /** Texts as cells, unchanged. */
  function Texts(texts: seq<string>): (r: seq<Cell>)
    ensures |r| == |texts|
    ensures forall j :: 0 <= j < |texts| ==> r[j] == Text(texts[j])
  {
    seq(|texts|, j requires 0 <= j < |texts| => Text(texts[j]))
  }

  /** The rows of all tables, concatenated in table order. */
  function AllRows(tables: seq<Table>): seq<Row>
  {
    if |tables| == 0 then [] else AllRows(tables[..|tables| - 1]) + tables[|tables| - 1]
  }

  lemma {:induction false} AllRowsAppend(a: seq<Table>, b: seq<Table>)
    ensures AllRows(a + b) == AllRows(a) + AllRows(b)
  {
    if |b| == 0 {
      assert a + b == a;
    } else {
      var b' := b[..|b| - 1];
      assert (a + b)[..|a + b| - 1] == a + b';
      AllRowsAppend(a, b');
    }
  }
}
