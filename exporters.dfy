/**
 * The exporters, as renderers: each builds what it hands to its writer
 * (`json.dump`, `csv.DictWriter`, `pandas.DataFrame.to_excel`,
 * `ElementTree.write`), and the writing itself is not modelled.
 */
module Exporters {
  import opened Optional
  import opened Text
  import opened Records

  /** An `xml.etree.ElementTree.Element`: tag, attributes, text and children in order. */
  datatype Element = Element(tag: string, attributes: seq<(string, string)>, text: Option<string>, children: seq<Element>)

  /** A child element that carries only text. */
  function Leaf(tag: string, text: string): Element {
    Element(tag, [], Some(text), [])
  }

  /** What an exporter hands to its writer, or that it writes nothing. */
  datatype Rendering =
    | Skipped
    | JsonArray(records: seq<Record>)
    | CsvTable(header: seq<string>, rows: seq<seq<string>>)
    | CsvRejected
    | Sheet(records: seq<Record>)
    | XmlDocument(root: Element)

  /** `export_json`: the whole list, unchanged, as a JSON array of objects. */
  function ExportJson(records: seq<Record>): (out: Rendering)
    ensures out != Skipped
    ensures out.JsonArray? && out.records == records
  {
    JsonArray(records)
  }

  // ---------------------------------------------------------------------------
  // CSV

  predicate KeyInRecords(records: seq<Record>, k: string) {
    exists i :: 0 <= i < |records| && HasKey(records[i], k)
  }

  /** Adds the keys of one record to an increasing list of field names. */
  function InsertKeys(r: Record, acc: seq<string>): (h: seq<string>)
    requires Increasing(acc)
    ensures Increasing(h)
    ensures forall k :: k in h <==> k in acc || HasKey(r, k)
    decreases |r|
  {
    if r == [] then acc
    else
      var h := InsertKeys(r[1..], InsertSorted(r[0].key, acc));
      assert forall k :: HasKey(r, k) <==> k == r[0].key || HasKey(r[1..], k) by {
        forall k ensures HasKey(r, k) <==> k == r[0].key || HasKey(r[1..], k) {
          if HasKey(r, k) && k != r[0].key {
            var j :| 0 <= j < |r| && r[j].key == k;
            assert r[1..][j - 1].key == k;
          }
          if HasKey(r[1..], k) {
            var j :| 0 <= j < |r[1..]| && r[1..][j].key == k;
            assert r[j + 1].key == k;
          }
        }
      }
      h
  }

  /**
   * `sorted({key for record in records for key in record.keys()})`: the
   * field names of all records, each once, in increasing order.
   */
  function CsvHeader(records: seq<Record>): (h: seq<string>)
    ensures Increasing(h)
    ensures forall k :: k in h <==> KeyInRecords(records, k)
    decreases |records|
  {
    if records == [] then []
    else
      var n := |records| - 1;
      var h := InsertKeys(records[n], CsvHeader(records[..n]));
      assert forall k :: KeyInRecords(records, k) <==> KeyInRecords(records[..n], k) || HasKey(records[n], k) by {
        forall k ensures KeyInRecords(records, k) <==> KeyInRecords(records[..n], k) || HasKey(records[n], k) {
          if KeyInRecords(records, k) && !HasKey(records[n], k) {
            var i :| 0 <= i < |records| && HasKey(records[i], k);
            assert records[..n][i] == records[i];
          }
          if KeyInRecords(records[..n], k) {
            var i :| 0 <= i < n && HasKey(records[..n][i], k);
            assert records[..n][i] == records[i];
          }
        }
      }
      h
  }

  /** The header is the one list `sorted` can give for that set of keys. */
  lemma CsvHeaderIsSortedKeySet(records: seq<Record>, h: seq<string>)
    requires Increasing(h)
    requires forall k :: k in h <==> KeyInRecords(records, k)
    ensures h == CsvHeader(records)
  {
    IncreasingUnique(h, CsvHeader(records));
  }

  /** A cell: the record's value for the column, `""` for `None` and for a missing key. */
  function Cell(r: Record, column: string): string {
    match Get(r, column)
    case Some(v) => TextOf(v)
    case None => ""
  }

  /**
   * `DictWriter.writerow` with the default `extrasaction="raise"`: a record
   * with a key outside the header is refused (`None`), otherwise one cell
   * per header column.
   */
  function DictRow(header: seq<string>, r: Record): (row: Option<seq<string>>)
    ensures row.Some? <==> forall j :: 0 <= j < |r| ==> r[j].key in header
    ensures row.Some? ==> |row.value| == |header|
    ensures row.Some? ==> forall c :: 0 <= c < |header| ==> row.value[c] == Cell(r, header[c])
  {
    if forall j :: 0 <= j < |r| ==> r[j].key in header then
      Some(seq(|header|, c requires 0 <= c < |header| => Cell(r, header[c])))
    else None
  }

  /**
   * What `writerow` puts in each column: under a key of the record, that
   * key's value as text; under any other column, `""`.
   */
  lemma DictRowCells(header: seq<string>, r: Record, row: seq<string>)
    requires DistinctKeys(r)
    requires DictRow(header, r) == Some(row)
    ensures forall c, j :: 0 <= c < |header| && 0 <= j < |r| && header[c] == r[j].key ==> row[c] == TextOf(r[j].value)
    ensures forall c :: 0 <= c < |header| && !HasKey(r, header[c]) ==> row[c] == ""
  {
    forall c, j | 0 <= c < |header| && 0 <= j < |r| && header[c] == r[j].key
      ensures row[c] == TextOf(r[j].value)
    {
      GetDistinct(r, j);
    }
  }

  /** `writerows`: every row, or `None` if some record is refused. */
  function DictRows(header: seq<string>, records: seq<Record>): (rows: Option<seq<seq<string>>>)
    ensures rows.Some? <==> forall i :: 0 <= i < |records| ==> DictRow(header, records[i]).Some?
    ensures rows.Some? ==> |rows.value| == |records|
    ensures rows.Some? ==> forall i :: 0 <= i < |records| ==> DictRow(header, records[i]) == Some(rows.value[i])
  {
    if forall i :: 0 <= i < |records| ==> DictRow(header, records[i]).Some? then
      Some(seq(|records|, i requires 0 <= i < |records| => DictRow(header, records[i]).value))
    else None
  }

  /**
   * `export_csv`: nothing for no records; otherwise the sorted header and
   * one row per record in order. No record is ever refused, because the
   * header holds every key of every record.
   */
  function ExportCsv(records: seq<Record>): (out: Rendering)
    ensures records == [] <==> out == Skipped
    ensures records != [] ==> out.CsvTable?
    ensures out.CsvTable? ==> out.header == CsvHeader(records) && |out.rows| == |records|
    ensures out.CsvTable? ==> forall i :: 0 <= i < |records| ==> DictRow(out.header, records[i]) == Some(out.rows[i])
  {
    if records == [] then Skipped
    else
      var header := CsvHeader(records);
      assert forall i :: 0 <= i < |records| ==> DictRow(header, records[i]).Some? by {
        forall i, j | 0 <= i < |records| && 0 <= j < |records[i]| ensures records[i][j].key in header {
          assert HasKey(records[i], records[i][j].key);
        }
      }
      match DictRows(header, records)
      case Some(rows) => CsvTable(header, rows)
      case None => CsvRejected
  }

  // ---------------------------------------------------------------------------
  // Excel

  /** `export_excel`: nothing for no records, otherwise a frame of all records. */
  function ExportExcel(records: seq<Record>): (out: Rendering)
    ensures records == [] <==> out == Skipped
    ensures records != [] ==> out == Sheet(records)
  {
    if records == [] then Skipped else Sheet(records)
  }

  // ---------------------------------------------------------------------------
  // XML

  /** A `company` element that lists the record's fields in order, `None` as empty text. */
  predicate IsCompanyElement(e: Element, r: Record) {
    e.tag == "company" && e.attributes == [] && e.text == None && |e.children| == |r|
    && forall j :: 0 <= j < |r| ==> e.children[j] == Leaf(r[j].key, TextOf(r[j].value))
  }

  /** A `companies` root with one `company` per record, in order; no records give an empty root. */
  predicate IsXmlTreeOf(root: Element, records: seq<Record>) {
    root.tag == "companies" && root.attributes == [] && root.text == None
    && |root.children| == |records|
    && forall i :: 0 <= i < |records| ==> IsCompanyElement(root.children[i], records[i])
  }

  /** The tree `export_xml` writes. */
  method BuildXmlTree(records: seq<Record>) returns (root: Element)
    ensures IsXmlTreeOf(root, records)
  {
    root := Element("companies", [], None, []);
    for i := 0 to |records|
      invariant root.tag == "companies" && root.attributes == [] && root.text == None
      invariant |root.children| == i
      invariant forall k :: 0 <= k < i ==> IsCompanyElement(root.children[k], records[k])
    {
      var record := records[i];
      var company := Element("company", [], None, []);
      for j := 0 to |record|
        invariant company.tag == "company" && company.attributes == [] && company.text == None
        invariant |company.children| == j
        invariant forall m :: 0 <= m < j ==> company.children[m] == Leaf(record[m].key, TextOf(record[m].value))
      {
        var child := Leaf(record[j].key, TextOf(record[j].value));
        company := company.(children := company.children + [child]);
      }
      root := root.(children := root.children + [company]);
    }
  }

  // ---------------------------------------------------------------------------
  // RSS

  const FeedTitle := "LinkedIn Company URL Results"
  const FeedLink := "https://example.com/linkedin-company-url-feed"
  const FeedDescription := "Feed containing LinkedIn company profile URLs discovered by the scraper."
  const UnknownCompany := "Unknown Company"
  const LinkedInHome := "https://www.linkedin.com/"

  /** Item title: the company name, or a placeholder when it is absent or empty. */
  function ItemTitle(r: Record): (t: string)
    ensures t != ""
    ensures Truthy(Get(r, "companyName")) ==> Get(r, "companyName") == Some(Str(t))
    ensures !Truthy(Get(r, "companyName")) ==> t == UnknownCompany
  {
    GetOr(r, "companyName", UnknownCompany)
  }

  /** Item link: the LinkedIn URL, or LinkedIn's home page when it is absent or empty. */
  function ItemLink(r: Record): (l: string)
    ensures l != ""
    ensures Truthy(Get(r, "linkedinUrl")) ==> Get(r, "linkedinUrl") == Some(Str(l))
    ensures !Truthy(Get(r, "linkedinUrl")) ==> l == LinkedInHome
  {
    GetOr(r, "linkedinUrl", LinkedInHome)
  }

  /** Item description: the status (or `Unknown`) and the query (or nothing). */
  function ItemDescription(r: Record): (d: string)
    ensures "Status: " <= d
  {
    "Status: " + GetOr(r, "infoStatus", "Unknown") + ". Query: " + GetOr(r, "searchQuery", "")
  }

  /** The `item` of a record: title, link and description, in that order. */
  function FeedItem(r: Record): Element {
    Element("item", [], None,
            [Leaf("title", ItemTitle(r)), Leaf("link", ItemLink(r)), Leaf("description", ItemDescription(r))])
  }

  /** The fixed channel head: the three elements RSS 2.0 requires of a channel. */
  function ChannelHead(): seq<Element> {
    [Leaf("title", FeedTitle), Leaf("link", FeedLink), Leaf("description", FeedDescription)]
  }

  /**
   * An `rss` element of version 2.0 with one `channel`, whose fixed title,
   * link and description are followed by one `item` per record, in order.
   */
  predicate IsRssFeedOf(rss: Element, records: seq<Record>) {
    rss.tag == "rss" && rss.attributes == [("version", "2.0")] && rss.text == None
    && |rss.children| == 1
    && rss.children[0].tag == "channel" && rss.children[0].attributes == [] && rss.children[0].text == None
    && |rss.children[0].children| == 3 + |records|
    && rss.children[0].children[..3] == ChannelHead()
    && forall i :: 0 <= i < |records| ==> rss.children[0].children[3 + i] == FeedItem(records[i])
  }

  /** The tree `export_rss` writes. */
  method BuildItem(record: Record) returns (item: Element)
    ensures item == FeedItem(record)
  {
    item := Element("item", [], None, []);
    item := item.(children := item.children + [Leaf("title", ItemTitle(record))]);
    item := item.(children := item.children + [Leaf("link", ItemLink(record))]);
    item := item.(children := item.children + [Leaf("description", ItemDescription(record))]);
  }

  /** A channel of the fixed head followed by the items of the records makes the feed. */
  lemma RssFeedOfItems(items: seq<Element>, records: seq<Record>)
    requires |items| == |records|
    requires forall k :: 0 <= k < |items| ==> items[k] == FeedItem(records[k])
    ensures IsRssFeedOf(Element("rss", [("version", "2.0")], None, [Element("channel", [], None, ChannelHead() + items)]), records)
  {
    var children := ChannelHead() + items;
    assert children[..3] == ChannelHead();
    assert forall i :: 0 <= i < |records| ==> children[3 + i] == items[i];
  }

  /** The `channel` with its fixed title, link and description, before any item. */
  method BuildChannel() returns (channel: Element)
    ensures channel == Element("channel", [], None, ChannelHead())
  {
    channel := Element("channel", [], None, []);
    channel := channel.(children := channel.children + [Leaf("title", FeedTitle)]);
    channel := channel.(children := channel.children + [Leaf("link", FeedLink)]);
    channel := channel.(children := channel.children + [Leaf("description", FeedDescription)]);
  }

  /** Appending the next record's item keeps the items in step with the records. */
  lemma ItemsStep(items: seq<Element>, records: seq<Record>, item: Element)
    requires |items| < |records|
    requires forall k :: 0 <= k < |items| ==> items[k] == FeedItem(records[k])
    requires item == FeedItem(records[|items|])
    ensures forall k :: 0 <= k < |items| + 1 ==> (items + [item])[k] == FeedItem(records[k])
  {
  }

  method BuildRssFeed(records: seq<Record>) returns (rss: Element)
    ensures IsRssFeedOf(rss, records)
  {
    var channel := BuildChannel();
    ghost var items: seq<Element> := [];
    assert ChannelHead() + items == ChannelHead();
    for i := 0 to |records|
      invariant channel == Element("channel", [], None, ChannelHead() + items)
      invariant |items| == i
      invariant forall k :: 0 <= k < i ==> items[k] == FeedItem(records[k])
    {
      var item := BuildItem(records[i]);
      ItemsStep(items, records, item);
      channel := channel.(children := channel.children + [item]);
      items := items + [item];
      assert ChannelHead() + items == channel.children;
    }
    RssFeedOfItems(items, records);
    rss := Element("rss", [("version", "2.0")], None, [channel]);
  }
}
