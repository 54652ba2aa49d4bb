/**
 * The member records the scraper produces, and the two forms it writes them
 * in: a JSON document (as the value `json.dump` serialises) and a CSV table
 * (as `csv.DictWriter` fills it). The byte-level formats belong to Python's
 * serialisers and are not modelled; the values written are.
 */
module MemberRecords {
  import opened Wrappers
  import opened Text

  /** One key of a record dictionary with its value (`None` or a string). */
  datatype Field = Field(key: string, value: Option<string>)

  /** A record dictionary, its keys in insertion order. */
  type Record = seq<Field>

  function Keys(r: Record): seq<string> {
    seq(|r|, i requires 0 <= i < |r| => r[i].key)
  }

  /** The keys of every record `get_members_infos` builds, in order. */
  const Columns: seq<string> := ["name", "headline", "country", "profile_url"]

  /** The record `get_members_infos` builds for one profile page. */
  function MemberRecord(name: Option<string>, headline: Option<string>, country: Option<string>, profileUrl: string): Record {
    [Field("name", name), Field("headline", headline), Field("country", country), Field("profile_url", Some(profileUrl))]
  }

  // ---------------------------------------------------------------------------
  // CSV

  /**
   * What `csv.DictWriter` puts in the column `key` for the record: the value,
   * an empty field for `None`, and the empty `restval` for a missing key.
   */
  function Cell(r: Record, key: string): string {
    if r == [] then ""
    else if r[0].key == key then r[0].value.GetOr("")
    else Cell(r[1..], key)
  }

  function CsvRow(header: seq<string>, r: Record): seq<string> {
    seq(|header|, i requires 0 <= i < |header| => Cell(r, header[i]))
  }

  function CsvRows(header: seq<string>, rs: seq<Record>): seq<seq<string>> {
    seq(|rs|, i requires 0 <= i < |rs| => CsvRow(header, rs[i]))
  }

  /** `csv.DictWriter` refuses (ValueError) a record with a key outside the header. */
  predicate FitsHeader(header: seq<string>, r: Record) {
    forall i :: 0 <= i < |r| ==> r[i].key in header
  }

  /** The index of the first record the writer refuses, or `|rs|` when it takes them all. */
  function FirstMisfit(header: seq<string>, rs: seq<Record>): (k: nat)
    ensures k <= |rs|
    ensures forall j :: 0 <= j < k ==> FitsHeader(header, rs[j])
    ensures k < |rs| ==> !FitsHeader(header, rs[k])
  {
    if rs == [] || !FitsHeader(header, rs[0]) then 0
    else 1 + FirstMisfit(header, rs[1..])
  }

  /** The values of column `key` over the records, as the CSV holds them. */
  function Column(rs: seq<Record>, key: string): seq<string> {
    seq(|rs|, i requires 0 <= i < |rs| => Cell(rs[i], key))
  }

  /** A file the scraper writes. */
  datatype FileBody = CsvText(header: seq<string>, rows: seq<seq<string>>) | JsonText(value: Json)

  /**
   * What `save_to_csv` leaves in its file for a non-empty list: the header
   * taken from the first record's keys, then one row per record up to the
   * first record the writer refuses.
   */
  function CsvFile(rs: seq<Record>): FileBody
    requires rs != []
  {
    var header := Keys(rs[0]);
    CsvText(header, CsvRows(header, rs[..FirstMisfit(header, rs)]))
  }

  /** Records shaped like `get_members_infos`' output: every one has exactly the four columns. */
  predicate MemberShaped(rs: seq<Record>) {
    forall i :: 0 <= i < |rs| ==> Keys(rs[i]) == Columns
  }

  lemma {:induction false} CellOfKey(r: Record, k: nat)
    requires k < |r|
    requires forall j :: 0 <= j < k ==> r[j].key != r[k].key
    ensures Cell(r, r[k].key) == r[k].value.GetOr("")
  {
    if k > 0 {
      CellOfKey(r[1..], k - 1);
    }
  }

  lemma MemberRecordKeys(name: Option<string>, headline: Option<string>, country: Option<string>, url: string)
    ensures Keys(MemberRecord(name, headline, country, url)) == Columns
  {
  }

  /** A record with exactly the four columns fits the header and fills its row in column order. */
  lemma RowOfMemberShaped(r: Record)
    requires Keys(r) == Columns
    ensures FitsHeader(Columns, r)
    ensures |CsvRow(Columns, r)| == |r| == 4
    ensures forall c :: 0 <= c < 4 ==> CsvRow(Columns, r)[c] == r[c].value.GetOr("")
  {
    assert |r| == 4;
    forall j | 0 <= j < 4 ensures r[j].key == Columns[j] {
      assert Keys(r)[j] == r[j].key;
    }
    forall c | 0 <= c < 4 ensures CsvRow(Columns, r)[c] == r[c].value.GetOr("") {
      CellOfKey(r, c);
    }
  }

  lemma {:induction false} MemberShapedFits(rs: seq<Record>)
    requires MemberShaped(rs)
    ensures FirstMisfit(Columns, rs) == |rs|
  {
    if rs != [] {
      RowOfMemberShaped(rs[0]);
      MemberShapedFits(rs[1..]);
    }
  }

  /**
   * For member-shaped records, the CSV header is the four columns, no record
   * is refused, so every record becomes a row, and each row holds the
   * record's values in column order.
   */
  lemma CsvFileOfMembers(rs: seq<Record>)
    requires rs != [] && MemberShaped(rs)
    ensures CsvFile(rs).header == Columns
    ensures CsvFile(rs).rows == CsvRows(Columns, rs)
    ensures forall i, c :: 0 <= i < |rs| && 0 <= c < 4 ==>
              CsvFile(rs).rows[i][c] == rs[i][c].value.GetOr("")
  {
    MemberShapedFits(rs);
    assert rs[..|rs|] == rs;
    forall i | 0 <= i < |rs| ensures forall c :: 0 <= c < 4 ==> CsvFile(rs).rows[i][c] == rs[i][c].value.GetOr("") {
      RowOfMemberShaped(rs[i]);
    }
  }

  // ---------------------------------------------------------------------------
  // JSON

  /** The JSON values the scraper writes. */
  datatype Json = JNull | JString(text: string) | JArray(items: seq<Json>) | JObject(entries: seq<(string, Json)>)

  function ValueJson(v: Option<string>): Json {
    match v
    case None => JNull
    case Some(s) => JString(s)
  }

  /** A record as `json.dump` writes it: an object with the record's keys in order. */
  function RecordJson(r: Record): Json {
    JObject(seq(|r|, i requires 0 <= i < |r| => (r[i].key, ValueJson(r[i].value))))
  }

  function RecordsJson(rs: seq<Record>): Json {
    JArray(seq(|rs|, i requires 0 <= i < |rs| => RecordJson(rs[i])))
  }

  function UrlsJson(urls: seq<string>): Json {
    JArray(seq(|urls|, i requires 0 <= i < |urls| => JString(urls[i])))
  }

  // Reading the documents back, as `json.load` followed by a shape check would.

  function FieldFromJson(e: (string, Json)): Option<Field> {
    match e.1
    case JNull => Some(Field(e.0, None))
    case JString(s) => Some(Field(e.0, Some(s)))
    case _ => None
  }

  function FieldsFromEntries(es: seq<(string, Json)>): Option<Record> {
    if es == [] then Some([])
    else
      match (FieldsFromEntries(es[..|es| - 1]), FieldFromJson(es[|es| - 1]))
      case (Some(init), Some(f)) => Some(init + [f])
      case _ => None
  }

  function RecordsFromItems(items: seq<Json>): Option<seq<Record>> {
    if items == [] then Some([])
    else
      var last := items[|items| - 1];
      match (RecordsFromItems(items[..|items| - 1]), last)
      case (Some(init), JObject(es)) =>
        (match FieldsFromEntries(es)
         case Some(r) => Some(init + [r])
         case None => None)
      case _ => None
  }

  function RecordsFromJson(j: Json): Option<seq<Record>> {
    match j
    case JArray(items) => RecordsFromItems(items)
    case _ => None
  }

  function UrlsFromItems(items: seq<Json>): Option<seq<string>> {
    if items == [] then Some([])
    else
      match (UrlsFromItems(items[..|items| - 1]), items[|items| - 1])
      case (Some(init), JString(s)) => Some(init + [s])
      case _ => None
  }

  function UrlsFromJson(j: Json): Option<seq<string>> {
    match j
    case JArray(items) => UrlsFromItems(items)
    case _ => None
  }

  lemma {:induction false} FieldsRoundTrip(r: Record)
    ensures FieldsFromEntries(RecordJson(r).entries) == Some(r)
  {
    if r != [] {
      var init := r[..|r| - 1];
      FieldsRoundTrip(init);
      assert RecordJson(r).entries[..|r| - 1] == RecordJson(init).entries;
      assert r == init + [r[|r| - 1]];
    }
  }

  lemma {:induction false} RecordsRoundTripItems(rs: seq<Record>)
    ensures RecordsFromItems(RecordsJson(rs).items) == Some(rs)
  {
    if rs != [] {
      var init := rs[..|rs| - 1];
      RecordsRoundTripItems(init);
      assert RecordsJson(rs).items[..|rs| - 1] == RecordsJson(init).items;
      FieldsRoundTrip(rs[|rs| - 1]);
      assert rs == init + [rs[|rs| - 1]];
    }
  }

  /** Reading the members JSON back gives the records written, field for field and in order. */
  lemma RecordsJsonRoundTrip(rs: seq<Record>)
    ensures RecordsFromJson(RecordsJson(rs)) == Some(rs)
  {
    RecordsRoundTripItems(rs);
  }

  lemma {:induction false} UrlsRoundTripItems(urls: seq<string>)
    ensures UrlsFromItems(UrlsJson(urls).items) == Some(urls)
  {
    if urls != [] {
      var init := urls[..|urls| - 1];
      UrlsRoundTripItems(init);
      assert UrlsJson(urls).items[..|urls| - 1] == UrlsJson(init).items;
      assert urls == init + [urls[|urls| - 1]];
    }
  }

  /** Reading the URL list JSON back gives the URLs written, in order. */
  lemma UrlsJsonRoundTrip(urls: seq<string>)
    ensures UrlsFromJson(UrlsJson(urls)) == Some(urls)
  {
    UrlsRoundTripItems(urls);
  }
}
