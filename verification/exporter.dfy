/** `DataExporter`: checks a list of records, shapes it for the requested
    format, names the output file and keeps a history of the exports made.
    Writing the file is outside the model: an export yields the file name
    and the document it would write, and whether the write succeeded is a
    parameter. */
module Exporter {
  import opened Results
  import opened Text
  import opened Numerals
  import opened Dicts
  import opened StringOrder
  import opened Values

  /** An element of the list handed to the exporter: a dict or anything else. */
  datatype Item = DictItem(fields: Record) | OtherItem

  /** What is handed to the exporter: a list or anything else. */
  datatype Input = ListInput(items: seq<Item>) | OtherInput

  /** Why `validate_data` raises. */
  datatype DataError =
    | NotAList
    | EmptyList
    | ItemNotDict(index: nat)
    | ItemEmpty(index: nat)

  function DataErrorMessage(e: DataError): string {
    match e
    case NotAList => "Data must be a list of dictionaries"
    case EmptyList => "Data list cannot be empty"
    case ItemNotDict(i) => "Item at index " + NatToString(i) + " must be a dictionary"
    case ItemEmpty(i) => "Item at index " + NatToString(i) + " cannot be empty"
  }

  /** A non-empty dict. */
  predicate GoodItem(item: Item) {
    item.DictItem? && |item.fields| > 0
  }

  /** What is wrong with an item, if anything. */
  function ItemProblem(item: Item, i: nat): Option<DataError> {
    if !item.DictItem? then Some(ItemNotDict(i))
    else if |item.fields| == 0 then Some(ItemEmpty(i))
    else None
  }

  /** The first bad item at or after position `from`. */
  function FirstBad(items: seq<Item>, from: nat): (r: Option<DataError>)
    requires from <= |items|
    ensures r.None? <==> forall i :: from <= i < |items| ==> GoodItem(items[i])
    ensures r.Some? ==> (r.value.ItemNotDict? || r.value.ItemEmpty?)
    ensures r.Some? ==> from <= r.value.index < |items|
                        && ItemProblem(items[r.value.index], r.value.index) == r
                        && forall i :: from <= i < r.value.index ==> GoodItem(items[i])
    decreases |items| - from
  {
    if from == |items| then None
    else if ItemProblem(items[from], from).Some? then ItemProblem(items[from], from)
    else FirstBad(items, from + 1)
  }

  /** `DataExporter.validate_data`: the records when the input is a
      non-empty list of non-empty dicts, otherwise the first reason, in the
      order the source checks them, that it is not. */
  function ValidateData(input: Input): (r: Result<seq<Record>, DataError>)
    ensures r.Ok? <==> input.ListInput? && |input.items| > 0
                       && forall i :: 0 <= i < |input.items| ==> GoodItem(input.items[i])
    ensures r.Ok? ==> |r.value| == |input.items|
                      && forall i :: 0 <= i < |r.value| ==> r.value[i] == input.items[i].fields
    ensures r == Err(NotAList) <==> input.OtherInput?
    ensures r == Err(EmptyList) <==> input.ListInput? && |input.items| == 0
    ensures r.Err? && (r.error.ItemNotDict? || r.error.ItemEmpty?) ==>
              input.ListInput? && r.error.index < |input.items|
              && ItemProblem(input.items[r.error.index], r.error.index) == Some(r.error)
              && forall i :: 0 <= i < r.error.index ==> GoodItem(input.items[i])
  {
    match input
    case OtherInput => Err(NotAList)
    case ListInput(items) =>
      if |items| == 0 then Err(EmptyList)
      else
        match FirstBad(items, 0)
        case Some(e) => Err(e)
        case None => Ok(seq(|items|, i requires 0 <= i < |items| => items[i].fields))
  }

  /** All keys of all records, record by record. */
  function AllKeys(records: seq<Record>): (ks: seq<string>)
    ensures forall k :: k in ks <==> exists i :: 0 <= i < |records| && k in Keys(records[i])
  {
    if |records| == 0 then []
    else
      var rest := AllKeys(records[1..]);
      assert forall i :: 1 <= i < |records| ==> records[i] == records[1..][i - 1];
      Keys(records[0]) + rest
  }

  /** The CSV header: `sorted(set(all keys))`. */
  function CsvHeader(records: seq<Record>): (h: seq<string>)
    ensures StrictlySorted(h)
    ensures forall k :: k in h <==> exists i :: 0 <= i < |records| && k in Keys(records[i])
  {
    SortedSet(AllKeys(records))
  }

  /** One CSV row: `{key: item.get(key, '') for key in fieldnames}`. */
  function CsvRow(header: seq<string>, record: Record): (row: Record)
    ensures Keys(row) == header
    ensures forall j :: 0 <= j < |header| && header[j] !in Keys(record) ==> row[j].1 == VStr("")
    ensures forall j :: 0 <= j < |header| && header[j] in Keys(record) ==> Some(row[j].1) == Get(record, header[j])
  {
    seq(|header|, j requires 0 <= j < |header| => (header[j], GetOr(record, header[j], VStr(""))))
  }

  lemma {:induction false} SortedDistinct(h: seq<string>)
    requires StrictlySorted(h)
    ensures Distinct(h)
  {
    forall i, j | 0 <= i < j < |h| ensures h[i] != h[j] {
      if h[i] == h[j] {
        LessIrreflexive(h[i]);
      }
    }
  }

  /** Every written row has exactly the header's columns, reads every key of
      its record as the record does, and reads `''` under every other
      column. */
  lemma {:induction false} CsvRowsKeepValues(records: seq<Record>, i: nat, k: string)
    requires i < |records|
    ensures Keys(CsvRow(CsvHeader(records), records[i])) == CsvHeader(records)
    ensures k in Keys(records[i]) ==> Get(CsvRow(CsvHeader(records), records[i]), k) == Get(records[i], k)
    ensures k in CsvHeader(records) && k !in Keys(records[i]) ==> Get(CsvRow(CsvHeader(records), records[i]), k) == Some(VStr(""))
  {
    var h := CsvHeader(records);
    var row := CsvRow(h, records[i]);
    SortedDistinct(h);
    if k in h {
      var j :| 0 <= j < |h| && h[j] == k;
      assert row[j].0 == k;
      GetAt(row, j);
    }
  }

  /** `if not filename.endswith(ext): filename += ext` */
  function WithExtension(name: string, ext: string): (r: string)
    ensures EndsWith(r, ext)
    ensures r == name <==> EndsWith(name, ext)
    ensures r != name ==> r == name + ext
  {
    if EndsWith(name, ext) then name
    else
      assert (name + ext)[|name + ext| - |ext|..] == ext;
      name + ext
  }

  lemma {:induction false} WithExtensionIdempotent(name: string, ext: string)
    ensures WithExtension(WithExtension(name, ext), ext) == WithExtension(name, ext)
  {
  }

  /** `key.replace(' ', '_').replace('-', '_')` */
  function CleanKey(key: string): (r: string)
    ensures |r| == |key|
    ensures ' ' !in r && '-' !in r
    ensures forall i :: 0 <= i < |key| ==> r[i] == (if key[i] == ' ' || key[i] == '-' then '_' else key[i])
  {
    Replace(Replace(key, ' ', '_'), '-', '_')
  }

  lemma {:induction false} CleanKeyIdempotent(key: string)
    ensures CleanKey(CleanKey(key)) == CleanKey(key)
  {
  }

  /** A record of the XML document: its position as `id` and its fields
      with cleaned names and text values. */
  datatype XmlItem = XmlItem(id: string, fields: seq<(string, string)>)

  /** `str(value) if value is not None else ""` */
  function XmlText(v: Value): string {
    if v == VNone then "" else PyStr(v)
  }

  function XmlFields(record: Record): (fs: seq<(string, string)>)
    ensures |fs| == |record|
    ensures forall j :: 0 <= j < |record| ==> fs[j] == (CleanKey(record[j].0), XmlText(record[j].1))
  {
    seq(|record|, j requires 0 <= j < |record| => (CleanKey(record[j].0), XmlText(record[j].1)))
  }

  function XmlItems(records: seq<Record>): (items: seq<XmlItem>)
    ensures |items| == |records|
    ensures forall i :: 0 <= i < |records| ==> items[i] == XmlItem(NatToString(i), XmlFields(records[i]))
  {
    seq(|records|, i requires 0 <= i < |records| => XmlItem(NatToString(i), XmlFields(records[i])))
  }

  /** Reading an item's `id` back as a number gives its position, and no
      element name in the document holds a space or a hyphen; a `None` value
      is written as empty text. */
  lemma {:induction false} XmlItemsFaithful(records: seq<Record>, i: nat, j: nat)
    requires i < |records| && j < |records[i]|
    ensures PyInt(XmlItems(records)[i].id) == Some(i)
    ensures ' ' !in XmlItems(records)[i].fields[j].0 && '-' !in XmlItems(records)[i].fields[j].0
    ensures records[i][j].1 == VNone ==> XmlItems(records)[i].fields[j].1 == ""
  {
    IntToStringRoundTrip(i);
  }

  /** The output formats `export_data` dispatches to. */
  datatype Format = Csv | Json | Xml | Excel | Parquet

  /** The name a format is asked for by, and logged under. */
  function FormatName(f: Format): string {
    match f
    case Csv => "csv"
    case Json => "json"
    case Xml => "xml"
    case Excel => "excel"
    case Parquet => "parquet"
  }

  /** The suffix each writer puts on the file name. */
  function Extension(f: Format): string {
    match f
    case Csv => ".csv"
    case Json => ".json"
    case Xml => ".xml"
    case Excel => ".xlsx"
    case Parquet => ".parquet"
  }

  /** `format_type.lower()` matched against the supported names. */
  function ParseFormat(name: string): (r: Option<Format>)
    ensures forall f :: r == Some(f) <==> Lower(name) == FormatName(f)
    ensures r.Some? <==> Lower(name) in SupportedFormats
  {
    var l := Lower(name);
    if l == "csv" then Some(Csv)
    else if l == "json" then Some(Json)
    else if l == "xml" then Some(Xml)
    else if l == "excel" then Some(Excel)
    else if l == "parquet" then Some(Parquet)
    else None
  }

  /** The format is found whatever the case it is asked in. */
  lemma {:induction false} ParseFormatRoundTrip(f: Format, name: string)
    ensures ParseFormat(FormatName(f)) == Some(f)
    ensures ParseFormat(name) == ParseFormat(Lower(name))
  {
    LowerIdempotent(name);
    assert Lower(FormatName(f)) == FormatName(f);
  }

  /** What each writer puts in its file. */
  datatype Document =
    | CsvDocument(header: seq<string>, rows: seq<Record>)
    | JsonDocument(exportedAt: string, totalRecords: nat, data: seq<Record>)
    | XmlDocument(exportedAt: string, totalText: string, records: seq<XmlItem>)
    | ExcelDocument(data: seq<Record>, exportedAt: string, totalRecords: nat, columns: nat)
    | ParquetDocument(data: seq<Record>)

  function BuildDocument(f: Format, records: seq<Record>, now: string): (d: Document)
    ensures f == Csv ==> d.CsvDocument? && d.header == CsvHeader(records) && |d.rows| == |records|
                         && forall i :: 0 <= i < |records| ==> d.rows[i] == CsvRow(d.header, records[i])
    ensures f == Xml ==> d == XmlDocument(now, NatToString(|records|), XmlItems(records))
    ensures f == Json ==> d == JsonDocument(now, |records|, records)
    ensures f == Excel ==> d == ExcelDocument(records, now, |records|, |CsvHeader(records)|)
    ensures f == Parquet ==> d == ParquetDocument(records)
  {
    match f
    case Csv =>
      var h := CsvHeader(records);
      CsvDocument(h, seq(|records|, i requires 0 <= i < |records| => CsvRow(h, records[i])))
    case Json => JsonDocument(now, |records|, records)
    case Xml => XmlDocument(now, NatToString(|records|), XmlItems(records))
    case Excel => ExcelDocument(records, now, |records|, |CsvHeader(records)|)
    case Parquet => ParquetDocument(records)
  }

  /** The CSV document: the header is the sorted key union, and each row
      reads its record's values, with `''` for the keys it lacks. */
  lemma {:induction false} CsvDocumentContents(records: seq<Record>, now: string, i: nat, k: string)
    requires i < |records|
    ensures var d := BuildDocument(Csv, records, now);
            && StrictlySorted(d.header)
            && (k in d.header <==> exists r :: 0 <= r < |records| && k in Keys(records[r]))
            && |d.rows| == |records|
            && Keys(d.rows[i]) == d.header
            && (k in Keys(records[i]) ==> Get(d.rows[i], k) == Get(records[i], k))
            && (k in d.header && k !in Keys(records[i]) ==> Get(d.rows[i], k) == Some(VStr("")))
  {
    CsvRowsKeepValues(records, i, k);
  }

  /** The XML document: one item per record, the count and each item's
      `id` read back as numbers, and only cleaned element names. */
  lemma {:induction false} XmlDocumentContents(records: seq<Record>, now: string, i: nat, j: nat)
    requires i < |records|
    ensures var d := BuildDocument(Xml, records, now);
            && |d.records| == |records|
            && PyInt(d.totalText) == Some(|records|)
            && PyInt(d.records[i].id) == Some(i)
            && (j < |records[i]| ==> ' ' !in d.records[i].fields[j].0 && '-' !in d.records[i].fields[j].0)
  {
    IntToStringRoundTrip(|records|);
    IntToStringRoundTrip(i);
    if j < |records[i]| {
      XmlItemsFaithful(records, i, j);
    }
  }

  /** A file the exporter asks to have written. */
  datatype Write = Write(path: string, document: Document)

  /** One line of the export history. */
  datatype HistoryEntry = HistoryEntry(timestamp: string, format: string, filename: string, records: nat)

  datatype DataExporter = DataExporter(history: seq<HistoryEntry>)

  /** The supported format names, as listed when a format is refused. */
  const SupportedFormats: seq<string> := ["csv", "json", "xml", "excel", "parquet"]

  /** The outcome of `export_data`: the returned flag, the exporter after
      the call, and the write attempted, if any. */
  datatype Export = Export(ok: bool, exporter: DataExporter, write: Option<Write>)

  /** `if not filename: filename = f"exported_data_{timestamp}"` */
  function BaseName(filename: Option<string>, stamp: string): (r: string)
    ensures filename.Some? && filename.value != [] ==> r == filename.value
    ensures filename.None? || filename.value == [] ==> r == "exported_data_" + stamp
  {
    if filename.Some? && filename.value != [] then filename.value else "exported_data_" + stamp
  }

  /** `DataExporter.export_data`: `now` is the clock reading used for the
      document and the history, `stamp` the one formatted for a default file
      name, `written` whether writing the file succeeded. */
  function ExportData(ex: DataExporter, input: Input, format: string, filename: Option<string>,
                      now: string, stamp: string, written: bool): (r: Export)
    ensures r.write.Some? <==> ValidateData(input).Ok? && ParseFormat(format).Some?
    ensures r.ok <==> r.write.Some? && written
    ensures !r.ok ==> r.exporter == ex
    ensures r.write.Some? ==>
              var f := ParseFormat(format).value;
              var records := ValidateData(input).value;
              && r.write.value.path == WithExtension(BaseName(filename, stamp), Extension(f))
              && r.write.value.document == BuildDocument(f, records, now)
    ensures r.ok ==>
              r.exporter.history == ex.history + [HistoryEntry(now, FormatName(ParseFormat(format).value),
                                                               r.write.value.path, |input.items|)]
  {
    match ValidateData(input)
    case Err(_) => Export(false, ex, None)
    case Ok(records) =>
      match ParseFormat(format)
      case None => Export(false, ex, None)
      case Some(f) =>
        var path := WithExtension(BaseName(filename, stamp), Extension(f));
        var w := Write(path, BuildDocument(f, records, now));
        if written then
          Export(true, DataExporter(ex.history + [HistoryEntry(now, FormatName(f), path, |records|)]), Some(w))
        else Export(false, ex, Some(w))
  }

  /** `', '.join(names)`. */
  function CommaJoin(names: seq<string>): string
    decreases |names|
  {
    if |names| == 0 then ""
    else if |names| == 1 then names[0]
    else names[0] + ", " + CommaJoin(names[1..])
  }

  /** What `export_data` prints when it returns `False` before writing:
      the message of the `ValueError` that `validate_data` or the format
      dispatch raised. A failed write prints its own message, which is not
      modelled. */
  function ExportFailureMessage(input: Input, format: string): (m: Option<string>)
    ensures m.Some? <==> ValidateData(input).Err? || ParseFormat(format).None?
    ensures ValidateData(input).Err? ==> m == Some("Export failed: " + DataErrorMessage(ValidateData(input).error))
    ensures ValidateData(input).Ok? && ParseFormat(format).None? ==>
              m == Some("Export failed: Unsupported format: " + Lower(format)
                        + ". Supported formats: " + CommaJoin(SupportedFormats))
  {
    match ValidateData(input)
    case Err(e) => Some("Export failed: " + DataErrorMessage(e))
    case Ok(_) =>
      if ParseFormat(format).Some? then None
      else
        Some("Export failed: Unsupported format: " + Lower(format)
             + ". Supported formats: " + CommaJoin(SupportedFormats))
  }

  /** Distinct validation failures print distinct messages: the message
      names the failure and, for an item, its index. */
  lemma {:induction false} DataErrorMessageInjective(a: DataError, b: DataError)
    requires DataErrorMessage(a) == DataErrorMessage(b)
    ensures a == b
  {
    var m := DataErrorMessage(a);
    var p := "Item at index ";
    match a {
      case NotAList =>
        assert m[0] == 'D' && m[5] == 'm';
      case EmptyList =>
        assert m[0] == 'D' && m[5] == 'l';
      case ItemNotDict(i) =>
        var s := " must be a dictionary";
        assert m[0] == 'I' && m[|m| - 2] == 'r';
        if b.ItemNotDict? {
          assert NatToString(i) == m[|p|..|m| - |s|];
          assert NatToString(b.index) == m[|p|..|m| - |s|];
          NatToStringInjective(i, b.index);
        }
      case ItemEmpty(i) =>
        var s := " cannot be empty";
        assert m[0] == 'I' && m[|m| - 2] == 't';
        if b.ItemEmpty? {
          assert NatToString(i) == m[|p|..|m| - |s|];
          assert NatToString(b.index) == m[|p|..|m| - |s|];
          NatToStringInjective(i, b.index);
        }
    }
  }

  /** `DataExporter.get_export_history`. */
  function GetExportHistory(ex: DataExporter): seq<HistoryEntry> {
    ex.history
  }

  /** Each export adds at most one history entry, only when it succeeds,
      and never alters the entries already there; the entry counts the
      records exported and names a file with the format's extension. */
  lemma {:induction false} HistoryGrowsByOne(ex: DataExporter, input: Input, format: string, filename: Option<string>,
                          now: string, stamp: string, written: bool)
    ensures var r := ExportData(ex, input, format, filename, now, stamp, written);
            var before := GetExportHistory(ex);
            var after := GetExportHistory(r.exporter);
            && |after| == |before| + (if r.ok then 1 else 0)
            && after[..|before|] == before
            && (r.ok ==> after[|before|].records == |input.items|
                         && EndsWith(after[|before|].filename, Extension(ParseFormat(format).value)))
  {
  }
}
