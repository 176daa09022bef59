# Batch import, export shaping and line collection, modelled in Dafny

This project models the pure logic of three Python scripts.

- **`MongoDBManager` (PyMongo/pymongo.py).**
  - `insert_data` cuts a record list into consecutive batches of `batch_size`.
  - It hands each batch to the driver's bulk insert and counts every outcome.
  - The three outcomes are: everything inserted, a bulk-write error with per-record rejections, or any other exception.
  - It folds the outcomes into one report: `total_records`, `inserted_count`, `error_count` and the ordered `errors` messages.
  - `validate_csv_data` checks a table before import and returns a flag, errors, warnings in a fixed order, and stats.
- **`DataExporter` and `DataInputHandler` (Generate-Data/data_export.py).**
  - `validate_data` checks the record list.
  - The CSV header is the sorted union of all keys, and missing keys are filled with `''`.
  - Each writer adds its file extension, and the XML writer cleans element names.
  - `export_data` dispatches on the lower-cased format name and keeps an export history.
  - `_parse_input` and `_convert_value` read `key=value` lines.
  - The command loop of `get_structured_data` turns input lines into records.
- **`DataCollector` (Generate-Data/add_data.py).**
  - `validate_input` is a per-type check on one line of input.
  - The `get_user_data` loop keeps the lines that pass, numbers them 1, 2, … and records how many it added.

Modules:

| module | file | what it holds |
|---|---|---|
| `Results` | results.dfy | `Option`, `Result` |
| `Text` | text.dfy | `strip()` over Python's full whitespace set, `lower()`, `split`, `endswith`, `replace`, `index` |
| `Numerals` | numerals.dfy | `str(int)`, and the literal grammar `int()` and `float()` accept |
| `StringOrder` | string_order.dfy | Python's string `<`, and `sorted(set(...))` |
| `Dicts` | dicts.dfy | insertion-ordered `dict` with string keys |
| `Values` | values.dfy | the scalar values records hold, and `str()` of them |
| `BulkLoader` | bulk_loader.dfy | `insert_data` |
| `CsvValidation` | csv_validation.dfy | `validate_csv_data` |
| `Exporter` | exporter.dfy | `DataExporter` |
| `InputHandler` | input_handler.dfy | `DataInputHandler` |
| `Collector` | collector.dfy | `DataCollector` |

Everything the scripts get from outside becomes a parameter.
- **Database driver.** A function `Destination` from the batch number and the batch to a `BulkOutcome`. The outcomes are `AllInserted`, `PartialFailure(inserted, writeErrors)` and `BatchFailure(message)`.
- **Connection state.** The `connected` flag.
- **Clock.** `now` and `stamp` strings.
- **Input lines.** A sequence of strings, read until it runs out.
- **File write.** A `written` flag. An export returns the path and the document it would write.

`total_columns` is `len(df.columns)` (PyMongo/pymongo.py:96): the number of columns of the table as read. The model therefore takes a table as its ordered column list and its rows.

The driver is modelled twice.
- `Destination` gives an abstract `BulkOutcome`, and `InsertData` folds those outcomes.
- `Driver` gives what pymongo hands back: the inserted ids on success, a `BulkWriteError` whose `details` hold `nInserted` and `writeErrors`, or some other exception. `InsertDataAsWritten` reads these the way the code does, and `InsertDataFromDriver` reads `nInserted` instead. See "Findings".

## Model

| member | source | states |
|---|---|---|
| BulkLoader.BatchesFlatten | PyMongo/pymongo.py:143-144 | The batches, concatenated, are exactly the record list. |
| BulkLoader.BatchesShape | PyMongo/pymongo.py:143-144 | There is no batch iff there is no record. Every batch but the last holds `batch_size` records and the last holds 1 to `batch_size`. (count − 1)·size < n ≤ count·size. |
| BulkLoader.BatchesFull | PyMongo/pymongo.py:143-144 | Every batch but the last holds exactly `batch_size` records. |
| BulkLoader.BatchCount | PyMongo/pymongo.py:143-144 | The number of batches is ceil(n / batch_size). |
| BulkLoader.BatchAt | PyMongo/pymongo.py:143-144 | Batch k starts inside the list and is the slice `data[k*size : min(k*size + size, n)]`. |
| BulkLoader.RecordInBatch | PyMongo/pymongo.py:143-144 | Record p of batch j is record j·size + p of the list. |
| BulkLoader.SizesBefore | PyMongo/pymongo.py:143-144 | The batches before batch j hold j·size records. |
| BulkLoader.RowMessages | PyMongo/pymongo.py:156-157 | Builds one `Row …` message per write error, in the order the driver lists them. The result equals the reference list `RowErrors`. |
| BulkLoader.ImportBatches | PyMongo/pymongo.py:132-175 | The loop submits exactly the batches, in order. It returns success with the report folded over every batch outcome. |
| BulkLoader.Advance | PyMongo/pymongo.py:143-148 | The slice the loop takes at record i is the next batch, numbered `i // size + 1`. Counting it yields the totals of all batches sent so far. |
| BulkLoader.InsertData | PyMongo/pymongo.py:127-179 | Not connected: `Not connected to MongoDB`, and nothing is submitted. Batch size 0: the failure `range` raises, and nothing is submitted. Negative batch size: success with no batch and zero counts. Otherwise the batches are submitted in order and the report numbers rejected rows by the driver's in-batch index. No records: success with zero counts and no messages. |
| BulkLoader.InsertDataNumbered | PyMongo/pymongo.py:127-175 | The same as InsertData, except that rejected rows are numbered by their place in the whole record list. |
| BulkLoader.Import | PyMongo/pymongo.py:129-130 | The connection check and the three cases of the batch size, shared by both numberings. |
| BulkLoader.InsertDataDefault | PyMongo/pymongo.py:127 | With the default `batch_size` of 1000 the records go in ceil(n / 1000) batches, and the report is the one for that size. |
| BulkLoader.FirstLacking | PyMongo/pymongo.py:151-153 | The index found is a batch whose `BulkWriteError` has no `insertedIds`, or the number of batches when there is none. |
| BulkLoader.FirstLackingIsFirst | PyMongo/pymongo.py:143-153 | Every batch before that index got an answer the loop can read. |
| BulkLoader.InsertDataAsWritten | PyMongo/pymongo.py:127-179 | As written, with pymongo's answers. Not connected, batch size 0 and negative batch size behave as in InsertData. If no batch meets a `BulkWriteError` without `insertedIds`, the batches are submitted in order and the report is the one InsertData gives. Otherwise the batches up to and including the first such batch are submitted, and the import fails with the message `'insertedIds'`. |
| BulkLoader.DriverBatches | PyMongo/pymongo.py:143-175 | The batch loop over pymongo's answers: success with the whole report, or the failure at the first batch whose `BulkWriteError` has no `insertedIds`, after submitting exactly the batches up to it. |
| BulkLoader.InsertDataFromDriver | PyMongo/pymongo.py:127-179 | Corrected: the inserted count of a `BulkWriteError` is read from `nInserted`, and every run with batch size ≥ 1 succeeds with the report over all batches. |
| BulkLoader.CorrectedReportAccounts | PyMongo/pymongo.py:143-171 | Read from `nInserted`, the report accounts for every record when every answer accounts for its batch. |
| BulkLoader.MissingIdsLoseReport | PyMongo/pymongo.py:151-157 | One record, rejected with a `BulkWriteError` that has `nInserted` and `writeErrors` only. As written the first batch already lacks `insertedIds`, so the import fails. Read from `nInserted`, the report is (1, 0, 1, [`Row 0: duplicate key`]). |
| BulkLoader.TallyBySplit | PyMongo/pymongo.py:143-164 | However one batch is counted, the totals of a run of batches are those of its first part followed by those of the rest. |
| BulkLoader.TallySplit | PyMongo/pymongo.py:143-164 | The same split for the way `insert_data` counts a batch. |
| BulkLoader.TallyStep | PyMongo/pymongo.py:143-164 | Sending one more batch adds exactly its own totals to the running ones. |
| BulkLoader.TallyAccounts | PyMongo/pymongo.py:148-162 | Suppose every answer accounts for its whole batch. Then inserted plus errored records is the number of records submitted. |
| BulkLoader.ReportAccounts | PyMongo/pymongo.py:134-171 | Suppose the destination accounts for every record. Then `inserted_count + error_count == total_records == len(data)`. |
| BulkLoader.BatchContributes | PyMongo/pymongo.py:143-164 | Fail-forward: the totals are those of the batches before j, then batch j's own, then those after it. |
| BulkLoader.ReportAround | PyMongo/pymongo.py:143-171 | Each report field is that of the earlier batches, plus batch j's own, plus that of the later batches. |
| BulkLoader.BatchFailureCounted | PyMongo/pymongo.py:161-163 | A batch that raises any other exception adds its whole length to `error_count` and nothing to `inserted_count`. It adds exactly one message, `Batch <j + 1>: <msg>`, between the messages of the earlier and later batches. |
| BulkLoader.PartialFailureCounted | PyMongo/pymongo.py:151-157 | A bulk-write error adds the reported inserted count and one error per write error. It adds one `Row …` message per write error, in reported order, after the messages of earlier batches. |
| BulkLoader.RowMessageAt | PyMongo/pymongo.py:151-157 | The i-th message of batch j's rejected records sits right after the messages of the earlier batches. With record-list numbering it carries j·size plus the reported index. |
| BulkLoader.RowNumbersRepeat | PyMongo/pymongo.py:156-157 | As written: take records [10, 20] with batch size 1, and let every batch reject its record 0. The two messages are both `Row 0: duplicate key`. |
| BulkLoader.RowNumberNamesRecord | PyMongo/pymongo.py:143-157 | Corrected numbering: the message for a rejected record carries j·size + index. That position in the record list holds the very record the driver rejected. |
| BulkLoader.CleanTally | PyMongo/pymongo.py:146-148 | If every batch is fully inserted, the totals are all records inserted, no errors and no messages. |
| BulkLoader.CleanImport | PyMongo/pymongo.py:143-171 | A destination that accepts everything gives the report (n, n, 0, []). |
| CsvValidation.ValidateCsvData | PyMongo/pymongo.py:88-125 | The stats are always rows, columns, missing cells and duplicate rows. The frame is valid iff it is not empty. An empty frame gives exactly `["CSV file is empty"]` and no warnings. Any other frame gives no errors and the ordered warnings. |
| CsvValidation.WarningMessages | PyMongo/pymongo.py:108-123 | The warning texts `validate_csv_data` returns, one per warning and in the warnings' own order. `Large number of columns detected (>100)` is among them iff the table is non-empty and has more than 100 columns. `Large dataset detected (>100k rows)` is among them iff it is non-empty and has more than 100000 rows. A text starting `Columns with MongoDB-incompatible names: ` is among them iff some name qualifies, and it then comes last and lists exactly those names. |
| CsvValidation.WarningMessagesOrder | PyMongo/pymongo.py:108-114 | The column text, when present, comes first, and the size text right after it. |
| CsvValidation.WarningTextNames | PyMongo/pymongo.py:110-123 | Each warning text names its warning: the column text only for the column warning, the size text only for the size warning, the names prefix only for the names warning. |
| CsvValidation.Warnings | PyMongo/pymongo.py:108-123 | The warnings appear in the fixed order. The column warning appears iff there are more than 100 columns. The size warning appears iff there are more than 100000 rows. The names warning appears iff some name qualifies, and it holds exactly those names. |
| CsvValidation.IncompatibleColumns | PyMongo/pymongo.py:116-120 | A name is listed iff it is a column that starts with `$` or contains `.`. |
| CsvValidation.IncompatibleAppend | PyMongo/pymongo.py:117-120 | The names listed for a + b are those listed for a followed by those for b, so the listing keeps column order. |
| CsvValidation.CleanFrame | PyMongo/pymongo.py:102-125 | A non-empty frame within both limits and with MongoDB-compatible names gets no error and no warning. |
| CsvValidation.MissingCountZero | PyMongo/pymongo.py:97 | The missing-value count is zero iff no cell is missing. |
| CsvValidation.DuplicatesAndDistinct | PyMongo/pymongo.py:98 | Duplicate rows plus distinct rows equals all rows. |
| Dicts.Get | Generate-Data/data_export.py:63 | `d.get(k)` finds a value iff `k` is a key. |
| Dicts.GetAt | Generate-Data/data_export.py:63 | In a dict with distinct keys, looking up a key finds its own entry. |
| Dicts.KeysPutPresent | Generate-Data/data_export.py:291 | Assigning to a present key keeps the keys and their order. |
| Dicts.KeysPutNew | Generate-Data/data_export.py:291 | Assigning to a new key appends it. |
| Dicts.GetPut | Generate-Data/data_export.py:291 | After `d[k] = v`, `k` reads `v` and every other key reads as before. |
| Dicts.PutDistinct | Generate-Data/data_export.py:291 | Assignment keeps keys distinct. |
| Exporter.ValidateData | Generate-Data/data_export.py:25-40 | Succeeds iff the input is a non-empty list of non-empty dicts, and then returns those dicts. Otherwise it gives the first failing check, in the source's order: not a list, empty, then the first bad item's index. |
| Exporter.FirstBad | Generate-Data/data_export.py:33-38 | Finds no problem iff every item is a non-empty dict. Otherwise the problem is that of the first bad item. |
| Exporter.AllKeys | Generate-Data/data_export.py:49-52 | A key is collected iff some record has it. |
| Exporter.CsvHeader | Generate-Data/data_export.py:49-55 | Strictly ascending, and holds a key iff some record has it. |
| StringOrder.SortedSet | Generate-Data/data_export.py:55 | `sorted(set(xs))` is strictly ascending and holds exactly the elements of `xs`. |
| StringOrder.SortedUnique | Generate-Data/data_export.py:55 | Only one strictly ascending sequence holds a given set of strings. |
| Exporter.CsvRow | Generate-Data/data_export.py:61-63 | The row has exactly the header's keys. A key the record has keeps its value. Every other key reads `''`. |
| Exporter.CsvRowsKeepValues | Generate-Data/data_export.py:49-64 | Every written row has the header's columns and reads each of its record's keys as the record does. Every other column reads `''`. |
| Exporter.WithExtension | Generate-Data/data_export.py:46-47 | The result ends with the extension. It is the name itself iff the name already ends with it, and the name plus the extension otherwise. |
| Exporter.WithExtensionIdempotent | Generate-Data/data_export.py:106-107 | Adding the extension twice equals adding it once. |
| Exporter.CleanKey | Generate-Data/data_export.py:123 | Keeps the length and contains no space or hyphen. Every space and hyphen becomes `_` and every other character stays. |
| Exporter.CleanKeyIdempotent | Generate-Data/data_export.py:123 | Cleaning twice equals cleaning once. |
| Exporter.XmlItemsFaithful | Generate-Data/data_export.py:119-125 | An item's `id` reads back as its 0-based position. No element name holds a space or a hyphen. A `None` value is written as empty text. |
| Exporter.ParseFormat | Generate-Data/data_export.py:212-224 | A format is found iff the lower-cased name is its name, that is, iff the lower-cased name is one of `supported_formats`. |
| Exporter.ParseFormatRoundTrip | Generate-Data/data_export.py:212-222 | Every format is found by its own name, in any letter case. |
| Exporter.CsvDocumentContents | Generate-Data/data_export.py:42-66 | The header is strictly ascending and holds a key iff some record has it. Row i has exactly the header's keys, reads every key of record i as the record does, and reads `''` for the header keys the record lacks. |
| Exporter.XmlDocumentContents | Generate-Data/data_export.py:102-124 | One item per record. `total_records` reads back as the record count, item i's `id` reads back as i, and no element name holds a space or a hyphen. |
| Exporter.ExportFailureMessage | Generate-Data/data_export.py:199-228 | `export_data` prints a failure before any write iff the data fails validation or the format is unsupported. Invalid data prints `Export failed: ` and the message of the failing check. Otherwise an unsupported format prints the lowered name and the list of supported formats. |
| Exporter.DataErrorMessageInjective | Generate-Data/data_export.py:28-38 | Distinct validation failures print distinct messages. An item's message names its index. |
| Exporter.ExportData | Generate-Data/data_export.py:199-228 | A write is attempted iff the data is valid and the format is supported. The call returns true iff that write succeeds, and a failed call leaves the exporter unchanged. The file is the given name, or `exported_data_<stamp>`, with the format's extension. A success appends the entry (time, format, path, number of records). |
| Exporter.HistoryGrowsByOne | Generate-Data/data_export.py:186-197 | An export adds one history entry if it succeeds and none otherwise. Earlier entries never change. The new entry counts the records and names a file with the format's extension. |
| InputHandler.PairOf | Generate-Data/data_export.py:284-289 | A piece gives a pair only if it holds `=`. The pair is the stripped text before and after the first `=`, and both parts are non-empty. Every piece with a non-blank key and value does give a pair. |
| InputHandler.PairOfFirstEquals | Generate-Data/data_export.py:285 | The split is at the first `=`, so a value may itself hold `=`. |
| InputHandler.Pairs | Generate-Data/data_export.py:283-289 | The surviving pairs, each with a non-empty key and value. |
| InputHandler.PairsOne | Generate-Data/data_export.py:283-289 | One piece contributes exactly its own pair, or nothing when it has none. |
| InputHandler.PairsAppend | Generate-Data/data_export.py:283-289 | Pieces are read in order: the pairs of a + b are those of a followed by those of b. |
| InputHandler.Assign | Generate-Data/data_export.py:281-291 | Assigning at least one pair gives a non-empty dict. Distinct keys stay distinct. |
| InputHandler.LastValue | Generate-Data/data_export.py:283-291 | Finds nothing iff no pair has the key. A value found is that of a pair with the key after which no pair has the key, that is, of the last one. |
| InputHandler.AssignGet | Generate-Data/data_export.py:283-291 | A later pair for the same key overwrites an earlier one. Untouched keys keep their values. |
| InputHandler.ParseInput | Generate-Data/data_export.py:277-296 | Gives `None` iff no pair survives. Otherwise it gives a non-empty record with distinct keys. |
| InputHandler.ParseInputLookup | Generate-Data/data_export.py:280-293 | A key is in the record iff some surviving pair has it. It holds the converted value of the last such pair. |
| InputHandler.Convert | Generate-Data/data_export.py:299-318 | `true`/`false` in any case give the boolean, and a boolean comes only from them. Otherwise an integer comes iff `int()` accepts the text, with `int()`'s value. Otherwise a float comes iff `float()` accepts it. Otherwise the text itself comes. Never `None`. |
| InputHandler.ConvertIntRoundTrip | Generate-Data/data_export.py:306-307 | `str(n)` converts back to the integer n. |
| InputHandler.ConvertBoolRoundTrip | Generate-Data/data_export.py:302-303 | `True` and `False` convert back to the booleans they print. |
| InputHandler.DigitEndNotBool | Generate-Data/data_export.py:302 | Text ending in a digit is never a boolean word. |
| InputHandler.Classify | Generate-Data/data_export.py:244-259 | Each of `done`, `help`, `list` and `clear` is recognised iff the stripped, lower-cased line is that word. The line is blank iff it is whitespace only. A non-blank line that is none of the four commands is a data line holding the stripped text, and a data line is never empty. |
| InputHandler.LineRecords | Generate-Data/data_export.py:259-262 | A line adds a record iff it is a data line that parses, and then it adds exactly that record. |
| InputHandler.LineRecordsGood | Generate-Data/data_export.py:259-262 | A line adds at most one record, and it is non-empty with distinct keys. |
| InputHandler.GetStructuredData | Generate-Data/data_export.py:235-274 | At most one record per line, each non-empty with distinct keys. |
| InputHandler.CollectBounds | Generate-Data/data_export.py:242-265 | At most one record per line, and good records stay good. |
| InputHandler.DoneStops | Generate-Data/data_export.py:246-247 | Nothing after `done` is read, and a `done` first returns the list as it was. |
| InputHandler.QuietLineKeepsData | Generate-Data/data_export.py:248-259 | `help`, `list` and a blank line leave the gathered records unchanged. |
| InputHandler.ClearForgets | Generate-Data/data_export.py:254-257 | `clear` forgets everything gathered before it: what follows is gathered as if from an empty list. |
| InputHandler.CollectAppends | Generate-Data/data_export.py:259-263 | Without `done` or `clear`, the loop appends exactly the records the data lines parse to, in order. |
| InputHandler.CollectedIsExportable | Generate-Data/data_export.py:25-40 | Once the loop has gathered a record, the list it gathered passes `validate_data`. |
| Collector.ValidateInput | Generate-Data/add_data.py:25-40 | Blank input is rejected for every type. For `email`: accepted iff non-blank and holding both `@` and `.`. For `numeric`: accepted iff `float()` accepts it. For any other type: accepted iff non-blank. |
| Collector.KindOf | Generate-Data/add_data.py:53-62 | A line stops the loop iff it reads `done` in any case. It is kept iff it is no command and passes the check, and what is kept is the stripped line. |
| Collector.KindKeep | Generate-Data/add_data.py:51-62 | A line is kept iff, stripped, it is no command and passes the check. What is kept is the stripped line, which is its own strip. |
| Collector.EntriesIds | Generate-Data/add_data.py:63-70 | Entries are numbered on from the count without gaps and carry the collector's data type. |
| Collector.EntryFromLine | Generate-Data/add_data.py:62-69 | Every entry comes from an input line that was kept with that value. |
| Collector.EntriesAccepted | Generate-Data/add_data.py:62-68 | Every entry holds a stripped line that is no command and passed the check. |
| Collector.CollectLines | Generate-Data/add_data.py:47-83 | The loop appends exactly the entries of the lines and keeps the data type. The recorded total is the number it appended. It returns the whole list. |
| Collector.GetUserData | Generate-Data/add_data.py:42-83 | `get_user_data` appends the accepted lines as numbered entries. It records how many this call added and returns the whole list. On a fresh collector, `total_entries` equals the length of the list, and the entries are numbered 1 to that total. |
| Collector.FreshCollectorTotals | Generate-Data/add_data.py:63-70 | Gathered into an empty list, the entries are the whole list and are numbered 1 to its length. |
| Collector.EntriesStopAtDone | Generate-Data/add_data.py:53-54 | Nothing after `done` is read. |
| Collector.EntriesAppend | Generate-Data/add_data.py:47-73 | When no line of a stops the loop, the entries of a + b are those of a followed by those of b, numbered on from there. Commands and rejected lines take no number. |
| Collector.NoStop | Generate-Data/add_data.py:53-54 | Lines that do not read `done` never stop the loop. |
| Text.Strip | Generate-Data/add_data.py:27 | Only whitespace is cut, from both ends, and the result neither starts nor ends with whitespace. It is empty iff the input is whitespace only. |
| Text.Lower | Generate-Data/data_export.py:212 | Keeps the length. Every character is lowered on its own: A to Z become a to z, every other character stays, and no capital letter is left. |
| Text.StripIdempotent | Generate-Data/add_data.py:51 | Stripping twice equals stripping once. |
| Text.Split | Generate-Data/data_export.py:280 | At least one piece, no piece holds the separator, and joining the pieces gives the text back. |
| Text.SplitJoin | Generate-Data/data_export.py:280 | Splitting a join of separator-free pieces gives the pieces back. |
| Numerals.IntToStringRoundTrip | Generate-Data/data_export.py:306-307 | `int(str(i)) == i` for every integer. |
| Numerals.IntLiteralIsFloat | Generate-Data/data_export.py:306-315 | Every text `int()` accepts, `float()` accepts too. |

## Left out

- The GUI (`ModernGUI`), its threads and `root.after` callbacks, and everything in Generate-Data/data.py: widgets and plotting, with no logic to state.
- The older copy of the scripts under `Generate Data/`: it is not part of this model.
- Connecting, `test_connection`, `get_collection_stats` and `close_connection`: network calls. Connection state is the `connected` flag.
- The driver's `insert_many` itself: its answer is the `driver` parameter, an inserted-id count, a `BulkWriteError`'s `details`, or another exception's message.
- BulkLoader.InsertData: takes the driver's reported inserted count as given. The code reads `e.details['insertedIds']`, but pymongo's `BulkWriteError.details` holds `nInserted`. The lookup raises `KeyError` inside the `except BulkWriteError` clause, so the sibling `except Exception` (line 161) does not catch it. The outer handler (lines 177-179) returns failure with `'insertedIds'`, and the whole report is lost. That path is modelled by `InsertDataAsWritten` (see "Findings").
- The outer `except Exception` of `insert_data` (lines 177-179): two failures are modelled there, the one `range` raises for batch size 0 and, in `InsertDataAsWritten`, the `'insertedIds'` `KeyError`. Any other exception (for example from `to_dict`) is not modelled.
- Logging (`self.logger`) and every `print`: output only.
- pandas: `read_csv`, `to_dict`, `isnull` and `duplicated` are replaced by a table of ordered column names and rows of cells. A cell is missing or holds text. A duplicate is a row equal to an earlier row.
- File writing and serialisation (csv, json, ElementTree/minidom, openpyxl, parquet): an export returns the path and the document. Whether writing succeeded is the `written` flag.
- `datetime.now()`: clock readings are the `now` and `stamp` parameters. One reading serves both the document and the history entry.
- The `timestamp` of each collector entry and the collector's `created_at`: clock readings with no effect on the logic.
- `KeyboardInterrupt` and `EOFError` in both input loops: the end of the line sequence stands for them.
- The float branch of `_convert_value`: a float is kept as its literal text (`VFloat`), not as a binary value.
- Values.PyStr: a float prints as its literal text, not as Python's shortest repr of the binary value.
- Numerals.PyInt: accepts only ASCII digits. Python also takes other Unicode decimal digits. Python's limit of 4300 digits for `int()` is not modelled.
- Numerals.PyInt and Numerals.PyFloatAccepts: surrounding whitespace is cut with `str.strip()`'s set, which includes U+001C to U+001F. `int()` and `float()` do not skip those four, so `int("\x1c5")` raises where the model reads 5. Every call in `_parse_input` and in the `get_user_data` loop strips the text first, so this shows only in a direct `validate_input` call on such text with the `numeric` type.
- Text.Lower: folds ASCII letters only. Every comparison made on a lowered string is against an ASCII word without `k`, so the result of each comparison matches Python's.
- Exporter.ExportFailureMessage: the unsupported-format message prints the ASCII-lowered name. For a name with non-ASCII capitals Python's `format_type.lower()` prints differently (`Éxcel` gives `éxcel`), and can even change the length (`İ`).
- CsvValidation.WarningText: the text of the names warning uses a model of Python's `repr` for strings. Non-printable characters are escaped only for `\n`, `\r`, `\t` and the backslash.
- `get_export_history` (Generate-Data/data_export.py:195-197): `Exporter.GetExportHistory` returns the history. It returns a copy of the list, and in a model without aliasing the history value itself is that copy.
- A failed file write prints the writer's own error message. `ExportFailureMessage` covers only the failures raised before any write.
- Collector.GetUserData: entry ids restart at 1 on every call, as `entry_count` does in the source. The model does not promise ids unique across calls.

## Findings

| source | as written | input that shows it | evidently intended | confidence | as-written member | corrected member |
|---|---|---|---|---|---|---|
| PyMongo/pymongo.py:156-157 | A rejected record's message uses the index the driver reports, which is its position inside the batch. | Batch size 1, records [10, 20], and every batch rejects its record 0. Both messages read `Row 0: duplicate key`, although they are about different records. | The message names the record's position in the whole list: batch offset plus in-batch index. | medium; not executed | BulkLoader.RowNumbersRepeat | BulkLoader.RowNumberNamesRecord |
| PyMongo/pymongo.py:153 | The inserted count of a partly failed batch is read from `e.details['insertedIds']`. pymongo's details carry `nInserted` and no `insertedIds`. | Records [10], batch size 1, and the driver rejects record 0 with details `nInserted: 0` and one write error. The lookup raises `KeyError`, the outer handler returns failure `'insertedIds'`, and no report comes back. | Read `nInserted`, so that the report is (1, 0, 1, [`Row 0: duplicate key`]). | medium; not executed | BulkLoader.MissingIdsLoseReport | BulkLoader.InsertDataFromDriver |

In the first row, the messages from different batches collide: `Row 0` is written once per batch, and nothing in the message says which batch it came from. `BulkLoader.InsertData` models the code as written. `BulkLoader.InsertDataNumbered` uses the corrected numbering, and `BulkLoader.RowNumberNamesRecord` proves that each of its messages names the rejected record.

For the second row, `BulkLoader.InsertDataAsWritten` fails at the first batch whose details lack `insertedIds`, after submitting that batch. `BulkLoader.InsertDataFromDriver` reads `nInserted`, and `BulkLoader.CorrectedReportAccounts` proves that its report accounts for every record.

Definitions without a row of their own:
- `BulkLoader.Batches` is the list of slices `data[i:i + batch_size]` over `range(0, n, batch_size)` (PyMongo/pymongo.py:143-144).
- `BulkLoader.BatchTally` is what one batch adds to the totals, and `BulkLoader.CountBatch` is the loop body that adds it (PyMongo/pymongo.py:146-163).
- `BulkLoader.ReportWith` is the report folded over all batches (PyMongo/pymongo.py:137-174).
- `InputHandler.EffectOf` is what one line does in the `get_structured_data` loop, and `InputHandler.Collect` is the loop over the lines (Generate-Data/data_export.py:242-274).
- `Collector.Kind` is how the `get_user_data` loop treats one line, and `Collector.Entries` is the entries the loop appends (Generate-Data/add_data.py:49-70).
- `CsvValidation.MissingCount` and `CsvValidation.DuplicateCount` are the `missing_values` and `duplicate_rows` statistics (PyMongo/pymongo.py:97-98).
- `Exporter.XmlItems` and `Exporter.XmlFields` are the `item` elements and their children (Generate-Data/data_export.py:117-124).
- `Exporter.BuildDocument` is what each writer puts in its file (Generate-Data/data_export.py:42-184).
- `Exporter.BaseName` is the default file name (Generate-Data/data_export.py:206-208).
- `Dicts.Put` is `result[key] = value` (Generate-Data/data_export.py:291).
- `CsvValidation.WarningText` is the text of each warning (PyMongo/pymongo.py:110, 114, 123).
- `Exporter.DataErrorMessage` is the message of each `validate_data` failure (Generate-Data/data_export.py:28-38).
- `Exporter.GetExportHistory` is `get_export_history` (Generate-Data/data_export.py:195-197).
- `Numerals.PyInt` is the grammar `int()` accepts, with its value (Generate-Data/data_export.py:306-307).
- `Numerals.PyFloatAccepts` is the grammar `float()` accepts (Generate-Data/data_export.py:312-313; Generate-Data/add_data.py:34-35).
