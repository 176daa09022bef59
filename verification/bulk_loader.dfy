/** The batch import engine of `MongoDBManager.insert_data`: the records are
    cut into consecutive batches of `batch_size`, each batch is handed to the
    destination's bulk insert, and every outcome is folded into one report.
    The destination is a parameter: a function from the batch number and the
    batch to the outcome the driver reports for it. */
module BulkLoader {
  import opened Results
  import opened Numerals

  /** `insert_data`'s default `batch_size`. */
  const DefaultBatchSize: nat := 1000
  const NotConnectedError := "Not connected to MongoDB"

  /** What `str()` of the `ValueError` raised by `range` with step 0 reads. */
  const ZeroStepError := "range() arg 3 must not be zero"

  /** One rejected record of a partially failed batch, as the driver reports
      it: its position inside the submitted batch and the message. */
  datatype WriteError = WriteError(index: int, errmsg: string)

  /** The three ways a bulk insert of one batch can end. */
  datatype BulkOutcome =
      /** Every record was written; the driver returns the inserted ids. */
    | AllInserted(insertedIds: nat)
      /** A bulk-write error: some records written, the listed ones rejected. */
    | PartialFailure(inserted: nat, writeErrors: seq<WriteError>)
      /** Any other exception, with its message. */
    | BatchFailure(message: string)

  /** The outcome the destination gives batch `k` (numbered from 0). */
  type Destination<!R> = (nat, seq<R>) -> BulkOutcome

  /** A destination whose answer accounts for every record it was sent:
      written plus rejected is the batch length. */
  predicate Honest(outcome: BulkOutcome, batchLen: nat) {
    match outcome
    case AllInserted(n) => n == batchLen
    case PartialFailure(n, ws) => n + |ws| == batchLen
    case BatchFailure(_) => true
  }

  /** Running totals: records inserted, records counted as errors, messages. */
  datatype Tally = Tally(inserted: nat, failed: nat, errors: seq<string>)

  const NoTally := Tally(0, 0, [])

  function Combine(a: Tally, b: Tally): Tally {
    Tally(a.inserted + b.inserted, a.failed + b.failed, a.errors + b.errors)
  }

  /** The report of a completed import. */
  datatype ImportReport = ImportReport(totalRecords: nat, insertedCount: nat, errorCount: nat, errors: seq<string>)

  /** `{'success': False, 'error': ...}` or `{'success': True, ...report}`. */
  datatype ImportResult = ImportFailure(error: string) | ImportSuccess(report: ImportReport)

  /** The result together with the batches actually submitted, in order. */
  datatype Run<R> = Run(result: ImportResult, submitted: seq<seq<R>>)

  /** How a rejected record is numbered in its error message: by the index
      the driver reports (its place in the batch), or by its place in the
      whole record list. */
  datatype RowNumbering = InBatch | InDataset

  function Min(a: int, b: int): int {
    if a <= b then a else b
  }

  /** Where batch `j` starts in the record list: `j * size`. */
  function Start(j: nat, size: nat): nat {
    j * size
  }

  lemma {:induction false} StartSucc(k: nat, size: nat)
    requires k > 0
    ensures Start(k, size) == size + Start(k - 1, size)
  {
  }

  /** The slices `data[i:i + size]` for `i` in `range(0, len(data), size)`. */
  function Batches<R>(data: seq<R>, size: nat): seq<seq<R>>
    requires size >= 1
    decreases |data|
  {
    if |data| == 0 then []
    else if |data| <= size then [data]
    else [data[..size]] + Batches(data[size..], size)
  }

  function Flatten<R>(bs: seq<seq<R>>): seq<R> {
    if |bs| == 0 then [] else bs[0] + Flatten(bs[1..])
  }

  lemma {:induction false} FlattenAppend<R>(a: seq<seq<R>>, b: seq<seq<R>>)
    ensures Flatten(a + b) == Flatten(a) + Flatten(b)
  {
    if |a| > 0 {
      assert (a + b)[1..] == a[1..] + b;
      FlattenAppend(a[1..], b);
    } else {
      assert a + b == b;
    }
  }

  /** Concatenated, the batches are exactly the record list. */
  lemma {:induction false} BatchesFlatten<R>(data: seq<R>, size: nat)
    requires size >= 1
    ensures Flatten(Batches(data, size)) == data
    decreases |data|
  {
    if |data| > size {
      BatchesFlatten(data[size..], size);
      assert [data[..size]] + Batches(data[size..], size) == Batches(data, size);
      assert data == data[..size] + data[size..];
    }
  }

  lemma {:induction false} DivUnique(a: int, d: int, q: int, r: int)
    requires d > 0 && 0 <= r < d && a == q * d + r
    ensures a / d == q
  {
    var q', r' := a / d, a % d;
    assert (q - q') * d == r' - r;
    assert q - q' >= 1 ==> (q - q') * d >= d;
    assert q - q' <= -1 ==> (q' - q) * d >= d;
  }

  lemma {:induction false} MulSucc(a: int, b: int)
    ensures (a + 1) * b == a * b + b
  {
  }

  /** Every batch but the last holds `size` records, the last between 1 and
      `size`, so the batches cover the records without overshooting by a
      whole batch. */
  lemma {:induction false} BatchesShape<R>(data: seq<R>, size: nat)
    requires size >= 1
    ensures |Batches(data, size)| == 0 <==> |data| == 0
    ensures forall k :: 0 <= k < |Batches(data, size)| - 1 ==> |Batches(data, size)[k]| == size
    ensures |Batches(data, size)| > 0 ==> 1 <= |Batches(data, size)[|Batches(data, size)| - 1]| <= size
    ensures (|Batches(data, size)| - 1) * size < |data| <= |Batches(data, size)| * size
    decreases |data|
  {
    var bs := Batches(data, size);
    if |data| > size {
      var rest := data[size..];
      BatchesShape(rest, size);
      var m := |Batches(rest, size)|;
      assert bs == [data[..size]] + Batches(rest, size);
      assert (m + 1) * size == m * size + size;
      assert m * size == (m - 1) * size + size;
      forall k | 0 <= k < |bs| - 1 ensures |bs[k]| == size {
        if k > 0 {
          assert bs[k] == Batches(rest, size)[k - 1];
        }
      }
    }
  }

  /** Every batch but the last holds `size` records. */
  lemma {:induction false} BatchesFull<R>(data: seq<R>, size: nat)
    requires size >= 1
    ensures forall k :: 0 <= k < |Batches(data, size)| - 1 ==> |Batches(data, size)[k]| == size
    decreases |data|
  {
    if |data| > size {
      var bs := Batches(data, size);
      var rest := Batches(data[size..], size);
      BatchesFull(data[size..], size);
      assert bs == [data[..size]] + rest;
      forall k | 0 <= k < |bs| - 1 ensures |bs[k]| == size {
        if k > 0 {
          assert bs[k] == rest[k - 1];
        }
      }
    }
  }

  /** The number of batches is ceil(n / size). */
  lemma {:induction false} BatchCount<R>(data: seq<R>, size: nat)
    requires size >= 1
    ensures |Batches(data, size)| == (|data| + size - 1) / size
  {
    BatchesShape(data, size);
    var m := |Batches(data, size)|;
    if m > 0 {
      assert (m - 1) * size == m * size - size;
      DivUnique(|data| + size - 1, size, m, |data| + size - 1 - m * size);
    } else {
      DivUnique(|data| + size - 1, size, 0, |data| + size - 1);
    }
  }

  lemma {:induction false} SliceShift<T>(s: seq<T>, d: nat, a: nat, b: nat)
    requires a <= b && d + b <= |s|
    ensures s[d..][a..b] == s[d + a..d + b]
  {
  }

  /** Batch `k` is the slice starting at `k * size`. */
  lemma {:induction false} BatchAt<R>(data: seq<R>, size: nat, k: nat)
    requires size >= 1
    requires k < |Batches(data, size)|
    ensures Start(k, size) < |data|
    ensures Batches(data, size)[k] == data[Start(k, size)..Min(Start(k, size) + size, |data|)]
    decreases |data|
  {
    BatchesUnroll(data, size);
    if k > 0 {
      var rest := data[size..];
      BatchAt(rest, size, k - 1);
      StartSucc(k, size);
      var a := Start(k - 1, size);
      var b := Min(a + size, |rest|);
      SliceShift(data, size, a, b);
    }
  }

  function RowError(offset: int, w: WriteError): string {
    "Row " + IntToString(offset + w.index) + ": " + w.errmsg
  }

  /** One message per rejected record, in the order the driver lists them. */
  function RowErrors(offset: int, ws: seq<WriteError>): (msgs: seq<string>)
    ensures |msgs| == |ws|
    ensures forall i :: 0 <= i < |ws| ==> msgs[i] == RowError(offset, ws[i])
  {
    seq(|ws|, i requires 0 <= i < |ws| => RowError(offset, ws[i]))
  }

  function BatchError(number: nat, message: string): string {
    "Batch " + NatToString(number) + ": " + message
  }

  /** What the destination answered for one submitted batch of `size`
      records. */
  datatype Submission = Submission(size: nat, outcome: BulkOutcome)

  /** The answers to batches `bs`, the first being batch number `first`. */
  function Submissions<R>(bs: seq<seq<R>>, first: nat, dest: Destination<R>): (subs: seq<Submission>)
    ensures |subs| == |bs|
    ensures forall k :: 0 <= k < |bs| ==> subs[k] == Submission(|bs[k]|, dest(first + k, bs[k]))
  {
    seq(|bs|, k requires 0 <= k < |bs| => Submission(|bs[k]|, dest(first + k, bs[k])))
  }

  /** Records submitted in total. */
  function Sizes(subs: seq<Submission>): nat {
    if |subs| == 0 then 0 else subs[0].size + Sizes(subs[1..])
  }

  lemma {:induction false} SizesFlatten<R>(bs: seq<seq<R>>, first: nat, dest: Destination<R>)
    ensures Sizes(Submissions(bs, first, dest)) == |Flatten(bs)|
    decreases |bs|
  {
    if |bs| > 0 {
      assert Submissions(bs, first, dest)[1..] == Submissions(bs[1..], first + 1, dest);
      SizesFlatten(bs[1..], first + 1, dest);
    }
  }

  /** What batch number `k` (from 0), starting at record `offset`, adds to
      the totals. */
  function BatchTally(numbering: RowNumbering, k: nat, offset: nat, sub: Submission): Tally {
    match sub.outcome
    case AllInserted(n) => Tally(n, 0, [])
    case PartialFailure(n, ws) =>
      Tally(n, |ws|, RowErrors(if numbering == InDataset then offset else 0, ws))
    case BatchFailure(m) => Tally(0, sub.size, [BatchError(k + 1, m)])
  }

  lemma {:induction false} CombineAssoc(a: Tally, b: Tally, c: Tally)
    ensures Combine(Combine(a, b), c) == Combine(a, Combine(b, c))
  {
    assert (a.errors + b.errors) + c.errors == a.errors + (b.errors + c.errors);
  }

  lemma {:induction false} CombineUnit(t: Tally)
    ensures Combine(NoTally, t) == t
  {
    assert [] + t.errors == t.errors;
  }

  /** What one batch adds to the totals, from its number (from 0), the
      record it starts at and the destination's answer. */
  type Counter = (nat, nat, Submission) -> Tally

  /** Totals over the answers `subs` for any way `count` of counting one
      batch, the first answering batch number `first`, which starts at
      record `offset`. */
  function TallyBy(count: Counter, subs: seq<Submission>, first: nat, offset: nat): Tally
    decreases |subs|
  {
    if |subs| == 0 then NoTally
    else
      Combine(count(first, offset, subs[0]),
              TallyBy(count, subs[1..], first + 1, offset + subs[0].size))
  }

  /** However a batch is counted, the totals of a run of batches are the
      totals of its first part followed by those of the rest. */
  lemma {:induction false} TallyBySplit(count: Counter, a: seq<Submission>, b: seq<Submission>, first: nat, offset: nat)
    ensures TallyBy(count, a + b, first, offset)
         == Combine(TallyBy(count, a, first, offset), TallyBy(count, b, first + |a|, offset + Sizes(a)))
    decreases |a|
  {
    if |a| == 0 {
      assert a + b == b;
      CombineUnit(TallyBy(count, b, first, offset));
    } else {
      assert (a + b)[0] == a[0];
      assert (a + b)[1..] == a[1..] + b;
      TallyBySplit(count, a[1..], b, first + 1, offset + a[0].size);
      CombineAssoc(count(first, offset, a[0]),
                   TallyBy(count, a[1..], first + 1, offset + a[0].size),
                   TallyBy(count, b, first + |a|, offset + Sizes(a)));
    }
  }

  /** `insert_data`'s way of counting a batch. */
  function Counting(numbering: RowNumbering): Counter {
    (k: nat, offset: nat, sub: Submission) => BatchTally(numbering, k, offset, sub)
  }

  /** Totals over the answers `subs`, the first answering batch number
      `first`, which starts at record `offset`. */
  function TallyFrom(numbering: RowNumbering, subs: seq<Submission>, first: nat, offset: nat): Tally {
    TallyBy(Counting(numbering), subs, first, offset)
  }

  /** The first batch's totals come first. */
  lemma {:induction false} TallyFromCons(numbering: RowNumbering, subs: seq<Submission>, first: nat, offset: nat)
    requires |subs| > 0
    ensures TallyFrom(numbering, subs, first, offset)
         == Combine(BatchTally(numbering, first, offset, subs[0]),
                    TallyFrom(numbering, subs[1..], first + 1, offset + subs[0].size))
  {
  }

  /** The totals of a run of batches are the totals of its two parts. */
  lemma {:induction false} TallySplit(numbering: RowNumbering, a: seq<Submission>, b: seq<Submission>, first: nat, offset: nat)
    ensures TallyFrom(numbering, a + b, first, offset)
         == Combine(TallyFrom(numbering, a, first, offset), TallyFrom(numbering, b, first + |a|, offset + Sizes(a)))
  {
    TallyBySplit(Counting(numbering), a, b, first, offset);
  }

  lemma {:induction false} TallyOne(numbering: RowNumbering, sub: Submission, k: nat, offset: nat)
    ensures TallyFrom(numbering, [sub], k, offset) == BatchTally(numbering, k, offset, sub)
  {
    TallyFromCons(numbering, [sub], k, offset);
    assert BatchTally(numbering, k, offset, sub).errors + [] == BatchTally(numbering, k, offset, sub).errors;
  }

  /** The report over all batches of `data`. */
  function ReportWith<R>(numbering: RowNumbering, data: seq<R>, size: nat, dest: Destination<R>): ImportReport
    requires size >= 1
  {
    var t := TallyFrom(numbering, Submissions(Batches(data, size), 0, dest), 0, 0);
    ImportReport(|data|, t.inserted, t.failed, t.errors)
  }

  /** Batches already sent fill the first `i` records. */
  lemma {:induction false} SentLength<R>(data: seq<R>, size: nat, sent: seq<seq<R>>, i: nat)
    requires size >= 1
    requires i <= |data|
    requires Batches(data, size) == sent + Batches(data[i..], size)
    ensures |Flatten(sent)| == i
  {
    FlattenAppend(sent, Batches(data[i..], size));
    BatchesFlatten(data, size);
    BatchesFlatten(data[i..], size);
  }

  /** The first batch of a non-empty run is its first `size` records, or all
      of them. */
  lemma {:induction false} BatchesUnroll<R>(d: seq<R>, size: nat)
    requires size >= 1 && |d| > 0
    ensures |d| > size ==> Batches(d, size) == [d[..size]] + Batches(d[size..], size)
    ensures |d| <= size ==> Batches(d, size) == [d]
  {
  }

  /** The next batch is the slice from `i`. */
  lemma {:induction false} BatchStep<R>(data: seq<R>, size: nat, sent: seq<seq<R>>, i: nat)
    requires size >= 1
    requires i < |data|
    requires Batches(data, size) == sent + Batches(data[i..], size)
    ensures var batch := data[i..Min(i + size, |data|)];
            && (i + size <= |data| ==> Batches(data, size) == (sent + [batch]) + Batches(data[i + size..], size))
            && (i + size > |data| ==> Batches(data, size) == sent + [batch])
  {
    var d := data[i..];
    var batch := data[i..Min(i + size, |data|)];
    BatchesUnroll(d, size);
    if |d| > size {
      assert d[..size] == batch;
      assert d[size..] == data[i + size..];
      assert sent + ([batch] + Batches(data[i + size..], size)) == (sent + [batch]) + Batches(data[i + size..], size);
    } else {
      assert d == batch;
      if i + size == |data| {
        assert data[i + size..] == [];
      }
    }
  }

  /** Sending one more batch adds its own totals to the running ones. */
  lemma {:induction false} TallyStep<R>(numbering: RowNumbering, sent: seq<seq<R>>, batch: seq<R>, dest: Destination<R>, i: nat)
    requires |Flatten(sent)| == i
    ensures TallyFrom(numbering, Submissions(sent + [batch], 0, dest), 0, 0)
         == Combine(TallyFrom(numbering, Submissions(sent, 0, dest), 0, 0),
                    BatchTally(numbering, |sent|, i, Submission(|batch|, dest(|sent|, batch))))
  {
    var subs := Submissions(sent, 0, dest);
    var sub := Submission(|batch|, dest(|sent|, batch));
    SizesFlatten(sent, 0, dest);
    assert Submissions(sent + [batch], 0, dest) == subs + [sub];
    TallySplit(numbering, subs, [sub], 0, 0);
    TallyOne(numbering, sub, |sent|, i);
  }

  /** The `Row ...` messages of a partially failed batch, built one
      rejected record at a time. */
  method RowMessages(base: int, ws: seq<WriteError>) returns (msgs: seq<string>)
    ensures msgs == RowErrors(base, ws)
  {
    msgs := [];
    var j := 0;
    while j < |ws|
      invariant j <= |ws|
      invariant msgs == RowErrors(base, ws[..j])
    {
      RowErrorsSnoc(base, ws, j);
      msgs := msgs + [RowError(base, ws[j])];
      j := j + 1;
    }
    assert ws[..j] == ws;
  }

  lemma {:induction false} RowErrorsSnoc(base: int, ws: seq<WriteError>, j: nat)
    requires j < |ws|
    ensures RowErrors(base, ws[..j + 1]) == RowErrors(base, ws[..j]) + [RowError(base, ws[j])]
  {
    assert ws[..j + 1][j] == ws[j];
  }

  /** One turn of the batch loop: adds the outcome of the batch numbered
      `number` (from 1), which starts at record `start`, to the totals. */
  method CountBatch(numbering: RowNumbering, before: Tally, number: nat, start: nat, batchLen: nat, outcome: BulkOutcome) returns (t: Tally)
    requires number >= 1
    ensures t == Combine(before, BatchTally(numbering, number - 1, start, Submission(batchLen, outcome)))
  {
    match outcome {
      case AllInserted(n) =>
        t := Tally(before.inserted + n, before.failed, before.errors + []);
      case PartialFailure(n, ws) =>
        var msgs := RowMessages(if numbering == InDataset then start else 0, ws);
        t := Tally(before.inserted + n, before.failed + |ws|, before.errors + msgs);
      case BatchFailure(m) =>
        t := Tally(before.inserted, before.failed + batchLen, before.errors + ["Batch " + NatToString(number) + ": " + m]);
    }
  }

  /** The batch loop of `insert_data`, with rejected records numbered as
      `numbering` says. */
  method ImportBatches<R>(numbering: RowNumbering, data: seq<R>, batchSize: nat, dest: Destination<R>) returns (run: Run<R>)
    requires batchSize >= 1
    ensures run.submitted == Batches(data, batchSize)
    ensures run.result == ImportSuccess(ReportWith(numbering, data, batchSize, dest))
  {
    var total := |data|;
    var tally := NoTally;
    var sent: seq<seq<R>> := [];
    var i := 0;
    while i < total
      invariant i == |sent| * batchSize
      invariant i <= total ==> Batches(data, batchSize) == sent + Batches(data[i..], batchSize)
      invariant i > total ==> Batches(data, batchSize) == sent
      invariant tally == TallyFrom(numbering, Submissions(sent, 0, dest), 0, 0)
      decreases total - i
    {
      var batch := data[i..Min(i + batchSize, total)];
      Advance(numbering, data, batchSize, dest, sent, i, tally);
      var number := i / batchSize + 1;
      tally := CountBatch(numbering, tally, number, i, |batch|, dest(|sent|, batch));
      sent := sent + [batch];
      i := i + batchSize;
    }
    return Run(ImportSuccess(ImportReport(total, tally.inserted, tally.failed, tally.errors)), sent);
  }

  /** One turn of the batch loop: the batch taken at `i` is the next one, it
      is numbered `|sent| + 1`, and counting it gives the totals of the
      batches sent so far and it. */
  lemma {:induction false} Advance<R>(numbering: RowNumbering, data: seq<R>, size: nat, dest: Destination<R>, sent: seq<seq<R>>, i: nat, before: Tally)
    requires size >= 1 && i < |data|
    requires i == |sent| * size
    requires Batches(data, size) == sent + Batches(data[i..], size)
    requires before == TallyFrom(numbering, Submissions(sent, 0, dest), 0, 0)
    ensures i / size == |sent|
    ensures i + size == |sent + [data[i..Min(i + size, |data|)]]| * size
    ensures i + size <= |data| ==>
              Batches(data, size) == (sent + [data[i..Min(i + size, |data|)]]) + Batches(data[i + size..], size)
    ensures i + size > |data| ==> Batches(data, size) == sent + [data[i..Min(i + size, |data|)]]
    ensures var batch := data[i..Min(i + size, |data|)];
            Combine(before, BatchTally(numbering, |sent|, i, Submission(|batch|, dest(|sent|, batch))))
            == TallyFrom(numbering, Submissions(sent + [batch], 0, dest), 0, 0)
  {
    var batch := data[i..Min(i + size, |data|)];
    DivUnique(i, size, |sent|, 0);
    SentLength(data, size, sent, i);
    BatchStep(data, size, sent, i);
    TallyStep(numbering, sent, batch, dest, i);
    MulSucc(|sent|, size);
  }

  /** `MongoDBManager.insert_data`: refused unless connected; otherwise the
      batches are submitted in order and every outcome counted, rejected
      records being named by the index the driver reports. A batch size of
      0 makes `range` raise, which the outer handler turns into a failed
      import; a negative one yields no batch at all. */
  method InsertData<R>(connected: bool, data: seq<R>, batchSize: int, dest: Destination<R>) returns (run: Run<R>)
    ensures !connected ==> run == Run(ImportFailure(NotConnectedError), [])
    ensures connected && batchSize == 0 ==> run == Run(ImportFailure(ZeroStepError), [])
    ensures connected && batchSize < 0 ==> run == Run(ImportSuccess(ImportReport(|data|, 0, 0, [])), [])
    ensures connected && batchSize >= 1 ==> run.submitted == Batches(data, batchSize)
    ensures connected && batchSize >= 1 ==> run.result == ImportSuccess(ReportWith(InBatch, data, batchSize, dest))
    ensures connected && batchSize != 0 && |data| == 0 ==> run == Run(ImportSuccess(ImportReport(0, 0, 0, [])), [])
  {
    run := Import(InBatch, connected, data, batchSize, dest);
  }

  /** `insert_data` with each rejected record named by its place in the whole
      record list. */
  method InsertDataNumbered<R>(connected: bool, data: seq<R>, batchSize: int, dest: Destination<R>) returns (run: Run<R>)
    ensures !connected ==> run == Run(ImportFailure(NotConnectedError), [])
    ensures connected && batchSize == 0 ==> run == Run(ImportFailure(ZeroStepError), [])
    ensures connected && batchSize < 0 ==> run == Run(ImportSuccess(ImportReport(|data|, 0, 0, [])), [])
    ensures connected && batchSize >= 1 ==> run.submitted == Batches(data, batchSize)
    ensures connected && batchSize >= 1 ==> run.result == ImportSuccess(ReportWith(InDataset, data, batchSize, dest))
  {
    run := Import(InDataset, connected, data, batchSize, dest);
  }

  /** The connection check and the cases of the batch size, shared by both
      numberings. */
  method Import<R>(numbering: RowNumbering, connected: bool, data: seq<R>, batchSize: int, dest: Destination<R>) returns (run: Run<R>)
    ensures !connected ==> run == Run(ImportFailure(NotConnectedError), [])
    ensures connected && batchSize == 0 ==> run == Run(ImportFailure(ZeroStepError), [])
    ensures connected && batchSize < 0 ==> run == Run(ImportSuccess(ImportReport(|data|, 0, 0, [])), [])
    ensures connected && batchSize >= 1 ==> run.submitted == Batches(data, batchSize)
    ensures connected && batchSize >= 1 ==> run.result == ImportSuccess(ReportWith(numbering, data, batchSize, dest))
  {
    if !connected {
      return Run(ImportFailure(NotConnectedError), []);
    } else if batchSize == 0 {
      return Run(ImportFailure(ZeroStepError), []);
    } else if batchSize < 0 {
      return Run(ImportSuccess(ImportReport(|data|, 0, 0, [])), []);
    }
    run := ImportBatches(numbering, data, batchSize, dest);
  }

  /** `insert_data` called without a batch size. */
  method InsertDataDefault<R>(connected: bool, data: seq<R>, dest: Destination<R>) returns (run: Run<R>)
    ensures !connected ==> run == Run(ImportFailure(NotConnectedError), [])
    ensures connected ==> run.submitted == Batches(data, DefaultBatchSize)
    ensures connected ==> |run.submitted| == (|data| + DefaultBatchSize - 1) / DefaultBatchSize
    ensures connected ==> run.result == ImportSuccess(ReportWith(InBatch, data, DefaultBatchSize, dest))
  {
    run := InsertData(connected, data, DefaultBatchSize, dest);
    BatchCount(data, DefaultBatchSize);
  }

  /** The `details` of a `BulkWriteError`. The driver counts the records it
      wrote under `nInserted`; `insertedIds` is the number of ids listed
      under that key when the details carry one, and `None` when they do
      not, which is how pymongo's own `BulkWriteError` reports. */
  datatype BulkDetails = BulkDetails(nInserted: nat, insertedIds: Option<nat>, writeErrors: seq<WriteError>)

  /** How `insert_many` ends for one batch, as the driver reports it. */
  datatype DriverOutcome =
    | Inserted(insertedIds: nat)
    | BulkWriteError(details: BulkDetails)
    | Raised(message: string)

  /** The driver's answer to batch `k` (numbered from 0). */
  type Driver<!R> = (nat, seq<R>) -> DriverOutcome

  /** What `str()` of the `KeyError` for the absent key reads. */
  const MissingIdsError := "'insertedIds'"

  /** A bulk-write error whose details have no `insertedIds`: reading
      `e.details['insertedIds']` raises `KeyError` on it. */
  predicate LacksIds(o: DriverOutcome) {
    o.BulkWriteError? && o.details.insertedIds.None?
  }

  /** The counts as the code reads them: `len(e.details['insertedIds'])`
      records written. An outcome that lacks the key never reaches the
      totals, so what it maps to is immaterial. */
  function AsWrittenOutcome(o: DriverOutcome): BulkOutcome {
    match o
    case Inserted(n) => AllInserted(n)
    case BulkWriteError(d) => PartialFailure(if d.insertedIds.Some? then d.insertedIds.value else 0, d.writeErrors)
    case Raised(m) => BatchFailure(m)
  }

  /** The counts read from `nInserted`, which the details always carry. */
  function CorrectedOutcome(o: DriverOutcome): BulkOutcome {
    match o
    case Inserted(n) => AllInserted(n)
    case BulkWriteError(d) => PartialFailure(d.nInserted, d.writeErrors)
    case Raised(m) => BatchFailure(m)
  }

  function AsWritten<R>(driver: Driver<R>): Destination<R> {
    (k: nat, batch: seq<R>) => AsWrittenOutcome(driver(k, batch))
  }

  function Corrected<R>(driver: Driver<R>): Destination<R> {
    (k: nat, batch: seq<R>) => CorrectedOutcome(driver(k, batch))
  }

  /** The first of the batches `bs`, from batch `k` on, whose outcome lacks
      `insertedIds`, or `|bs|` when none does. */
  function FirstLacking<R>(driver: Driver<R>, bs: seq<seq<R>>, k: nat): (j: nat)
    requires k <= |bs|
    ensures k <= j <= |bs|
    ensures j < |bs| ==> LacksIds(driver(j, bs[j]))
    decreases |bs| - k
  {
    if k == |bs| || LacksIds(driver(k, bs[k])) then k else FirstLacking(driver, bs, k + 1)
  }

  /** Every batch before the first lacking one carries `insertedIds`. */
  lemma {:induction false} FirstLackingIsFirst<R>(driver: Driver<R>, bs: seq<seq<R>>, k: nat, i: nat)
    requires k <= |bs| && k <= i < FirstLacking(driver, bs, k)
    ensures !LacksIds(driver(i, bs[i]))
    decreases |bs| - k
  {
    if k < i {
      FirstLackingIsFirst(driver, bs, k + 1, i);
    }
  }

  /** The search agrees on a prefix `a` of `b` in which it finds nothing. */
  lemma {:induction false} FirstLackingPrefix<R>(driver: Driver<R>, a: seq<seq<R>>, b: seq<seq<R>>, k: nat)
    requires |a| <= |b| && b[..|a|] == a
    requires k <= |a| && FirstLacking(driver, a, k) == |a|
    ensures FirstLacking(driver, b, k) == FirstLacking(driver, b, |a|)
    decreases |a| - k
  {
    if k < |a| {
      assert b[k] == a[k];
      FirstLackingPrefix(driver, a, b, k + 1);
    }
  }

  /** `insert_data` as written, over the driver's own outcomes, with the
      three handlers of the batch loop spelled out. A bulk-write error whose
      details lack `insertedIds` raises `KeyError` inside its handler; the
      sibling `except Exception` does not see it, so the outer handler ends
      the import as failed and the counts gathered so far are lost. */
  method InsertDataAsWritten<R>(connected: bool, data: seq<R>, batchSize: int, driver: Driver<R>) returns (run: Run<R>)
    ensures !connected ==> run == Run(ImportFailure(NotConnectedError), [])
    ensures connected && batchSize == 0 ==> run == Run(ImportFailure(ZeroStepError), [])
    ensures connected && batchSize < 0 ==> run == Run(ImportSuccess(ImportReport(|data|, 0, 0, [])), [])
    ensures connected && batchSize >= 1 ==>
              var bs := Batches(data, batchSize);
              var j := FirstLacking(driver, bs, 0);
              && (j == |bs| ==> run == Run(ImportSuccess(ReportWith(InBatch, data, batchSize, AsWritten(driver))), bs))
              && (j < |bs| ==> run == Run(ImportFailure(MissingIdsError), bs[..j + 1]))
  {
    if !connected {
      return Run(ImportFailure(NotConnectedError), []);
    } else if batchSize == 0 {
      return Run(ImportFailure(ZeroStepError), []);
    } else if batchSize < 0 {
      return Run(ImportSuccess(ImportReport(|data|, 0, 0, [])), []);
    }
    run := DriverBatches(data, batchSize, driver);
  }

  /** The batch loop of `insert_data` as written (lines 143-163), over the
      driver's own outcomes. */
  method DriverBatches<R>(data: seq<R>, batchSize: nat, driver: Driver<R>) returns (run: Run<R>)
    requires batchSize >= 1
    ensures var bs := Batches(data, batchSize);
            var j := FirstLacking(driver, bs, 0);
            && (j == |bs| ==> run == Run(ImportSuccess(ReportWith(InBatch, data, batchSize, AsWritten(driver))), bs))
            && (j < |bs| ==> run == Run(ImportFailure(MissingIdsError), bs[..j + 1]))
  {
    var total := |data|;
    var tally := NoTally;
    var sent: seq<seq<R>> := [];
    var i := 0;
    while i < total
      invariant i == |sent| * batchSize
      invariant i <= total ==> Batches(data, batchSize) == sent + Batches(data[i..], batchSize)
      invariant i > total ==> Batches(data, batchSize) == sent
      invariant tally == TallyFrom(InBatch, Submissions(sent, 0, AsWritten(driver)), 0, 0)
      invariant FirstLacking(driver, sent, 0) == |sent|
      decreases total - i
    {
      var missing;
      missing, sent, tally := DriverTurn(data, batchSize, driver, sent, i, tally);
      if missing {
        return Run(ImportFailure(MissingIdsError), sent);
      }
      i := i + batchSize;
    }
    if i == total {
      assert data[i..] == [];
      assert sent + [] == sent;
    }
    assert Batches(data, batchSize) == sent;
    return Run(ImportSuccess(ImportReport(total, tally.inserted, tally.failed, tally.errors)), sent);
  }

  /** One turn of the batch loop as written: the batch at record `i` is
      sent and its answer counted; `missing` when reading `insertedIds`
      raises, in which case that batch is the first to lack them. */
  method DriverTurn<R>(data: seq<R>, size: nat, driver: Driver<R>, sent: seq<seq<R>>, i: nat, before: Tally)
    returns (missing: bool, sent': seq<seq<R>>, after: Tally)
    requires size >= 1 && i < |data|
    requires i == |sent| * size
    requires Batches(data, size) == sent + Batches(data[i..], size)
    requires before == TallyFrom(InBatch, Submissions(sent, 0, AsWritten(driver)), 0, 0)
    requires FirstLacking(driver, sent, 0) == |sent|
    ensures sent' == sent + [data[i..Min(i + size, |data|)]]
    ensures i + size == |sent'| * size
    ensures i + size <= |data| ==> Batches(data, size) == sent' + Batches(data[i + size..], size)
    ensures i + size > |data| ==> Batches(data, size) == sent'
    ensures missing ==> |sent| < |Batches(data, size)| && FirstLacking(driver, Batches(data, size), 0) == |sent|
                        && Batches(data, size)[..|sent| + 1] == sent'
    ensures !missing ==> after == TallyFrom(InBatch, Submissions(sent', 0, AsWritten(driver)), 0, 0)
                         && FirstLacking(driver, sent', 0) == |sent'|
  {
    var batch := data[i..Min(i + size, |data|)];
    Advance(InBatch, data, size, AsWritten(driver), sent, i, before);
    var number := i / size + 1;
    var outcome := driver(|sent|, batch);
    var counted := CountAnswer(before, number, i, |batch|, outcome);
    sent' := sent + [batch];
    if counted.None? {
      LackingAt(driver, Batches(data, size), sent, batch);
      return true, sent', before;
    }
    assert AsWritten(driver)(|sent|, batch) == AsWrittenOutcome(outcome);
    KeptIds(driver, sent, batch, outcome);
    return false, sent', counted.value;
  }

  /** The handlers of lines 146-163 for the answer `outcome` to the batch
      numbered `number` (from 1), which starts at record `start`: the
      totals `before` with the batch counted, or `None` when reading
      `insertedIds` raises. */
  method CountAnswer(before: Tally, number: nat, start: nat, batchLen: nat, outcome: DriverOutcome) returns (t: Option<Tally>)
    requires number >= 1
    ensures t.None? <==> LacksIds(outcome)
    ensures t.Some? ==> t.value == Combine(before, BatchTally(InBatch, number - 1, start, Submission(batchLen, AsWrittenOutcome(outcome))))
  {
    match outcome {
      case Inserted(n) =>
        DriverStep(before, number - 1, start, batchLen, outcome);
        t := Some(Tally(before.inserted + n, before.failed, before.errors + []));
      case BulkWriteError(details) =>
        if details.insertedIds.None? {
          return None;
        }
        DriverStep(before, number - 1, start, batchLen, outcome);
        var msgs := RowMessages(0, details.writeErrors);
        t := Some(Tally(before.inserted + details.insertedIds.value, before.failed + |details.writeErrors|, before.errors + msgs));
      case Raised(m) =>
        DriverStep(before, number - 1, start, batchLen, outcome);
        t := Some(Tally(before.inserted, before.failed + batchLen, before.errors + [BatchError(number, m)]));
    }
  }

  /** What each handler of the batch loop adds to the totals `before` for
      an answer that does not lack `insertedIds`. */
  lemma {:induction false} DriverStep(before: Tally, k: nat, offset: nat, batchLen: nat, o: DriverOutcome)
    requires !LacksIds(o)
    ensures var t := Combine(before, BatchTally(InBatch, k, offset, Submission(batchLen, AsWrittenOutcome(o))));
            && (o.Inserted? ==> t == Tally(before.inserted + o.insertedIds, before.failed, before.errors + []))
            && (o.BulkWriteError? ==>
                  t == Tally(before.inserted + o.details.insertedIds.value, before.failed + |o.details.writeErrors|,
                             before.errors + RowErrors(0, o.details.writeErrors)))
            && (o.Raised? ==> t == Tally(before.inserted, before.failed + batchLen, before.errors + [BatchError(k + 1, o.message)]))
  {
  }

  /** The batch just answered without `insertedIds` is the first to lack
      them, and the batches sent so far are the prefix up to it. */
  lemma {:induction false} LackingAt<R>(driver: Driver<R>, bs: seq<seq<R>>, sent: seq<seq<R>>, batch: seq<R>)
    requires |sent + [batch]| <= |bs| && bs[..|sent| + 1] == sent + [batch]
    requires FirstLacking(driver, sent, 0) == |sent|
    requires LacksIds(driver(|sent|, batch))
    ensures FirstLacking(driver, bs, 0) == |sent|
    ensures bs[..FirstLacking(driver, bs, 0) + 1] == sent + [batch]
  {
    assert bs[..|sent|] == sent;
    assert bs[|sent|] == (sent + [batch])[|sent|] == batch;
    FirstLackingPrefix(driver, sent, bs, 0);
  }

  /** A batch answered with its ids extends the run of such batches. */
  lemma {:induction false} KeptIds<R>(driver: Driver<R>, sent: seq<seq<R>>, batch: seq<R>, outcome: DriverOutcome)
    requires FirstLacking(driver, sent, 0) == |sent|
    requires outcome == driver(|sent|, batch) && !LacksIds(outcome)
    ensures FirstLacking(driver, sent + [batch], 0) == |sent + [batch]|
  {
    var b := sent + [batch];
    assert b[..|sent|] == sent;
    assert b[|sent|] == batch;
    FirstLackingPrefix(driver, sent, b, 0);
  }

  /** `insert_data` with the written count of a bulk-write error read from
      `nInserted`: whatever the driver answers, a connected import with a
      positive batch size completes and reports on every batch. */
  method InsertDataFromDriver<R>(connected: bool, data: seq<R>, batchSize: int, driver: Driver<R>) returns (run: Run<R>)
    ensures !connected ==> run == Run(ImportFailure(NotConnectedError), [])
    ensures connected && batchSize == 0 ==> run == Run(ImportFailure(ZeroStepError), [])
    ensures connected && batchSize < 0 ==> run == Run(ImportSuccess(ImportReport(|data|, 0, 0, [])), [])
    ensures connected && batchSize >= 1 ==>
              run == Run(ImportSuccess(ReportWith(InBatch, data, batchSize, Corrected(driver))), Batches(data, batchSize))
  {
    run := InsertData(connected, data, batchSize, Corrected(driver));
  }

  /** The driver's answer accounts for every record it was sent. */
  predicate HonestDriver(o: DriverOutcome, batchLen: nat) {
    match o
    case Inserted(n) => n == batchLen
    case BulkWriteError(d) => d.nInserted + |d.writeErrors| == batchLen
    case Raised(_) => true
  }

  /** Read from `nInserted`, the report accounts for every record. */
  lemma {:induction false} CorrectedReportAccounts<R>(data: seq<R>, size: nat, driver: Driver<R>)
    requires size >= 1
    requires forall k :: 0 <= k < |Batches(data, size)| ==> HonestDriver(driver(k, Batches(data, size)[k]), |Batches(data, size)[k]|)
    ensures ReportWith(InBatch, data, size, Corrected(driver)).insertedCount
            + ReportWith(InBatch, data, size, Corrected(driver)).errorCount == |data|
  {
    var bs := Batches(data, size);
    forall k | 0 <= k < |bs| ensures Honest(Corrected(driver)(k, bs[k]), |bs[k]|) {
      assert HonestDriver(driver(k, bs[k]), |bs[k]|);
    }
    ReportAccounts(InBatch, data, size, Corrected(driver));
  }

  /** A driver that rejects the first record of every batch as pymongo
      reports it: `nInserted` and `writeErrors`, no `insertedIds`. */
  function DriverRejectFirst(k: nat, batch: seq<int>): DriverOutcome {
    if |batch| == 0 then Inserted(0)
    else BulkWriteError(BulkDetails(|batch| - 1, None, [WriteError(0, "duplicate key")]))
  }

  /** One record, rejected. As written the first batch already lacks
      `insertedIds`, so by `InsertDataAsWritten`'s contract the import
      fails with `'insertedIds'` and reports nothing; read from `nInserted`
      the same run reports one record, no insert and one row message. */
  lemma {:induction false} MissingIdsLoseReport()
    ensures Batches([10], 1) == [[10]]
    ensures FirstLacking(DriverRejectFirst, Batches([10], 1), 0) == 0
    ensures ReportWith(InBatch, [10], 1, Corrected(DriverRejectFirst)) == ImportReport(1, 0, 1, ["Row 0: duplicate key"])
  {
    var data := [10];
    assert Batches(data, 1) == [data];
    var sub := RejectFirstSubmission();
    TallyOne(InBatch, sub, 0, 0);
    RejectFirstMessage();
  }

  /** The one submission `DriverRejectFirst` answers for `[10]`, read from `nInserted`. */
  lemma {:induction false} RejectFirstSubmission() returns (sub: Submission)
    ensures Submissions([[10]], 0, Corrected(DriverRejectFirst)) == [sub]
    ensures sub == Submission(1, PartialFailure(0, [WriteError(0, "duplicate key")]))
  {
    var data := [10];
    var ws := [WriteError(0, "duplicate key")];
    assert DriverRejectFirst(0, data) == BulkWriteError(BulkDetails(0, None, ws));
    var dest := Corrected(DriverRejectFirst);
    assert dest(0, data) == CorrectedOutcome(DriverRejectFirst(0, data));
    var bs: seq<seq<int>> := [data];
    var subs := Submissions(bs, 0, dest);
    assert subs[0] == Submission(|bs[0]|, dest(0 + 0, bs[0]));
    sub := Submission(1, PartialFailure(0, ws));
    assert subs == [sub];
  }

  /** The row message for that rejection. */
  lemma {:induction false} RejectFirstMessage()
    ensures RowErrors(0, [WriteError(0, "duplicate key")]) == ["Row 0: duplicate key"]
  {
    var msg := "Row " + IntToString(0) + ": " + "duplicate key";
    assert IntToString(0) == "0";
    assert msg == "Row 0: duplicate key";
    assert RowErrors(0, [WriteError(0, "duplicate key")])[0] == msg;
  }

  /** Every record is accounted for once: with an honest destination,
      inserted plus errored records is the number of records submitted. */
  lemma {:induction false} TallyAccounts(numbering: RowNumbering, subs: seq<Submission>, first: nat, offset: nat)
    requires forall k :: 0 <= k < |subs| ==> Honest(subs[k].outcome, subs[k].size)
    ensures TallyFrom(numbering, subs, first, offset).inserted + TallyFrom(numbering, subs, first, offset).failed == Sizes(subs)
    decreases |subs|
  {
    if |subs| > 0 {
      assert Honest(subs[0].outcome, subs[0].size);
      TallyFromCons(numbering, subs, first, offset);
      TallyAccounts(numbering, subs[1..], first + 1, offset + subs[0].size);
    }
  }

  lemma {:induction false} ReportAccounts<R>(numbering: RowNumbering, data: seq<R>, size: nat, dest: Destination<R>)
    requires size >= 1
    requires forall k :: 0 <= k < |Batches(data, size)| ==> Honest(dest(k, Batches(data, size)[k]), |Batches(data, size)[k]|)
    ensures ReportWith(numbering, data, size, dest).insertedCount + ReportWith(numbering, data, size, dest).errorCount
         == ReportWith(numbering, data, size, dest).totalRecords
    ensures ReportWith(numbering, data, size, dest).totalRecords == |data|
  {
    var bs := Batches(data, size);
    var subs := Submissions(bs, 0, dest);
    forall k | 0 <= k < |subs| ensures Honest(subs[k].outcome, subs[k].size) {
      assert subs[k] == Submission(|bs[k]|, dest(0 + k, bs[k]));
    }
    TallyAccounts(numbering, subs, 0, 0);
    SizesFlatten(bs, 0, dest);
    BatchesFlatten(data, size);
  }

  /** Fail-forward: whatever batch `j` does, the totals are those of the
      batches before it, then its own, then those of the batches after it;
      a failed batch stops nothing. */
  lemma {:induction false} BatchContributes(numbering: RowNumbering, subs: seq<Submission>, j: nat)
    requires j < |subs|
    ensures TallyFrom(numbering, subs, 0, 0)
         == Combine(Combine(TallyFrom(numbering, subs[..j], 0, 0),
                            BatchTally(numbering, j, Sizes(subs[..j]), subs[j])),
                    TallyFrom(numbering, subs[j + 1..], j + 1, Sizes(subs[..j]) + subs[j].size))
  {
    var pre, post := subs[..j], subs[j + 1..];
    var s := Sizes(pre);
    var x := TallyFrom(numbering, pre, 0, 0);
    var y := BatchTally(numbering, j, s, subs[j]);
    var z := TallyFrom(numbering, post, j + 1, s + subs[j].size);
    assert subs == pre + ([subs[j]] + post);
    TallySplit(numbering, pre, [subs[j]] + post, 0, 0);
    assert TallyFrom(numbering, subs, 0, 0) == Combine(x, TallyFrom(numbering, [subs[j]] + post, j, s));
    TallySplit(numbering, [subs[j]], post, j, s);
    TallyOne(numbering, subs[j], j, s);
    assert Sizes([subs[j]]) == subs[j].size;
    assert TallyFrom(numbering, [subs[j]] + post, j, s) == Combine(y, z);
    CombineAssoc(x, y, z);
  }

  /** The records before batch `j` number `j * size`. */
  lemma {:induction false} SizesBefore<R>(data: seq<R>, size: nat, dest: Destination<R>, j: nat)
    requires size >= 1
    requires j < |Batches(data, size)|
    ensures Sizes(Submissions(Batches(data, size), 0, dest)[..j]) == Start(j, size)
  {
    var bs := Batches(data, size);
    assert Submissions(bs, 0, dest)[..j] == Submissions(bs[..j], 0, dest);
    SizesFlatten(bs[..j], 0, dest);
    BatchesFull(data, size);
    forall k | 0 <= k < |bs[..j]| ensures |bs[..j][k]| == size {
      assert bs[..j][k] == bs[k];
    }
    LenFlattenFull(bs[..j], size);
  }

  lemma {:induction false} LenFlattenFull<R>(bs: seq<seq<R>>, size: nat)
    requires forall k :: 0 <= k < |bs| ==> |bs[k]| == size
    ensures |Flatten(bs)| == |bs| * size
    decreases |bs|
  {
    if |bs| > 0 {
      assert |bs[0]| == size;
      LenFlattenFull(bs[1..], size);
      assert |bs| * size == size + (|bs| - 1) * size;
    }
  }

  /** A batch that raises anything but a bulk-write error counts all its
      records as errors and adds the single message `Batch <j + 1>: <msg>`,
      and the batches after it are still imported. */
  lemma {:induction false} BatchFailureCounted<R>(numbering: RowNumbering, data: seq<R>, size: nat, dest: Destination<R>, j: nat, msg: string)
    requires size >= 1
    requires j < |Batches(data, size)|
    requires dest(j, Batches(data, size)[j]) == BatchFailure(msg)
    ensures var subs := Submissions(Batches(data, size), 0, dest);
            var before := TallyFrom(numbering, subs[..j], 0, 0);
            var after := TallyFrom(numbering, subs[j + 1..], j + 1, Start(j, size) + |Batches(data, size)[j]|);
            ReportWith(numbering, data, size, dest)
            == ImportReport(|data|,
                            before.inserted + after.inserted,
                            before.failed + |Batches(data, size)[j]| + after.failed,
                            before.errors + ["Batch " + NatToString(j + 1) + ": " + msg] + after.errors)
  {
    ReportAround(numbering, data, size, dest, j);
  }

  /** The report field by field: the batches before `j`, batch `j`'s own
      totals, then the batches after it. */
  lemma {:induction false} ReportAround<R>(numbering: RowNumbering, data: seq<R>, size: nat, dest: Destination<R>, j: nat)
    requires size >= 1
    requires j < |Batches(data, size)|
    ensures var bs := Batches(data, size);
            var subs := Submissions(bs, 0, dest);
            var before := TallyFrom(numbering, subs[..j], 0, 0);
            var own := BatchTally(numbering, j, Start(j, size), Submission(|bs[j]|, dest(j, bs[j])));
            var after := TallyFrom(numbering, subs[j + 1..], j + 1, Start(j, size) + |bs[j]|);
            var report := ReportWith(numbering, data, size, dest);
            && report.insertedCount == before.inserted + own.inserted + after.inserted
            && report.errorCount == before.failed + own.failed + after.failed
            && report.errors == before.errors + own.errors + after.errors
  {
    var bs := Batches(data, size);
    var subs := Submissions(bs, 0, dest);
    BatchContributes(numbering, subs, j);
    SizesBefore(data, size, dest, j);
    assert subs[j] == Submission(|bs[j]|, dest(j, bs[j]));
  }

  /** A partially failed batch adds the reported inserted count, one error
      per rejected record and one `Row <number>: <errmsg>` message per
      rejected record in the reported order. */
  lemma {:induction false} PartialFailureCounted<R>(numbering: RowNumbering, data: seq<R>, size: nat, dest: Destination<R>, j: nat, n: nat, ws: seq<WriteError>)
    requires size >= 1
    requires j < |Batches(data, size)|
    requires dest(j, Batches(data, size)[j]) == PartialFailure(n, ws)
    ensures var subs := Submissions(Batches(data, size), 0, dest);
            var before := TallyFrom(numbering, subs[..j], 0, 0);
            var after := TallyFrom(numbering, subs[j + 1..], j + 1, Start(j, size) + |Batches(data, size)[j]|);
            var base := if numbering == InDataset then Start(j, size) else 0;
            var report := ReportWith(numbering, data, size, dest);
            && report.insertedCount == before.inserted + n + after.inserted
            && report.errorCount == before.failed + |ws| + after.failed
            && report.errors == before.errors + RowErrors(base, ws) + after.errors
  {
    ReportAround(numbering, data, size, dest, j);
  }

  /** A destination that rejects the first record of every batch. */
  function RejectFirst(k: nat, batch: seq<int>): BulkOutcome {
    if |batch| == 0 then AllInserted(0)
    else PartialFailure(|batch| - 1, [WriteError(0, "duplicate key")])
  }

  /** As written, the number in a row message is the driver's index inside
      the batch: with batches of one record each failing, both messages say
      `Row 0` although they are about different records. */
  lemma {:induction false} RowNumbersRepeat()
    ensures ReportWith(InBatch, [10, 20], 1, RejectFirst).errors == ["Row 0: duplicate key", "Row 0: duplicate key"]
  {
    var data := [10, 20];
    assert data[..1] == [10] && data[1..] == [20];
    assert Batches(data, 1) == [[10], [20]];
    var subs := Submissions(Batches(data, 1), 0, RejectFirst);
    var msg := "Row " + IntToString(0) + ": " + "duplicate key";
    assert IntToString(0) == "0";
    assert BatchTally(InBatch, 1, 1, subs[1]).errors == RowErrors(0, [WriteError(0, "duplicate key")]) == [msg];
    assert subs[1..][1..] == [];
    TallyFromCons(InBatch, subs[1..], 1, 1);
    TallyFromCons(InBatch, subs, 0, 0);
    assert TallyFrom(InBatch, subs[1..], 1, 1).errors == [msg] + [];
    assert TallyFrom(InBatch, subs, 0, 0).errors == [msg] + [msg];
    assert msg == "Row 0: duplicate key";
  }

  /** Numbered by place in the record list, the message about the `i`-th
      rejected record of batch `j` carries `j * size + index`, which is the
      position in `data` of the very record the driver rejected. */
  lemma {:induction false} RowNumberNamesRecord<R>(data: seq<R>, size: nat, dest: Destination<R>, j: nat, n: nat, ws: seq<WriteError>, i: nat)
    requires size >= 1
    requires j < |Batches(data, size)|
    requires dest(j, Batches(data, size)[j]) == PartialFailure(n, ws)
    requires i < |ws| && 0 <= ws[i].index < |Batches(data, size)[j]|
    ensures var before := TallyFrom(InDataset, Submissions(Batches(data, size), 0, dest)[..j], 0, 0);
            && |before.errors| + i < |ReportWith(InDataset, data, size, dest).errors|
            && ReportWith(InDataset, data, size, dest).errors[|before.errors| + i]
              == "Row " + IntToString(j * size + ws[i].index) + ": " + ws[i].errmsg
    ensures j * size + ws[i].index < |data|
    ensures data[j * size + ws[i].index] == Batches(data, size)[j][ws[i].index]
  {
    RowMessageAt(data, size, dest, j, n, ws, i);
    RecordInBatch(data, size, j, ws[i].index);
  }

  /** The messages of batch `j`'s rejected records sit, in order, right
      after those of the batches before it. */
  lemma {:induction false} RowMessageAt<R>(data: seq<R>, size: nat, dest: Destination<R>, j: nat, n: nat, ws: seq<WriteError>, i: nat)
    requires size >= 1
    requires j < |Batches(data, size)|
    requires dest(j, Batches(data, size)[j]) == PartialFailure(n, ws)
    requires i < |ws|
    ensures var before := TallyFrom(InDataset, Submissions(Batches(data, size), 0, dest)[..j], 0, 0);
            && |before.errors| + i < |ReportWith(InDataset, data, size, dest).errors|
            && ReportWith(InDataset, data, size, dest).errors[|before.errors| + i] == RowError(Start(j, size), ws[i])
  {
    PartialFailureCounted(InDataset, data, size, dest, j, n, ws);
    var subs := Submissions(Batches(data, size), 0, dest);
    var before := TallyFrom(InDataset, subs[..j], 0, 0);
    var after := TallyFrom(InDataset, subs[j + 1..], j + 1, Start(j, size) + |Batches(data, size)[j]|);
    IndexMiddle(before.errors, RowErrors(Start(j, size), ws), after.errors, i);
  }

  lemma {:induction false} IndexMiddle<T>(x: seq<T>, y: seq<T>, z: seq<T>, i: nat)
    requires i < |y|
    ensures |x| + i < |x + y + z| && (x + y + z)[|x| + i] == y[i]
  {
  }

  /** Record `p` of batch `j` is record `j * size + p` of the list. */
  lemma {:induction false} RecordInBatch<R>(data: seq<R>, size: nat, j: nat, p: nat)
    requires size >= 1
    requires j < |Batches(data, size)| && p < |Batches(data, size)[j]|
    ensures j * size + p < |data|
    ensures data[j * size + p] == Batches(data, size)[j][p]
  {
    BatchAt(data, size, j);
    var lo := j * size;
    assert Batches(data, size)[j] == data[lo..Min(lo + size, |data|)];
  }

  /** A destination that accepts everything yields a clean report. */
  lemma {:induction false} CleanTally(numbering: RowNumbering, subs: seq<Submission>, first: nat, offset: nat)
    requires forall k :: 0 <= k < |subs| ==> subs[k].outcome == AllInserted(subs[k].size)
    ensures TallyFrom(numbering, subs, first, offset) == Tally(Sizes(subs), 0, [])
    decreases |subs|
  {
    if |subs| > 0 {
      assert subs[0].outcome == AllInserted(subs[0].size);
      TallyFromCons(numbering, subs, first, offset);
      CleanTally(numbering, subs[1..], first + 1, offset + subs[0].size);
    }
  }

  lemma {:induction false} CleanImport<R>(data: seq<R>, size: nat, dest: Destination<R>)
    requires size >= 1
    requires forall k :: 0 <= k < |Batches(data, size)| ==> dest(k, Batches(data, size)[k]) == AllInserted(|Batches(data, size)[k]|)
    ensures ReportWith(InBatch, data, size, dest) == ImportReport(|data|, |data|, 0, [])
  {
    var bs := Batches(data, size);
    var subs := Submissions(bs, 0, dest);
    forall k | 0 <= k < |subs| ensures subs[k].outcome == AllInserted(subs[k].size) {
      assert subs[k] == Submission(|bs[k]|, dest(0 + k, bs[k]));
    }
    CleanTally(InBatch, subs, 0, 0);
    SizesFlatten(bs, 0, dest);
    BatchesFlatten(data, size);
  }
}
