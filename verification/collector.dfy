/** `DataCollector`: reads lines of input, keeps the ones that pass the
    check for the collector's data type, and numbers them. */
module Collector {
  import opened Text
  import opened Numerals

  /** One accepted line; the time it was taken is not modelled. */
  datatype Entry = Entry(id: nat, value: string, dataType: string)

  /** The collector's state; `totalEntries` is `metadata["total_entries"]`. */
  datatype DataCollector = DataCollector(dataType: string, dataList: seq<Entry>, totalEntries: nat)

  function NewCollector(dataType: string): (c: DataCollector)
    ensures c.dataType == dataType && c.dataList == [] && c.totalEntries == 0
  {
    DataCollector(dataType, [], 0)
  }

  /** `DataCollector.validate_input`. */
  function ValidateInput(dataType: string, input: string): (ok: bool)
    ensures IsBlank(input) ==> !ok
    ensures dataType == "email" ==> (ok <==> !IsBlank(input) && '@' in input && '.' in input)
    ensures dataType == "numeric" ==> (ok <==> PyFloatAccepts(input))
    ensures dataType != "email" && dataType != "numeric" ==> (ok <==> !IsBlank(input))
  {
    if IsBlank(input) then
      assert Strip(input) == [];
      assert !FloatLiteral([]) by {
        assert !Mantissa([]);
        assert !FloatNumber([]);
      }
      false
    else if dataType == "email" then '@' in input && '.' in input
    else if dataType == "numeric" then PyFloatAccepts(input)
    else true
  }

  /** A stripped line that is one of the loop's commands. */
  predicate IsCommand(t: string) {
    Lower(t) == "done" || Lower(t) == "help" || Lower(t) == "list"
  }

  /** What one line does in the loop: end it, change nothing (`help`,
      `list`, a rejected line), or add its stripped text as an entry. */
  datatype LineKind = Stop | Skip | Keep(value: string)

  /** The kind of a stripped line `t`, given whether it passed the check. */
  function KindOf(t: string, accepted: bool): (k: LineKind)
    ensures k == Stop <==> Lower(t) == "done"
    ensures k.Keep? <==> !IsCommand(t) && accepted
    ensures k.Keep? ==> k.value == t
  {
    if Lower(t) == "done" then Stop
    else if Lower(t) == "help" || Lower(t) == "list" || !accepted then Skip
    else Keep(t)
  }

  function Kind(dataType: string, line: string): (k: LineKind)
    ensures k == Stop <==> Lower(Strip(line)) == "done"
  {
    KindOf(Strip(line), ValidateInput(dataType, Strip(line)))
  }

  /** A line is kept exactly when, stripped, it is no command and passes
      the check; what is kept is the stripped line, which stripping again
      leaves alone. */
  lemma {:induction false} KindKeep(dataType: string, line: string)
    ensures Kind(dataType, line).Keep? <==> !IsCommand(Strip(line)) && ValidateInput(dataType, Strip(line))
    ensures Kind(dataType, line).Keep? ==> Kind(dataType, line).value == Strip(line)
    ensures Kind(dataType, line).Keep? ==> Strip(Kind(dataType, line).value) == Kind(dataType, line).value
  {
    StripIdempotent(line);
  }

  /** A way of classifying one line for a data type; the loop uses `Kind`. */
  type Classifier = (string, string) -> LineKind

  /** The entries the loop appends for `lines`, each classified by `kind`,
      when `count` entries were already taken in this call: it stops at the
      first `Stop` or when the input runs out, passes over `Skip`, and
      appends each `Keep` as the next numbered entry. With `kind := Kind`,
      `done` stops, `help` and `list` are skipped, and every other line is
      kept, stripped, if it passes the check. */
  function Entries(kind: Classifier, dataType: string, lines: seq<string>, count: nat): (es: seq<Entry>)
    ensures |es| <= |lines|
    decreases |lines|
  {
    if |lines| == 0 then []
    else
      match kind(dataType, lines[0])
      case Stop => []
      case Skip => Entries(kind, dataType, lines[1..], count)
      case Keep(v) => [Entry(count + 1, v, dataType)] + Entries(kind, dataType, lines[1..], count + 1)
  }

  /** The entries are numbered on from `count` without gaps and carry the
      data type. */
  lemma {:induction false} EntriesIds(kind: Classifier, dataType: string, lines: seq<string>, count: nat)
    ensures forall k :: 0 <= k < |Entries(kind, dataType, lines, count)| ==>
              && Entries(kind, dataType, lines, count)[k].id == count + k + 1
              && Entries(kind, dataType, lines, count)[k].dataType == dataType
    decreases |lines|
  {
    if |lines| > 0 {
      match kind(dataType, lines[0]) {
        case Stop =>
        case Skip => EntriesIds(kind, dataType, lines[1..], count);
        case Keep(_) => EntriesIds(kind, dataType, lines[1..], count + 1);
      }
    }
  }

  /** Every entry comes from a line that `kind` keeps with the entry's
      value; `j` is that line. */
  lemma {:induction false} EntryFromLine(kind: Classifier, dataType: string, lines: seq<string>, count: nat, k: nat)
    returns (j: nat)
    requires k < |Entries(kind, dataType, lines, count)|
    ensures j < |lines| && kind(dataType, lines[j]) == Keep(Entries(kind, dataType, lines, count)[k].value)
    decreases |lines|
  {
    match kind(dataType, lines[0]) {
      case Skip =>
        j := EntryFromLine(kind, dataType, lines[1..], count, k);
        assert lines[1..][j] == lines[j + 1];
        j := j + 1;
      case Keep(v) =>
        if k == 0 {
          j := 0;
        } else {
          j := EntryFromLine(kind, dataType, lines[1..], count + 1, k - 1);
          assert lines[1..][j] == lines[j + 1];
          j := j + 1;
        }
    }
  }

  /** Every entry holds a stripped line that passed the check and is not
      a command. */
  lemma {:induction false} EntriesAccepted(dataType: string, lines: seq<string>, count: nat, k: nat)
    requires k < |Entries(Kind, dataType, lines, count)|
    ensures var e := Entries(Kind, dataType, lines, count)[k];
            ValidateInput(dataType, e.value) && Strip(e.value) == e.value && !IsCommand(e.value)
  {
    var j := EntryFromLine(Kind, dataType, lines, count, k);
    KindKeep(dataType, lines[j]);
  }

  /** One turn of the loop keeps "what is kept so far, followed by the
      entries still to come, is the final list". */
  lemma {:induction false} EntriesStep(kind: Classifier, dataType: string, lines: seq<string>, i: nat, count: nat, kept: seq<Entry>, target: seq<Entry>)
    requires i < |lines|
    requires kept + Entries(kind, dataType, lines[i..], count) == target
    ensures kind(dataType, lines[i]) == Stop ==> kept == target
    ensures kind(dataType, lines[i]) == Skip ==> kept + Entries(kind, dataType, lines[i + 1..], count) == target
    ensures kind(dataType, lines[i]).Keep? ==>
              (kept + [Entry(count + 1, kind(dataType, lines[i]).value, dataType)])
              + Entries(kind, dataType, lines[i + 1..], count + 1) == target
  {
    assert lines[i..][0] == lines[i];
    assert lines[i..][1..] == lines[i + 1..];
    match kind(dataType, lines[i]) {
      case Stop =>
        assert kept + [] == kept;
      case Skip =>
      case Keep(v) =>
        var e := [Entry(count + 1, v, dataType)];
        var rest := Entries(kind, dataType, lines[i + 1..], count + 1);
        assert kept + (e + rest) == (kept + e) + rest;
    }
  }

  /** The loop of `DataCollector.get_user_data` for a line classification
      `kind`: each line in turn ends the loop, is passed over, or is
      appended as the next numbered entry; the count of entries this call
      added becomes the recorded total. */
  method CollectLines(kind: Classifier, c: DataCollector, lines: seq<string>) returns (r: DataCollector, data: seq<Entry>)
    ensures r.dataType == c.dataType
    ensures r.dataList == c.dataList + Entries(kind, c.dataType, lines, 0)
    ensures r.totalEntries == |Entries(kind, c.dataType, lines, 0)|
    ensures data == r.dataList
  {
    ghost var target := c.dataList + Entries(kind, c.dataType, lines, 0);
    var dataList := c.dataList;
    var entryCount := 0;
    var i := 0;
    assert lines[0..] == lines;
    while i < |lines|
      invariant i <= |lines|
      invariant |dataList| == |c.dataList| + entryCount
      invariant dataList + Entries(kind, c.dataType, lines[i..], entryCount) == target
      decreases |lines| - i
    {
      var k := kind(c.dataType, lines[i]);
      EntriesStep(kind, c.dataType, lines, i, entryCount, dataList, target);
      match k {
        case Stop =>
          break;
        case Skip =>
        case Keep(input) =>
          dataList := dataList + [Entry(entryCount + 1, input, c.dataType)];
          entryCount := entryCount + 1;
      }
      i := i + 1;
    }
    if i == |lines| {
      assert lines[i..] == [];
      assert dataList + [] == dataList;
    }
    r := DataCollector(c.dataType, dataList, entryCount);
    data := dataList;
  }

  /** `DataCollector.get_user_data`: appends the accepted lines to the list
      as numbered entries and records how many this call added. */
  method GetUserData(c: DataCollector, lines: seq<string>) returns (r: DataCollector, data: seq<Entry>)
    ensures r.dataType == c.dataType
    ensures r.dataList == c.dataList + Entries(Kind, c.dataType, lines, 0)
    ensures r.totalEntries == |Entries(Kind, c.dataType, lines, 0)|
    ensures data == r.dataList
    ensures c.dataList == [] ==> r.totalEntries == |r.dataList|
    ensures c.dataList == [] ==> forall k :: 0 <= k < |r.dataList| ==> r.dataList[k].id == k + 1
  {
    r, data := CollectLines(Kind, c, lines);
    if c.dataList == [] {
      FreshCollectorTotals(c.dataType, lines);
    }
  }

  /** On a fresh collector the recorded total is the length of the list,
      and the entries are numbered 1 to that total. */
  lemma {:induction false} FreshCollectorTotals(dataType: string, lines: seq<string>)
    ensures var es := Entries(Kind, dataType, lines, 0);
            NewCollector(dataType).dataList + es == es
            && forall k :: 0 <= k < |es| ==> es[k].id == k + 1
  {
    var es := Entries(Kind, dataType, lines, 0);
    assert [] + es == es;
    EntriesIds(Kind, dataType, lines, 0);
  }

  /** For any classification, nothing after a line classified `Stop` is
      read. */
  lemma {:induction false} EntriesStopAt(kind: Classifier, dataType: string, before: seq<string>, done: string, after: seq<string>, count: nat)
    requires kind(dataType, done) == Stop
    ensures Entries(kind, dataType, before + [done] + after, count) == Entries(kind, dataType, before + [done], count)
    decreases |before|
  {
    var long := before + [done] + after;
    var short := before + [done];
    if |before| == 0 {
      assert long[0] == done && short[0] == done;
    } else {
      assert long[0] == before[0] && short[0] == before[0];
      assert long[1..] == before[1..] + [done] + after;
      assert short[1..] == before[1..] + [done];
      match kind(dataType, before[0]) {
        case Stop =>
        case Skip => EntriesStopAt(kind, dataType, before[1..], done, after, count);
        case Keep(_) => EntriesStopAt(kind, dataType, before[1..], done, after, count + 1);
      }
    }
  }

  /** Nothing after `done` is read. */
  lemma {:induction false} EntriesStopAtDone(dataType: string, before: seq<string>, done: string, after: seq<string>, count: nat)
    requires Lower(Strip(done)) == "done"
    ensures Entries(Kind, dataType, before + [done] + after, count) == Entries(Kind, dataType, before + [done], count)
  {
    EntriesStopAt(Kind, dataType, before, done, after, count);
  }

  /** No line of `a` stops the loop under `kind`. */
  predicate Continues(kind: Classifier, dataType: string, a: seq<string>) {
    forall i :: 0 <= i < |a| ==> kind(dataType, a[i]) != Stop
  }

  /** For any classification under which no line of `a` stops the loop
      (with `Kind`: `a` holds no `done`, by `NoStop`), the entries of
      `a + b` are those of `a` followed by those of `b`, numbered on from
      there: commands and rejected lines take no number. */
  lemma {:induction false} EntriesAppend(kind: Classifier, dataType: string, a: seq<string>, b: seq<string>, count: nat)
    requires Continues(kind, dataType, a)
    ensures Entries(kind, dataType, a + b, count)
         == Entries(kind, dataType, a, count) + Entries(kind, dataType, b, count + |Entries(kind, dataType, a, count)|)
    decreases |a|
  {
    if |a| == 0 {
      assert a + b == b;
    } else {
      assert (a + b)[0] == a[0];
      assert (a + b)[1..] == a[1..] + b;
      assert Continues(kind, dataType, a[1..]) by {
        assert forall i :: 0 <= i < |a[1..]| ==> a[1..][i] == a[i + 1];
      }
      var k := kind(dataType, a[0]);
      assert k != Stop;
      if k == Skip {
        EntriesAppend(kind, dataType, a[1..], b, count);
      } else {
        EntriesAppend(kind, dataType, a[1..], b, count + 1);
        var e := [Entry(count + 1, k.value, dataType)];
        var ea := Entries(kind, dataType, a[1..], count + 1);
        var eb := Entries(kind, dataType, b, count + 1 + |ea|);
        assert e + (ea + eb) == (e + ea) + eb;
      }
    }
  }

  /** A line that is not `done` does not stop the loop. */
  predicate NotDone(line: string) {
    Lower(Strip(line)) != "done"
  }

  /** No line of `a` is `done`. */
  predicate NoDone(a: seq<string>) {
    forall i :: 0 <= i < |a| ==> NotDone(a[i])
  }

  /** A run of lines without `done` never stops the loop. */
  lemma {:induction false} NoStop(dataType: string, a: seq<string>)
    requires NoDone(a)
    ensures Continues(Kind, dataType, a)
  {
    forall i | 0 <= i < |a| ensures Kind(dataType, a[i]) != Stop {
      assert NotDone(a[i]);
    }
  }
}
