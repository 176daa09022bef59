/** `DataInputHandler`: turns lines of the form `key1=value1,key2=value2`
    into records, with commands to finish, show help, list and clear. */
module InputHandler {
  import opened Results
  import opened Text
  import opened Numerals
  import opened Dicts
  import opened Values
  import Exporter

  /** A piece between commas, split at its first `=` and stripped on both
      sides; `None` when it has no `=` or either side is blank. */
  function PairOf(piece: string): (r: Option<(string, string)>)
    ensures r.Some? ==> '=' in piece
    ensures r.Some? ==> r.value.0 != [] && r.value.1 != []
    ensures r.Some? ==> r.value.0 == Strip(piece[..IndexOf(piece, '=')])
                        && r.value.1 == Strip(piece[IndexOf(piece, '=') + 1..])
    ensures '=' in piece && !IsBlank(piece[..IndexOf(piece, '=')]) && !IsBlank(piece[IndexOf(piece, '=') + 1..]) ==> r.Some?
  {
    if '=' !in piece then None
    else
      var i := IndexOf(piece, '=');
      var key := Strip(piece[..i]);
      var value := Strip(piece[i + 1..]);
      if key != [] && value != [] then Some((key, value)) else None
  }

  /** The split is at the first `=`: a value may itself hold `=`. */
  lemma {:induction false} PairOfFirstEquals(key: string, value: string)
    requires key != [] && value != []
    requires '=' !in key
    requires !IsSpace(key[0]) && !IsSpace(key[|key| - 1])
    requires !IsSpace(value[0]) && !IsSpace(value[|value| - 1])
    ensures PairOf(key + "=" + value) == Some((key, value))
  {
    var piece := key + "=" + value;
    assert piece[|key|] == '=';
    var i := IndexOf(piece, '=');
    assert piece[..|key|] == key;
    assert piece[..i] == key;
    assert piece[i + 1..] == value;
    StripFixed(key);
    StripFixed(value);
  }

  /** The pairs that survive, in input order. */
  function Pairs(pieces: seq<string>): (ps: seq<(string, string)>)
    ensures |ps| <= |pieces|
    ensures forall p :: p in ps ==> p.0 != [] && p.1 != []
  {
    if |pieces| == 0 then []
    else
      match PairOf(pieces[0])
      case Some(p) => [p] + Pairs(pieces[1..])
      case None => Pairs(pieces[1..])
  }

  /** A single piece contributes its pair, if it has one. */
  lemma {:induction false} PairsOne(piece: string)
    ensures Pairs([piece]) == match PairOf(piece) case Some(p) => [p] case None => []
  {
    assert [piece][1..] == [];
  }

  /** Pieces are read in order: those of a first block of pieces come
      before those of the rest. */
  lemma {:induction false} PairsAppend(a: seq<string>, b: seq<string>)
    ensures Pairs(a + b) == Pairs(a) + Pairs(b)
    decreases |a|
  {
    if |a| == 0 {
      assert a + b == b;
    } else {
      assert (a + b)[0] == a[0];
      assert (a + b)[1..] == a[1..] + b;
      PairsAppend(a[1..], b);
      match PairOf(a[0]) {
        case Some(p) => assert [p] + (Pairs(a[1..]) + Pairs(b)) == ([p] + Pairs(a[1..])) + Pairs(b);
        case None =>
      }
    }
  }

  /** `result[key] = convert(value)` for each pair in turn. */
  function Assign(d: Record, ps: seq<(string, string)>): (r: Record)
    ensures |ps| > 0 ==> |r| > 0
    ensures DistinctKeys(d) ==> DistinctKeys(r)
  {
    if |ps| == 0 then d
    else
      var last := ps[|ps| - 1];
      var init := Assign(d, ps[..|ps| - 1]);
      assert DistinctKeys(d) ==> DistinctKeys(Put(init, last.0, Convert(last.1))) by {
        if DistinctKeys(d) {
          PutDistinct(init, last.0, Convert(last.1));
        }
      }
      Put(init, last.0, Convert(last.1))
  }

  /** The value of the last pair with key `k`. */
  function LastValue(ps: seq<(string, string)>, k: string): (r: Option<string>)
    ensures r.None? <==> forall i :: 0 <= i < |ps| ==> ps[i].0 != k
    ensures r.Some? ==> exists i :: 0 <= i < |ps| && ps[i] == (k, r.value)
                                    && forall j :: i < j < |ps| ==> ps[j].0 != k
    decreases |ps|
  {
    if |ps| == 0 then None
    else if ps[|ps| - 1].0 == k then Some(ps[|ps| - 1].1)
    else
      var r := LastValue(ps[..|ps| - 1], k);
      assert r.Some? ==> exists i :: 0 <= i < |ps| && ps[i] == (k, r.value)
                                     && forall j :: i < j < |ps| ==> ps[j].0 != k by {
        if r.Some? {
          var init := ps[..|ps| - 1];
          var i :| 0 <= i < |init| && init[i] == (k, r.value) && forall j :: i < j < |init| ==> init[j].0 != k;
          assert ps[i] == init[i];
          forall j | i < j < |ps| ensures ps[j].0 != k {
            if j < |init| { assert ps[j] == init[j]; }
          }
        }
      }
      r
  }

  /** A later pair for the same key overwrites an earlier one. */
  lemma {:induction false} AssignGet(d: Record, ps: seq<(string, string)>, k: string)
    ensures Get(Assign(d, ps), k) == match LastValue(ps, k)
                                     case Some(v) => Some(Convert(v))
                                     case None => Get(d, k)
    decreases |ps|
  {
    if |ps| > 0 {
      var last := ps[|ps| - 1];
      AssignGet(d, ps[..|ps| - 1], k);
      GetPut(Assign(d, ps[..|ps| - 1]), last.0, Convert(last.1), k);
    }
  }

  /** `DataInputHandler._parse_input`. */
  function ParseInput(s: string): (r: Option<Record>)
    ensures r.None? <==> Pairs(Split(s, ',')) == []
    ensures r.Some? ==> |r.value| > 0 && DistinctKeys(r.value)
  {
    var d := Assign([], Pairs(Split(s, ',')));
    if |d| == 0 then None else Some(d)
  }

  /** A key is in the parsed record exactly when some surviving pair has it,
      and it holds the converted value of the last such pair. */
  lemma {:induction false} ParseInputLookup(s: string, k: string)
    ensures ParseInput(s).Some? ==>
              Get(ParseInput(s).value, k) == match LastValue(Pairs(Split(s, ',')), k)
                                             case Some(v) => Some(Convert(v))
                                             case None => None
  {
    AssignGet([], Pairs(Split(s, ',')), k);
  }

  predicate IsBoolWord(value: string) {
    Lower(value) == "true" || Lower(value) == "false"
  }

  /** `DataInputHandler._convert_value`: a case-insensitive `true`/`false`
      first, then an integer, then a float, else the text itself. */
  function Convert(value: string): (v: Value)
    ensures IsBoolWord(value) ==> v == VBool(Lower(value) == "true")
    ensures v.VBool? ==> IsBoolWord(value)
    ensures v.VInt? <==> !IsBoolWord(value) && PyInt(value).Some?
    ensures v.VInt? ==> PyInt(value) == Some(v.i)
    ensures v.VFloat? <==> !IsBoolWord(value) && PyInt(value).None? && PyFloatAccepts(value)
    ensures v.VFloat? ==> v.literal == value
    ensures v.VStr? <==> !IsBoolWord(value) && !PyFloatAccepts(value)
    ensures v.VStr? ==> v.s == value
    ensures !v.VNone?
  {
    if IsBoolWord(value) then VBool(Lower(value) == "true")
    else
      match PyInt(value)
      case Some(n) =>
        IntLiteralIsFloat(Strip(value));
        VInt(n)
      case None => if PyFloatAccepts(value) then VFloat(value) else VStr(value)
  }

  /** `str(n)` reads back as the integer `n`. */
  lemma {:induction false} ConvertIntRoundTrip(n: int)
    ensures Convert(IntToString(n)) == VInt(n)
  {
    IntToStringRoundTrip(n);
    DigitEndNotBool(IntToString(n));
  }

  /** Text ending in a digit is neither `true` nor `false` in any case. */
  lemma {:induction false} DigitEndNotBool(s: string)
    requires |s| >= 1 && IsDigit(s[|s| - 1])
    ensures !IsBoolWord(s)
  {
    var l := Lower(s);
    assert l[|l| - 1] == s[|s| - 1];
    assert "true"[3] == 'e' && "false"[4] == 'e';
  }

  /** `True` and `False` read back as the booleans they print. */
  lemma {:induction false} ConvertBoolRoundTrip(b: bool)
    ensures Convert(PyStr(VBool(b))) == VBool(b)
  {
    assert Lower("True") == "true";
    assert Lower("False") == "false";
  }

  /** What a line of input means once stripped and lowered. */
  datatype Command = Done | Help | List | Clear | Blank | DataLine(text: string)

  function Classify(line: string): (c: Command)
    ensures c.DataLine? ==> c.text == Strip(line) && c.text != []
    ensures c == Blank <==> IsBlank(line)
    ensures c == Done <==> Lower(Strip(line)) == "done"
    ensures c == Clear <==> Lower(Strip(line)) == "clear"
    ensures c == Help <==> Lower(Strip(line)) == "help"
    ensures c == List <==> Lower(Strip(line)) == "list"
    ensures !IsBlank(line) && Lower(Strip(line)) !in ["done", "help", "list", "clear"] ==> c == DataLine(Strip(line))
  {
    var t := Strip(line);
    var l := Lower(t);
    if l == "done" then Done
    else if l == "help" then Help
    else if l == "list" then List
    else if l == "clear" then Clear
    else if t == [] then Blank
    else DataLine(t)
  }

  /** The record a line adds, if it is a data line that parses. */
  function LineRecords(line: string): (rs: seq<Record>)
    ensures |rs| <= 1
    ensures |rs| == 1 <==> Classify(line).DataLine? && ParseInput(Classify(line).text).Some?
    ensures |rs| == 1 ==> rs[0] == ParseInput(Classify(line).text).value
  {
    match Classify(line)
    case DataLine(t) => (match ParseInput(t) case Some(r) => [r] case None => [])
    case _ => []
  }

  /** What one line does to the list being gathered: end the loop, empty
      the list, or append the records it parses to (none for `help`,
      `list`, blank and unparsable lines). */
  datatype Effect = Finish | Reset | Add(records: seq<Record>)

  function EffectOf(line: string): Effect {
    match Classify(line)
    case Done => Finish
    case Clear => Reset
    case _ => Add(LineRecords(line))
  }

  /** The effect of every line, in order, for a reading `f` of lines. */
  function EffectsBy(f: string -> Effect, lines: seq<string>): (es: seq<Effect>)
    ensures |es| == |lines|
    decreases |lines|
  {
    if |lines| == 0 then [] else [f(lines[0])] + EffectsBy(f, lines[1..])
  }

  lemma {:induction false} EffectsByAppend(f: string -> Effect, a: seq<string>, b: seq<string>)
    ensures EffectsBy(f, a + b) == EffectsBy(f, a) + EffectsBy(f, b)
    decreases |a|
  {
    if |a| == 0 {
      assert a + b == b;
    } else {
      assert (a + b)[0] == a[0];
      assert (a + b)[1..] == a[1..] + b;
      EffectsByAppend(f, a[1..], b);
    }
  }

  lemma {:induction false} EffectsByAt(f: string -> Effect, lines: seq<string>, i: nat)
    requires i < |lines|
    ensures EffectsBy(f, lines)[i] == f(lines[i])
    decreases |lines|
  {
    if i > 0 {
      EffectsByAt(f, lines[1..], i - 1);
    }
  }

  /** The loop run over a sequence of effects from the list `data`. */
  function Run(data: seq<Record>, es: seq<Effect>): seq<Record>
    decreases |es|
  {
    if |es| == 0 then data
    else
      match es[0]
      case Finish => data
      case Reset => Run([], es[1..])
      case Add(rs) => Run(data + rs, es[1..])
  }

  /** The loop of `get_structured_data` from the records gathered so far:
      it ends at `done` or when the input runs out; `clear` empties the
      list, a data line that parses is appended, and `help`, `list`, blank
      lines and unparsable lines change nothing. */
  function Collect(data: seq<Record>, lines: seq<string>): seq<Record> {
    Run(data, EffectsBy(EffectOf, lines))
  }

  /** `DataInputHandler.get_structured_data`. */
  function GetStructuredData(lines: seq<string>): (data: seq<Record>)
    ensures |data| <= |lines|
    ensures forall i :: 0 <= i < |data| ==> |data[i]| > 0 && DistinctKeys(data[i])
  {
    CollectBounds([], lines);
    Collect([], lines)
  }

  predicate GoodRecords(data: seq<Record>) {
    forall i :: 0 <= i < |data| ==> |data[i]| > 0 && DistinctKeys(data[i])
  }

  /** Every `Add` brings at most one record, and a good one. */
  predicate SmallAdds(es: seq<Effect>) {
    forall i :: 0 <= i < |es| ==> es[i].Add? ==> |es[i].records| <= 1 && GoodRecords(es[i].records)
  }

  lemma {:induction false} RunBounds(data: seq<Record>, es: seq<Effect>)
    requires SmallAdds(es)
    ensures |Run(data, es)| <= |data| + |es|
    ensures GoodRecords(data) ==> GoodRecords(Run(data, es))
    decreases |es|
  {
    if |es| > 0 {
      assert SmallAdds(es[1..]) by {
        assert forall i :: 0 <= i < |es| - 1 ==> es[1..][i] == es[i + 1];
      }
      match es[0] {
        case Finish =>
        case Reset => RunBounds([], es[1..]);
        case Add(rs) =>
          assert es[0].Add?;
          RunBounds(data + rs, es[1..]);
      }
    }
  }

  lemma {:induction false} EffectSmall(line: string)
    ensures EffectOf(line).Add? ==> |EffectOf(line).records| <= 1 && GoodRecords(EffectOf(line).records)
  {
    if EffectOf(line).Add? {
      assert EffectOf(line).records == LineRecords(line);
      LineRecordsGood(line);
    }
  }

  /** A line parses to at most one record, which is non-empty and has
      distinct keys. */
  lemma {:induction false} LineRecordsGood(line: string)
    ensures |LineRecords(line)| <= 1 && GoodRecords(LineRecords(line))
  {
    match Classify(line) {
      case DataLine(t) =>
        match ParseInput(t) {
          case Some(r) =>
            assert LineRecords(line) == [r];
          case None =>
        }
      case _ =>
    }
  }

  lemma {:induction false} LineEffectsSmall(lines: seq<string>)
    ensures SmallAdds(EffectsBy(EffectOf, lines))
  {
    var es := EffectsBy(EffectOf, lines);
    forall i | 0 <= i < |es| && es[i].Add?
      ensures |es[i].records| <= 1 && GoodRecords(es[i].records)
    {
      EffectsByAt(EffectOf, lines, i);
      EffectSmall(lines[i]);
    }
  }

  /** At most one record per line, and every record non-empty with distinct
      keys when those gathered before were. */
  lemma {:induction false} CollectBounds(data: seq<Record>, lines: seq<string>)
    ensures |Collect(data, lines)| <= |data| + |lines|
    ensures GoodRecords(data) ==> GoodRecords(Collect(data, lines))
  {
    LineEffectsSmall(lines);
    RunBounds(data, EffectsBy(EffectOf, lines));
  }

  /** Nothing after a `Finish` counts. */
  lemma {:induction false} RunStops(data: seq<Record>, before: seq<Effect>, after: seq<Effect>)
    ensures Run(data, before + [Finish] + after) == Run(data, before + [Finish])
    decreases |before|
  {
    var long := before + [Finish] + after;
    var short := before + [Finish];
    if |before| == 0 {
      assert long[0] == Finish && short[0] == Finish;
    } else {
      assert long[0] == before[0] && short[0] == before[0];
      assert long[1..] == before[1..] + [Finish] + after;
      assert short[1..] == before[1..] + [Finish];
      match before[0] {
        case Finish =>
        case Reset => RunStops([], before[1..], after);
        case Add(rs) => RunStops(data + rs, before[1..], after);
      }
    }
  }

  /** Nothing after `done` is read. */
  lemma {:induction false} DoneStops(data: seq<Record>, before: seq<string>, done: string, after: seq<string>)
    requires Classify(done) == Done
    ensures Collect(data, before + [done] + after) == Collect(data, before + [done])
    ensures Collect(data, [done] + after) == data
  {
    assert ([done] + after)[0] == done;
    var eb := EffectsBy(EffectOf, before);
    var ea := EffectsBy(EffectOf, after);
    assert EffectsBy(EffectOf, [done]) == [Finish];
    assert EffectsBy(EffectOf, before + [done]) == eb + [Finish] by {
      EffectsByAppend(EffectOf, before, [done]);
    }
    assert EffectsBy(EffectOf, before + [done] + after) == eb + [Finish] + ea by {
      EffectsByAppend(EffectOf, before + [done], after);
    }
    RunStops(data, eb, ea);
  }

  /** The records of the `Add` effects, in order. */
  function Added(es: seq<Effect>): seq<Record>
    decreases |es|
  {
    if |es| == 0 then []
    else (match es[0] case Add(rs) => rs case _ => []) + Added(es[1..])
  }

  /** Only `Add` effects: the loop appends what they bring, in order. */
  lemma {:induction false} RunAppends(data: seq<Record>, es: seq<Effect>)
    requires forall i :: 0 <= i < |es| ==> es[i].Add?
    ensures Run(data, es) == data + Added(es)
    decreases |es|
  {
    if |es| == 0 {
      assert data + [] == data;
    } else {
      var rs := es[0].records;
      assert forall i :: 0 <= i < |es| - 1 ==> es[1..][i] == es[i + 1];
      RunAppends(data + rs, es[1..]);
      assert data + rs + Added(es[1..]) == data + (rs + Added(es[1..]));
    }
  }

  /** The records that the data lines among `lines` parse to, in order. */
  function Parsed(lines: seq<string>): seq<Record>
    decreases |lines|
  {
    if |lines| == 0 then [] else LineRecords(lines[0]) + Parsed(lines[1..])
  }

  /** A line that neither ends the loop nor clears the list. */
  predicate Plain(line: string) {
    Classify(line) != Done && Classify(line) != Clear
  }

  lemma {:induction false} PlainAdds(line: string)
    requires Plain(line)
    ensures EffectOf(line) == Add(LineRecords(line))
  {
  }

  /** On plain lines the effects bring exactly the parsed records. */
  lemma {:induction false} AddedParsed(lines: seq<string>)
    requires forall i :: 0 <= i < |lines| ==> Plain(lines[i])
    ensures Added(EffectsBy(EffectOf, lines)) == Parsed(lines)
    decreases |lines|
  {
    if |lines| > 0 {
      var es := EffectsBy(EffectOf, lines);
      assert Plain(lines[0]);
      assert es[0] == Add(LineRecords(lines[0]));
      assert es[1..] == EffectsBy(EffectOf, lines[1..]);
      assert forall i :: 0 <= i < |lines| - 1 ==> lines[1..][i] == lines[i + 1];
      AddedParsed(lines[1..]);
    }
  }

  /** Without `done` or `clear`, the loop appends exactly the records the
      data lines parse to, in order. */
  lemma {:induction false} CollectAppends(data: seq<Record>, lines: seq<string>)
    requires forall i :: 0 <= i < |lines| ==> Plain(lines[i])
    ensures Collect(data, lines) == data + Parsed(lines)
  {
    var es := EffectsBy(EffectOf, lines);
    forall i | 0 <= i < |es| ensures es[i].Add? {
      EffectsByAt(EffectOf, lines, i);
      PlainAdds(lines[i]);
    }
    RunAppends(data, es);
    AddedParsed(lines);
  }

  /** `clear` forgets everything gathered before it. */
  lemma {:induction false} ClearForgets(data: seq<Record>, other: seq<Record>, clear: string, lines: seq<string>)
    requires Classify(clear) == Clear
    ensures Collect(data, [clear] + lines) == Collect(other, [clear] + lines)
    ensures Collect(data, [clear] + lines) == Collect([], lines)
  {
    assert ([clear] + lines)[0] == clear;
    assert ([clear] + lines)[1..] == lines;
  }

  /** `help`, `list` and a blank line leave the gathered records as they
      are and the loop goes on with the next line. */
  lemma {:induction false} QuietLineKeepsData(data: seq<Record>, line: string, lines: seq<string>)
    requires Lower(Strip(line)) == "help" || Lower(Strip(line)) == "list" || IsBlank(line)
    ensures Collect(data, [line] + lines) == Collect(data, lines)
  {
    assert ([line] + lines)[0] == line;
    assert ([line] + lines)[1..] == lines;
    assert EffectOf(line) == Add([]);
    assert data + [] == data;
  }

  /** What the loop gathers is a list the exporter accepts, as soon as it
      holds a record. */
  lemma {:induction false} CollectedIsExportable(lines: seq<string>)
    requires |GetStructuredData(lines)| > 0
    ensures var data := GetStructuredData(lines);
            Exporter.ValidateData(Exporter.ListInput(seq(|data|, i requires 0 <= i < |data| => Exporter.DictItem(data[i])))).Ok?
  {
  }
}
