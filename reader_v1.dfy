/**
 * `ReaderV1` of reader.py: the counted-block grammar.
 *
 * Header lines are dispatched by keyword prefix; `TRANSISTORS n` opens a
 * block of six-token records that must be closed by a line starting with
 * `END TRANSISTORS` once the transistor list holds `n` entries. The first
 * malformed or unknown line stops the read, which then reports failure.
 */
module ReaderV1 {
  import opened Wrappers
  import opened Text
  import opened Numbers
  import opened Placement
  import opened Fields

  /** `self.data` of a ReaderV1. */
  datatype Data = Data(
    units: Option<int>,
    dieArea: Option<DieArea>,
    rowHeight: Option<int>,
    siteWidth: Option<int>,
    numRows: Option<int>,
    numSites: Option<int>,
    transistors: seq<Transistor<string>>,
    sdcGroup: map<string, nat>,
    transistorOffset: Option<int>)

  const EmptyData := Data(None, None, None, None, None, None, [], map[], None)

  /** `self.data` together with `parsing_transistors_flag` and `num_transistors`. */
  datatype State = ReaderState(data: Data, parsingTransistors: bool, numTransistors: int)

  const Initial := ReaderState(EmptyData, false, 0)

  /** What `read` resets before it reads: the two flags, not the data. */
  function Reset(s: State): State {
    s.(parsingTransistors := false, numTransistors := 0)
  }

  predicate Consistent(d: Data) {
    CountsMatch(d.transistors, d.sdcGroup)
  }

  /** The record part of `_parse_transistor`: `name x y flipped type sdc`, the group kept as a string. */
  function TransistorRecord(line: string): (r: Result<Transistor<string>, ParseError>)
    ensures |Tokens(line)| != 6 ==> r == Err(FieldCount(6, |Tokens(line)|))
    ensures r.Ok? <==> var ts := Tokens(line); |ts| == 6 && ParseInt(ts[1]).Some? && ParseInt(ts[2]).Some? && ParseInt(ts[3]).Some?
    ensures r.Err? && |Tokens(line)| == 6 ==> r.error == NotAnInteger
    ensures r.Ok? ==>
      var ts := Tokens(line);
      && |ts| == 6 && r.value.name == ts[0] && r.value.kind == ts[4] && r.value.group == ts[5]
      && ParseInt(ts[1]) == Some(r.value.x) && ParseInt(ts[2]) == Some(r.value.y)
      && ParseInt(ts[3]) == Some(r.value.flipped)
  {
    var ts := Tokens(line);
    if |ts| != 6 then Err(FieldCount(6, |ts|))
    else match (ParseInt(ts[1]), ParseInt(ts[2]), ParseInt(ts[3]))
      case (Some(x), Some(y), Some(f)) => Ok(Transistor(ts[0], x, y, f, ts[4], ts[5]))
      case _ => Err(NotAnInteger)
  }

  /** `_parse_transistor` followed by the append: store `t` and count it in its group. */
  function AddTransistor(d: Data, t: Transistor<string>): Data {
    d.(transistors := d.transistors + [t], sdcGroup := Bump(d.sdcGroup, t.group))
  }

  /** The header keywords, in the order `_parse_line` tests them. */
  datatype Keyword = Units | DieAreaKey | RowHeight | SiteWidth | Rows | Sites | TransistorOffset | Transistors | Unknown

  /** Prefix dispatch of a header line: the first keyword it starts with. */
  function Classify(line: string): Keyword {
    if StartsWith(line, "UNITS") then Units
    else if StartsWith(line, "DIEAREA") then DieAreaKey
    else if StartsWith(line, "ROWHEIGHT") then RowHeight
    else if StartsWith(line, "SITEWIDTH") then SiteWidth
    else if StartsWith(line, "ROWS") then Rows
    else if StartsWith(line, "SITES") then Sites
    else if StartsWith(line, "TRANSISTOROFFSET") then TransistorOffset
    else if StartsWith(line, "TRANSISTORS") then Transistors
    else Unknown
  }

  /** The text of each keyword. */
  function KeywordText(k: Keyword): string {
    match k
    case Units => "UNITS"
    case DieAreaKey => "DIEAREA"
    case RowHeight => "ROWHEIGHT"
    case SiteWidth => "SITEWIDTH"
    case Rows => "ROWS"
    case Sites => "SITES"
    case TransistorOffset => "TRANSISTOROFFSET"
    case Transistors => "TRANSISTORS"
    case Unknown => ""
  }

  /**
   * No keyword is a prefix of one tested after it, so a line that starts
   * with a keyword is dispatched to that keyword; in particular
   * TRANSISTOROFFSET, tested first, never reaches the TRANSISTORS branch.
   */
  lemma ClassifyKeywordLine(k: Keyword, rest: string)
    requires k != Unknown
    ensures Classify(KeywordText(k) + rest) == k
  {
    var key := KeywordText(k);
    var line := key + rest;
    assert line[..|key|] == key;
    match k
    case Units =>
    case DieAreaKey =>
      NotStartsWith(line, "UNITS", 0);
    case RowHeight =>
      NotStartsWith(line, "UNITS", 0);
      NotStartsWith(line, "DIEAREA", 0);
    case SiteWidth =>
      NotStartsWith(line, "UNITS", 0);
      NotStartsWith(line, "DIEAREA", 0);
      NotStartsWith(line, "ROWHEIGHT", 0);
    case Rows =>
      NotStartsWith(line, "UNITS", 0);
      NotStartsWith(line, "DIEAREA", 0);
      NotStartsWith(line, "ROWHEIGHT", 3);
    case Sites =>
      NotStartsWith(line, "UNITS", 0);
      NotStartsWith(line, "DIEAREA", 0);
      NotStartsWith(line, "ROWHEIGHT", 0);
      NotStartsWith(line, "SITEWIDTH", 4);
      NotStartsWith(line, "ROWS", 0);
    case TransistorOffset =>
      NotStartsWith(line, "UNITS", 0);
      NotStartsWith(line, "DIEAREA", 0);
      NotStartsWith(line, "ROWHEIGHT", 0);
      NotStartsWith(line, "SITEWIDTH", 0);
      NotStartsWith(line, "ROWS", 0);
      NotStartsWith(line, "SITES", 0);
    case Transistors =>
      NotStartsWith(line, "UNITS", 0);
      NotStartsWith(line, "DIEAREA", 0);
      NotStartsWith(line, "ROWHEIGHT", 0);
      NotStartsWith(line, "SITEWIDTH", 0);
      NotStartsWith(line, "ROWS", 0);
      NotStartsWith(line, "SITES", 0);
      NotStartsWith(line, "TRANSISTOROFFSET", 10);
  }

  /** The header keywords whose line is `KEY VALUE` and whose value is stored in a field. */
  predicate IsScalar(k: Keyword) {
    k !in {DieAreaKey, Transistors, Unknown}
  }

  /** The field assignment of a `KEY VALUE` header line. */
  function Store(d: Data, k: Keyword, v: int): Data
    requires IsScalar(k)
  {
    match k
    case Units => d.(units := Some(v))
    case RowHeight => d.(rowHeight := Some(v))
    case SiteWidth => d.(siteWidth := Some(v))
    case Rows => d.(numRows := Some(v))
    case Sites => d.(numSites := Some(v))
    case TransistorOffset => d.(transistorOffset := Some(v))
  }

  /** `_parse_line`: the new state, and the error the line raised, if any. */
  function Step(s: State, line: string): Outcome<State> {
    if s.parsingTransistors then
      if |s.data.transistors| >= s.numTransistors then
        if StartsWith(line, "END TRANSISTORS") then Outcome(s.(parsingTransistors := false), None)
        else Outcome(s, Some(ExpectedEnd))
      else
        match TransistorRecord(line)
        case Err(e) => Outcome(s, Some(e))
        case Ok(t) => Outcome(s.(data := AddTransistor(s.data, t)), None)
    else
      match Classify(line)
      case DieAreaKey =>
        (match ParseDieArea(line)
         case Err(e) => Outcome(s, Some(e))
         case Ok(a) => Outcome(s.(data := s.data.(dieArea := Some(a))), None))
      case Transistors =>
        // The flag is raised before the count is parsed, so it stays raised on a bad count.
        (match ParseIntField(line)
         case Err(e) => Outcome(s.(parsingTransistors := true), Some(e))
         case Ok(n) => Outcome(s.(parsingTransistors := true, numTransistors := n), None))
      case Unknown => Outcome(s, Some(UnknownLine))
      case k =>
        (match ParseIntField(line)
         case Err(e) => Outcome(s, Some(e))
         case Ok(v) => Outcome(s.(data := Store(s.data, k, v)), None))
  }

  /** The loop of `read`: every line in turn, stopping at the first one that raises. */
  function Run(s: State, lines: seq<string>): Outcome<State>
    decreases |lines|
  {
    if lines == [] then Outcome(s, None)
    else
      var o := Step(s, lines[0]);
      if o.error.Some? then o else Run(o.state, lines[1..])
  }

  // ---------------------------------------------------------------------
  // Line formats, for the lemmas that say which lines are accepted.

  const HeaderKeywords: seq<string> :=
    ["UNITS", "DIEAREA", "ROWHEIGHT", "SITEWIDTH", "ROWS", "SITES", "TRANSISTOROFFSET", "TRANSISTORS"]

  predicate MatchesKeyword(line: string, keys: seq<string>) {
    exists i :: 0 <= i < |keys| && StartsWith(line, keys[i])
  }

  predicate Writable(t: Transistor<string>) {
    IsWord(t.name) && IsWord(t.kind) && IsWord(t.group)
  }

  /** The six-token block record that writes `t`. */
  function RecordLine(t: Transistor<string>): string {
    JoinWords([t.name, FormatInt(t.x), FormatInt(t.y), FormatInt(t.flipped), t.kind, t.group])
  }

  function RecordLines(ts: seq<Transistor<string>>): (ls: seq<string>)
    ensures |ls| == |ts| && forall i :: 0 <= i < |ts| ==> ls[i] == RecordLine(ts[i])
  {
    if ts == [] then [] else [RecordLine(ts[0])] + RecordLines(ts[1..])
  }

  /** Storing several transistors one after another. */
  function AddAll(d: Data, ts: seq<Transistor<string>>): Data
    decreases |ts|
  {
    if ts == [] then d else AddAll(AddTransistor(d, ts[0]), ts[1..])
  }

  // ---------------------------------------------------------------------
  // Lemmas.

  /** A block record reads back the transistor it writes. */
  lemma TransistorRecordOfRecordLine(t: Transistor<string>)
    requires Writable(t)
    ensures TransistorRecord(RecordLine(t)) == Ok(t)
  {
    TokensOfJoinWords([t.name, FormatInt(t.x), FormatInt(t.y), FormatInt(t.flipped), t.kind, t.group]);
    ParseIntOfFormatInt(t.x);
    ParseIntOfFormatInt(t.y);
    ParseIntOfFormatInt(t.flipped);
  }

  lemma AddTransistorConsistent(d: Data, t: Transistor<string>)
    requires Consistent(d)
    ensures Consistent(AddTransistor(d, t))
  {
    CountsMatchAppend(d.transistors, d.sdcGroup, t);
  }

  lemma StepConsistent(s: State, line: string)
    requires Consistent(s.data)
    ensures Consistent(Step(s, line).state.data)
  {
    if s.parsingTransistors && |s.data.transistors| < s.numTransistors {
      var r := TransistorRecord(line);
      if r.Ok? {
        AddTransistorConsistent(s.data, r.value);
      }
    }
  }

  /** After any sequence of lines, `sdc_group` is the group count of the stored transistors. */
  lemma {:induction false} RunConsistent(s: State, lines: seq<string>)
    requires Consistent(s.data)
    ensures Consistent(Run(s, lines).state.data)
    decreases |lines|
  {
    if lines != [] {
      StepConsistent(s, lines[0]);
      var o := Step(s, lines[0]);
      if o.error.None? {
        RunConsistent(o.state, lines[1..]);
      }
    }
  }

  /** So each count is the number of transistors of that group, and the counts sum to the list's length. */
  lemma RunCounts(s: State, lines: seq<string>)
    requires Consistent(s.data)
    ensures var d := Run(s, lines).state.data;
      && (forall g :: g in d.sdcGroup ==> d.sdcGroup[g] == Occurrences(d.transistors, g))
      && SumValues(d.sdcGroup) == |d.transistors|
  {
    RunConsistent(s, lines);
    var d := Run(s, lines).state.data;
    forall g | g in d.sdcGroup ensures d.sdcGroup[g] == Occurrences(d.transistors, g) {
      GroupCountsAreOccurrences(d.transistors, g);
    }
    GroupCountsSum(d.transistors);
  }

  /** Reading `a + b` is reading `a`, then, unless it failed, reading `b` from where it stopped. */
  lemma {:induction false} RunConcat(s: State, a: seq<string>, b: seq<string>)
    ensures Run(s, a + b) == (var o := Run(s, a); if o.error.Some? then o else Run(o.state, b))
    decreases |a|
  {
    if a == [] {
      assert a + b == b;
    } else {
      assert (a + b)[0] == a[0] && (a + b)[1..] == a[1..] + b;
      var o := Step(s, a[0]);
      if o.error.None? {
        RunConcat(o.state, a[1..], b);
      }
    }
  }

  /** `read` does not clear `data`: what was stored before is still there, in front. */
  lemma {:induction false} RunKeepsStoredTransistors(s: State, lines: seq<string>)
    ensures var ts := Run(s, lines).state.data.transistors;
      |s.data.transistors| <= |ts| && ts[..|s.data.transistors|] == s.data.transistors
    decreases |lines|
  {
    if lines != [] {
      var o := Step(s, lines[0]);
      if o.error.None? {
        RunKeepsStoredTransistors(o.state, lines[1..]);
        assert o.state.data.transistors[..|s.data.transistors|] == s.data.transistors;
      }
    }
  }

  /** In the header, a `KEY VALUE` keyword line of any other width is a field-count error. */
  lemma ScalarLineNeedsTwoTokens(s: State, line: string)
    requires !s.parsingTransistors
    requires Classify(line) !in {DieAreaKey, Unknown}
    requires |Tokens(line)| != 2
    ensures Step(s, line).error == Some(FieldCount(2, |Tokens(line)|))
    ensures Step(s, line).state == if Classify(line) == Transistors then s.(parsingTransistors := true) else s
  {
  }

  /** Dispatch picks a keyword the line starts with, and fails only when it starts with none. */
  lemma ClassifyMeaning(line: string)
    ensures Classify(line) != Unknown ==> StartsWith(line, KeywordText(Classify(line)))
    ensures Classify(line) == Unknown <==> !MatchesKeyword(line, HeaderKeywords)
  {
    if MatchesKeyword(line, HeaderKeywords) {
      var i :| 0 <= i < |HeaderKeywords| && StartsWith(line, HeaderKeywords[i]);
      assert Classify(line) != Unknown;
    }
    if Classify(line) != Unknown {
      var k := Classify(line);
      var i := match k
        case Units => 0 case DieAreaKey => 1 case RowHeight => 2 case SiteWidth => 3
        case Rows => 4 case Sites => 5 case TransistorOffset => 6 case _ => 7;
      assert HeaderKeywords[i] == KeywordText(k);
    }
  }

  /** In the header, a DIEAREA line is accepted exactly when four integers follow the keyword. */
  lemma DieAreaNeedsFourIntegers(s: State, line: string)
    requires !s.parsingTransistors
    requires StartsWith(line, "DIEAREA")
    ensures Step(s, line).error.None? <==> |Tokens(line)| == 5 && ParseInts(Tokens(line)[1..]).Some?
    ensures Step(s, line).error.None? ==>
      Step(s, line).state == s.(data := s.data.(dieArea := Some(ParseDieArea(line).value)))
    ensures Step(s, line).error.Some? ==> Step(s, line).state == s
  {
    StartsWithHead(line, "DIEAREA");
  }

  /** A DIEAREA line stores the corners it writes. */
  lemma DieAreaLineStored(s: State, d: DieArea)
    requires !s.parsingTransistors
    ensures Step(s, DieAreaLine("DIEAREA", d)) == Outcome(s.(data := s.data.(dieArea := Some(d))), None)
  {
    var line := DieAreaLine("DIEAREA", d);
    ParseDieAreaOfDieAreaLine("DIEAREA", d);
    assert line[..7] == "DIEAREA";
    StartsWithHead(line, "DIEAREA");
    NotStartsWith(line, "UNITS", 0);
  }

  /** A `KEY VALUE` line written with a keyword is dispatched to that keyword. */
  lemma ClassifyIntLine(k: Keyword, n: int)
    requires k != Unknown
    ensures Classify(IntLine(KeywordText(k), n)) == k
  {
    IntLineText(KeywordText(k), n);
    ClassifyKeywordLine(k, " " + FormatInt(n));
    assert KeywordText(k) + " " + FormatInt(n) == KeywordText(k) + (" " + FormatInt(n));
  }

  /** In the header, a `KEY VALUE` line stores its value in its keyword's field. */
  lemma ScalarLineStored(s: State, k: Keyword, n: int)
    requires !s.parsingTransistors && IsScalar(k)
    ensures Step(s, IntLine(KeywordText(k), n)) == Outcome(s.(data := Store(s.data, k, n)), None)
  {
    ParseIntFieldOfIntLine(KeywordText(k), n);
    ClassifyIntLine(k, n);
  }

  /** TRANSISTOROFFSET is tested before TRANSISTORS, so its line sets the offset and opens no block. */
  lemma OffsetLineSetsOffset(s: State, n: int)
    requires !s.parsingTransistors
    ensures Step(s, IntLine("TRANSISTOROFFSET", n))
         == Outcome(s.(data := s.data.(transistorOffset := Some(n))), None)
  {
    assert KeywordText(TransistorOffset) == "TRANSISTOROFFSET";
    ScalarLineStored(s, TransistorOffset, n);
  }

  /** `TRANSISTORS n` opens a block that expects the list to reach `n`. */
  lemma CountLineOpensBlock(s: State, n: int)
    requires !s.parsingTransistors
    ensures Step(s, IntLine("TRANSISTORS", n)) == Outcome(s.(parsingTransistors := true, numTransistors := n), None)
  {
    ParseIntFieldOfIntLine("TRANSISTORS", n);
    ClassifyIntLine(Transistors, n);
  }

  /** In the header, a line that starts with no keyword is an error and changes nothing. */
  lemma UnknownLineFails(s: State, line: string)
    requires !s.parsingTransistors
    requires !MatchesKeyword(line, HeaderKeywords)
    ensures Step(s, line) == Outcome(s, Some(UnknownLine))
  {
    ClassifyMeaning(line);
  }

  /** The empty line is an error in every state. */
  lemma EmptyLineFails(s: State)
    ensures Step(s, "").error.Some?
  {
    if !s.parsingTransistors {
      UnknownLineFails(s, "");
    }
  }

  /** While the block is not full, every line must be a six-token record. */
  lemma BlockNeedsSixTokens(s: State, line: string)
    requires s.parsingTransistors && |s.data.transistors| < s.numTransistors
    requires |Tokens(line)| != 6
    ensures Step(s, line) == Outcome(s, Some(FieldCount(6, |Tokens(line)|)))
  {
  }

  /** So a premature `END TRANSISTORS` (two tokens) fails the field-count check. */
  lemma PrematureEndFails(s: State)
    requires s.parsingTransistors && |s.data.transistors| < s.numTransistors
    ensures Step(s, "END TRANSISTORS") == Outcome(s, Some(FieldCount(6, 2)))
  {
    EndLineTokens();
  }

  /** `END TRANSISTORS` splits into two tokens. */
  lemma EndLineTokens()
    ensures |Tokens("END TRANSISTORS")| == 2
  {
    TokensOfJoinWords(["END", "TRANSISTORS"]);
    assert JoinWords(["END", "TRANSISTORS"]) == "END TRANSISTORS";
  }

  /** While the block is not full, a record line stores its transistor and counts its group. */
  lemma BlockRecordStored(s: State, t: Transistor<string>)
    requires s.parsingTransistors && |s.data.transistors| < s.numTransistors
    requires Writable(t)
    ensures Step(s, RecordLine(t)) == Outcome(s.(data := AddTransistor(s.data, t)), None)
  {
    TransistorRecordOfRecordLine(t);
  }

  /**
   * Once the stored count reaches the declared one, the next line must start
   * with `END TRANSISTORS`; that line returns to the header and changes no data.
   */
  lemma FullBlockNeedsEnd(s: State, line: string)
    requires s.parsingTransistors && |s.data.transistors| >= s.numTransistors
    ensures Step(s, line).error.None? <==> StartsWith(line, "END TRANSISTORS")
    ensures Step(s, line).error.None? ==> Step(s, line).state == s.(parsingTransistors := false)
    ensures Step(s, line).error.Some? ==> Step(s, line) == Outcome(s, Some(ExpectedEnd))
  {
  }

  /** A block of records, all accepted while the list stays within the declared count. */
  lemma {:induction false} RunRecords(s: State, ts: seq<Transistor<string>>)
    requires s.parsingTransistors
    requires |s.data.transistors| + |ts| <= s.numTransistors
    requires forall i :: 0 <= i < |ts| ==> Writable(ts[i])
    ensures Run(s, RecordLines(ts)) == Outcome(s.(data := AddAll(s.data, ts)), None)
    decreases |ts|
  {
    if ts != [] {
      BlockRecordStored(s, ts[0]);
      var s' := s.(data := AddTransistor(s.data, ts[0]));
      assert RecordLines(ts)[1..] == RecordLines(ts[1..]);
      RunRecords(s', ts[1..]);
    }
  }

  lemma {:induction false} AddAllAppends(d: Data, ts: seq<Transistor<string>>)
    ensures AddAll(d, ts).transistors == d.transistors + ts
    ensures Consistent(d) ==> Consistent(AddAll(d, ts))
    decreases |ts|
  {
    if ts != [] {
      if Consistent(d) {
        AddTransistorConsistent(d, ts[0]);
      }
      AddAllAppends(AddTransistor(d, ts[0]), ts[1..]);
      assert d.transistors + [ts[0]] + ts[1..] == d.transistors + ts;
    }
  }

  /**
   * A complete block: `TRANSISTORS n`, `n` records, `END TRANSISTORS`, read
   * from a header state with no stored transistor, stores exactly the
   * records, in order, back in the header.
   */
  lemma CompleteBlock(s: State, ts: seq<Transistor<string>>)
    requires !s.parsingTransistors && s.data.transistors == []
    requires forall i :: 0 <= i < |ts| ==> Writable(ts[i])
    ensures var o := Run(s, [IntLine("TRANSISTORS", |ts|)] + RecordLines(ts) + ["END TRANSISTORS"]);
      && o.error.None? && !o.state.parsingTransistors
      && o.state.data == AddAll(s.data, ts) && o.state.data.transistors == ts
  {
    var open := s.(parsingTransistors := true, numTransistors := |ts|);
    CountLineOpensBlock(s, |ts|);
    RunRecords(open, ts);
    AddAllAppends(s.data, ts);
    var full := open.(data := AddAll(s.data, ts));
    assert StartsWith("END TRANSISTORS", "END TRANSISTORS");
    assert Run(full, ["END TRANSISTORS"]) == Outcome(full.(parsingTransistors := false), None);
    RunConcat(s, [IntLine("TRANSISTORS", |ts|)], RecordLines(ts));
    RunConcat(s, [IntLine("TRANSISTORS", |ts|)] + RecordLines(ts), ["END TRANSISTORS"]);
  }

  /** Without the closing line the read still succeeds, left inside the block. */
  lemma UnterminatedBlockAccepted(s: State, ts: seq<Transistor<string>>)
    requires !s.parsingTransistors && s.data.transistors == []
    requires forall i :: 0 <= i < |ts| ==> Writable(ts[i])
    ensures var o := Run(s, [IntLine("TRANSISTORS", |ts|)] + RecordLines(ts));
      o.error.None? && o.state.parsingTransistors && o.state.data.transistors == ts
  {
    var open := s.(parsingTransistors := true, numTransistors := |ts|);
    CountLineOpensBlock(s, |ts|);
    RunRecords(open, ts);
    AddAllAppends(s.data, ts);
    RunConcat(s, [IntLine("TRANSISTORS", |ts|)], RecordLines(ts));
  }

  /** A line that is accepted hands the rest of the read to the state it leaves. */
  lemma RunAccepted(s: State, line: string, rest: seq<string>)
    requires Step(s, line).error.None?
    ensures Run(s, [line] + rest) == Run(Step(s, line).state, rest)
  {
    assert ([line] + rest)[0] == line && ([line] + rest)[1..] == rest;
  }

  /** Three lines of which the first two are accepted end as the third leaves the state. */
  lemma RunThreeLines(s: State, a: string, b: string, c: string)
    requires Step(s, a).error.None? && Step(Step(s, a).state, b).error.None?
    ensures Run(s, [a, b, c]) == Step(Step(Step(s, a).state, b).state, c)
  {
    var u := Step(Step(s, a).state, b).state;
    assert [a, b, c] == [a] + ([b] + [c]);
    RunAccepted(s, a, [b] + [c]);
    RunAccepted(Step(s, a).state, b, [c]);
    assert Run(u, [c]) == Step(u, c);
  }

  /** `END TRANSISTORS` after one record of a block of two is a record of the wrong width. */
  lemma EndBeforeCountFails(s: State, t: Transistor<string>)
    requires !s.parsingTransistors && s.data.transistors == [] && Writable(t)
    ensures Run(s, [IntLine("TRANSISTORS", 2), RecordLine(t), "END TRANSISTORS"]).error == Some(FieldCount(6, 2))
  {
    var open := s.(parsingTransistors := true, numTransistors := 2);
    var one := open.(data := AddTransistor(open.data, t));
    assert Step(s, IntLine("TRANSISTORS", 2)) == Outcome(open, None) by {
      CountLineOpensBlock(s, 2);
    }
    assert Step(open, RecordLine(t)) == Outcome(one, None) by {
      BlockRecordStored(open, t);
    }
    assert Step(one, "END TRANSISTORS").error == Some(FieldCount(6, 2)) by {
      PrematureEndFails(one);
    }
    RunThreeLines(s, IntLine("TRANSISTORS", 2), RecordLine(t), "END TRANSISTORS");
  }

  /**
   * The block test counts every stored transistor, not the block's own: a
   * second block whose count does not exceed what is already stored takes
   * no record: its next line must close it.
   */
  lemma LaterBlockCountsEarlierRecords(s: State, n: int, line: string)
    requires !s.parsingTransistors && n <= |s.data.transistors|
    requires !StartsWith(line, "END TRANSISTORS")
    ensures Run(s, [IntLine("TRANSISTORS", n), line]) == Outcome(s.(parsingTransistors := true, numTransistors := n), Some(ExpectedEnd))
  {
    var open := s.(parsingTransistors := true, numTransistors := n);
    assert Step(s, IntLine("TRANSISTORS", n)) == Outcome(open, None) by {
      CountLineOpensBlock(s, n);
    }
    assert Run(open, [line]) == Outcome(open, Some(ExpectedEnd)) by {
      FullBlockNeedsEnd(open, line);
    }
    RunAccepted(s, IntLine("TRANSISTORS", n), [line]);
    assert [IntLine("TRANSISTORS", n), line] == [IntLine("TRANSISTORS", n)] + [line];
  }

  // ---------------------------------------------------------------------
  // The reader object.

  class ReaderV1 {
    var data: Data
    var parsingTransistorsFlag: bool
    var numTransistors: int

    function State(): State
      reads this
    {
      ReaderState(data, parsingTransistorsFlag, numTransistors)
    }

    ghost predicate Valid()
      reads this
    {
      Consistent(data)
    }

    constructor ()
      ensures Valid() && State() == Initial
    {
      data := EmptyData;
      parsingTransistorsFlag := false;
      numTransistors := 0;
    }

    /** `get_data`: a copy of the data, whose counts always add up to the stored list. */
    function GetData(): (d: Data)
      reads this
      requires Valid()
      ensures d == data
      ensures SumValues(d.sdcGroup) == |d.transistors|
    {
      GroupCountsSum(data.transistors);
      data
    }

    /** `_parse_transistor`: parse the record and count it in its group (the append is the caller's). */
    method ParseTransistor(line: string) returns (r: Result<Transistor<string>, ParseError>)
      modifies this
      ensures r == TransistorRecord(line)
      ensures data == if r.Ok? then old(data).(sdcGroup := Bump(old(data).sdcGroup, r.value.group)) else old(data)
      ensures parsingTransistorsFlag == old(parsingTransistorsFlag) && numTransistors == old(numTransistors)
    {
      r := TransistorRecord(line);
      if r.Ok? {
        var g := r.value.group;
        if g !in data.sdcGroup {
          data := data.(sdcGroup := data.sdcGroup[g := 1]);
        } else {
          data := data.(sdcGroup := data.sdcGroup[g := data.sdcGroup[g] + 1]);
        }
      }
    }

    /** `_parse_line`; the returned error stands for the exception it raises. */
    method ParseLine(line: string) returns (error: Option<ParseError>)
      requires Valid()
      modifies this
      ensures Valid()
      ensures Outcome(State(), error) == Step(old(State()), line)
    {
      ghost var s := State();
      StepConsistent(s, line);
      if parsingTransistorsFlag {
        if |data.transistors| >= numTransistors {
          if StartsWith(line, "END TRANSISTORS") {
            parsingTransistorsFlag := false;
            return None;
          }
          return Some(ExpectedEnd);
        }
        var t := ParseTransistor(line);
        if t.Err? {
          return Some(t.error);
        }
        data := data.(transistors := data.transistors + [t.value]);
        return None;
      }
      if StartsWith(line, "UNITS") {
        var v := ParseIntField(line);
        if v.Err? { return Some(v.error); }
        data := data.(units := Some(v.value));
      } else if StartsWith(line, "DIEAREA") {
        var a := ParseDieArea(line);
        if a.Err? { return Some(a.error); }
        data := data.(dieArea := Some(a.value));
      } else if StartsWith(line, "ROWHEIGHT") {
        var v := ParseIntField(line);
        if v.Err? { return Some(v.error); }
        data := data.(rowHeight := Some(v.value));
      } else if StartsWith(line, "SITEWIDTH") {
        var v := ParseIntField(line);
        if v.Err? { return Some(v.error); }
        data := data.(siteWidth := Some(v.value));
      } else if StartsWith(line, "ROWS") {
        var v := ParseIntField(line);
        if v.Err? { return Some(v.error); }
        data := data.(numRows := Some(v.value));
      } else if StartsWith(line, "SITES") {
        var v := ParseIntField(line);
        if v.Err? { return Some(v.error); }
        data := data.(numSites := Some(v.value));
      } else if StartsWith(line, "TRANSISTOROFFSET") {
        var v := ParseIntField(line);
        if v.Err? { return Some(v.error); }
        data := data.(transistorOffset := Some(v.value));
      } else if StartsWith(line, "TRANSISTORS") {
        parsingTransistorsFlag := true;
        var n := ParseIntField(line);
        if n.Err? { return Some(n.error); }
        numTransistors := n.value;
      } else {
        return Some(UnknownLine);
      }
      return None;
    }

    /** `read` over the file's lines: reset the flags, parse each line, stop at the first error. */
    method Read(lines: seq<string>) returns (ok: bool)
      requires Valid()
      modifies this
      ensures Valid()
      ensures ok == Run(Reset(old(State())), lines).error.None?
      ensures State() == Run(Reset(old(State())), lines).state
    {
      parsingTransistorsFlag := false;
      numTransistors := 0;
      ghost var start := State();
      var i := 0;
      while i < |lines|
        invariant 0 <= i <= |lines|
        invariant Valid()
        invariant Run(start, lines) == Run(State(), lines[i..])
      {
        assert lines[i..][0] == lines[i] && lines[i..][1..] == lines[i + 1..];
        var error := ParseLine(lines[i]);
        if error.Some? {
          return false;
        }
        i := i + 1;
      }
      return true;
    }
  }
}
