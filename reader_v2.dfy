/**
 * `ReaderV2` of reader.py: the flat grammar.
 *
 * Every line stands alone and is dispatched by keyword prefix: header
 * scalars, DIEAREA, and the TRANSISTOR, PIN, SDC and PATH records, each
 * appended to its list in file order. There is no block and no other state
 * than the data. The first malformed or unknown line stops the read, which
 * then reports failure.
 */
module ReaderV2 {
  import opened Wrappers
  import opened Text
  import opened Numbers
  import opened Placement
  import opened Fields
  import opened Paths

  /** `self.data` of a ReaderV2. */
  datatype Data = Data(
    units: Option<int>,
    dieArea: Option<DieArea>,
    rowHeight: Option<int>,
    siteWidth: Option<int>,
    numRows: Option<int>,
    numSites: Option<int>,
    transistors: seq<Transistor<string>>,
    pins: seq<Pin>,
    sdcs: seq<SdcMacro>,
    sdcGroup: map<string, nat>,
    transistorOffset: Option<int>,
    paths: seq<seq<(int, int)>>)

  const EmptyData := Data(None, None, None, None, None, None, [], [], [], map[], None, [])

  predicate Consistent(d: Data) {
    CountsMatch(d.transistors, d.sdcGroup)
  }

  /** The record part of `_parse_transistor`: `TRANSISTOR name x y flipped type sdc`, the group kept as a string. */
  function TransistorRecord(line: string): (r: Result<Transistor<string>, ParseError>)
    ensures |Tokens(line)| != 7 ==> r == Err(FieldCount(7, |Tokens(line)|))
    ensures r.Ok? <==> var ts := Tokens(line); |ts| == 7 && ParseInt(ts[2]).Some? && ParseInt(ts[3]).Some? && ParseInt(ts[4]).Some?
    ensures r.Err? && |Tokens(line)| == 7 ==> r.error == NotAnInteger
    ensures r.Ok? ==>
      var ts := Tokens(line);
      && |ts| == 7 && r.value.name == ts[1] && r.value.kind == ts[5] && r.value.group == ts[6]
      && ParseInt(ts[2]) == Some(r.value.x) && ParseInt(ts[3]) == Some(r.value.y)
      && ParseInt(ts[4]) == Some(r.value.flipped)
  {
    var ts := Tokens(line);
    if |ts| != 7 then Err(FieldCount(7, |ts|))
    else match (ParseInt(ts[2]), ParseInt(ts[3]), ParseInt(ts[4]))
      case (Some(x), Some(y), Some(f)) => Ok(Transistor(ts[1], x, y, f, ts[5], ts[6]))
      case _ => Err(NotAnInteger)
  }

  /** `_parse_pin`: `PIN name x y net_name`. */
  function PinRecord(line: string): (r: Result<Pin, ParseError>)
    ensures |Tokens(line)| != 5 ==> r == Err(FieldCount(5, |Tokens(line)|))
    ensures r.Ok? <==> var ts := Tokens(line); |ts| == 5 && ParseInt(ts[2]).Some? && ParseInt(ts[3]).Some?
    ensures r.Err? && |Tokens(line)| == 5 ==> r.error == NotAnInteger
    ensures r.Ok? ==>
      var ts := Tokens(line);
      && |ts| == 5 && r.value.name == ts[1] && r.value.netName == ts[4]
      && ParseInt(ts[2]) == Some(r.value.x) && ParseInt(ts[3]) == Some(r.value.y)
  {
    var ts := Tokens(line);
    if |ts| != 5 then Err(FieldCount(5, |ts|))
    else match (ParseInt(ts[2]), ParseInt(ts[3]))
      case (Some(x), Some(y)) => Ok(Pin(ts[1], x, y, ts[4]))
      case _ => Err(NotAnInteger)
  }

  /** `_parse_sdc`: `SDC name macro x y width height`. */
  function SdcRecord(line: string): (r: Result<SdcMacro, ParseError>)
    ensures |Tokens(line)| != 7 ==> r == Err(FieldCount(7, |Tokens(line)|))
    ensures r.Ok? <==> var ts := Tokens(line); |ts| == 7 && ParseInt(ts[3]).Some? && ParseInt(ts[4]).Some? && ParseInt(ts[5]).Some? && ParseInt(ts[6]).Some?
    ensures r.Err? && |Tokens(line)| == 7 ==> r.error == NotAnInteger
    ensures r.Ok? ==>
      var ts := Tokens(line);
      && |ts| == 7 && r.value.name == ts[1] && r.value.macro == ts[2]
      && ParseInt(ts[3]) == Some(r.value.x) && ParseInt(ts[4]) == Some(r.value.y)
      && ParseInt(ts[5]) == Some(r.value.width) && ParseInt(ts[6]) == Some(r.value.height)
  {
    var ts := Tokens(line);
    if |ts| != 7 then Err(FieldCount(7, |ts|))
    else match (ParseInt(ts[3]), ParseInt(ts[4]), ParseInt(ts[5]), ParseInt(ts[6]))
      case (Some(x), Some(y), Some(w), Some(h)) => Ok(SdcMacro(ts[1], ts[2], x, y, w, h))
      case _ => Err(NotAnInteger)
  }

  /** `_parse_transistor` followed by the append: store `t` and count it in its group. */
  function AddTransistor(d: Data, t: Transistor<string>): Data {
    d.(transistors := d.transistors + [t], sdcGroup := Bump(d.sdcGroup, t.group))
  }

  /** The keywords, in the order `_parse_line` tests them. */
  datatype Keyword =
    | Units | DieAreaKey | RowHeight | SiteWidth | Rows | Sites | TransistorOffset
    | TransistorKey | PinKey | SdcKey | PathKey | Unknown

  /** Prefix dispatch: the first keyword the line starts with. */
  function Classify(line: string): Keyword {
    if StartsWith(line, "UNITS") then Units
    else if StartsWith(line, "DIEAREA") then DieAreaKey
    else if StartsWith(line, "ROWHEIGHT") then RowHeight
    else if StartsWith(line, "SITEWIDTH") then SiteWidth
    else if StartsWith(line, "ROWS") then Rows
    else if StartsWith(line, "SITES") then Sites
    else if StartsWith(line, "TRANSISTOROFFSET") then TransistorOffset
    else if StartsWith(line, "TRANSISTOR") then TransistorKey
    else if StartsWith(line, "PIN") then PinKey
    else if StartsWith(line, "SDC") then SdcKey
    else if StartsWith(line, "PATH") then PathKey
    else Unknown
  }

  function KeywordText(k: Keyword): string {
    match k
    case Units => "UNITS"
    case DieAreaKey => "DIEAREA"
    case RowHeight => "ROWHEIGHT"
    case SiteWidth => "SITEWIDTH"
    case Rows => "ROWS"
    case Sites => "SITES"
    case TransistorOffset => "TRANSISTOROFFSET"
    case TransistorKey => "TRANSISTOR"
    case PinKey => "PIN"
    case SdcKey => "SDC"
    case PathKey => "PATH"
    case Unknown => ""
  }

  /** The keywords whose line is `KEY VALUE` and whose value is stored in a field. */
  predicate IsScalar(k: Keyword) {
    k in {Units, RowHeight, SiteWidth, Rows, Sites, TransistorOffset}
  }

  /** The field assignment of a `KEY VALUE` line. */
  function Store(d: Data, k: Keyword, v: int): Data
    requires IsScalar(k)
  {
    match k
    case Units => d.(units := Some(v))
    case RowHeight => d.(rowHeight := Some(v))
    case SiteWidth => d.(siteWidth := Some(v))
    case Rows => d.(numRows := Some(v))
    case Sites => d.(numSites := Some(v))
    case TransistorOffset => d.(transistorOffset := Some(v))
  }

  /** `_parse_line`: the new data, and the error the line raised, if any. */
  function Step(d: Data, line: string): Outcome<Data> {
    match Classify(line)
    case DieAreaKey =>
      (match ParseDieArea(line)
       case Err(e) => Outcome(d, Some(e))
       case Ok(a) => Outcome(d.(dieArea := Some(a)), None))
    case TransistorKey =>
      (match TransistorRecord(line)
       case Err(e) => Outcome(d, Some(e))
       case Ok(t) => Outcome(AddTransistor(d, t), None))
    case PinKey =>
      (match PinRecord(line)
       case Err(e) => Outcome(d, Some(e))
       case Ok(p) => Outcome(d.(pins := d.pins + [p]), None))
    case SdcKey =>
      (match SdcRecord(line)
       case Err(e) => Outcome(d, Some(e))
       case Ok(m) => Outcome(d.(sdcs := d.sdcs + [m]), None))
    case PathKey => Outcome(d.(paths := d.paths + [FindPairs(line)]), None)
    case Unknown => Outcome(d, Some(UnknownLine))
    case k =>
      (match ParseIntField(line)
       case Err(e) => Outcome(d, Some(e))
       case Ok(v) => Outcome(Store(d, k, v), None))
  }

  /** The loop of `read`: every line in turn, stopping at the first one that raises. */
  function Run(d: Data, lines: seq<string>): Outcome<Data>
    decreases |lines|
  {
    if lines == [] then Outcome(d, None)
    else
      var o := Step(d, lines[0]);
      if o.error.Some? then o else Run(o.state, lines[1..])
  }

  // ---------------------------------------------------------------------
  // Line formats, for the lemmas that say which lines are accepted.

  const Keywords: seq<string> :=
    ["UNITS", "DIEAREA", "ROWHEIGHT", "SITEWIDTH", "ROWS", "SITES", "TRANSISTOROFFSET",
     "TRANSISTOR", "PIN", "SDC", "PATH"]

  predicate MatchesKeyword(line: string) {
    exists i :: 0 <= i < |Keywords| && StartsWith(line, Keywords[i])
  }

  /** The line that starts with keyword `k` followed by the words `ws`. */
  function KeywordLine(k: Keyword, ws: seq<string>): string {
    JoinWords([KeywordText(k)] + ws)
  }

  predicate Writable(t: Transistor<string>) {
    IsWord(t.name) && IsWord(t.kind) && IsWord(t.group)
  }

  function TransistorWords(t: Transistor<string>): seq<string> {
    [t.name, FormatInt(t.x), FormatInt(t.y), FormatInt(t.flipped), t.kind, t.group]
  }

  function PinWords(p: Pin): seq<string> {
    [p.name, FormatInt(p.x), FormatInt(p.y), p.netName]
  }

  function SdcWords(m: SdcMacro): seq<string> {
    [m.name, m.macro, FormatInt(m.x), FormatInt(m.y), FormatInt(m.width), FormatInt(m.height)]
  }

  function TransistorLines(ts: seq<Transistor<string>>): (ls: seq<string>)
    ensures |ls| == |ts| && forall i :: 0 <= i < |ts| ==> ls[i] == KeywordLine(TransistorKey, TransistorWords(ts[i]))
  {
    if ts == [] then [] else [KeywordLine(TransistorKey, TransistorWords(ts[0]))] + TransistorLines(ts[1..])
  }

  /** Storing several transistors one after another. */
  function AddAll(d: Data, ts: seq<Transistor<string>>): Data
    decreases |ts|
  {
    if ts == [] then d else AddAll(AddTransistor(d, ts[0]), ts[1..])
  }

  // ---------------------------------------------------------------------
  // Dispatch.

  /**
   * No keyword followed by a space starts with a keyword tested before it,
   * so such a line is dispatched to its own keyword; in particular a
   * TRANSISTOR record never reaches the TRANSISTOROFFSET branch, nor the
   * TRANSISTOROFFSET line the TRANSISTOR branch.
   */
  lemma ClassifyKeywordLine(k: Keyword, rest: string)
    requires k != Unknown
    requires rest != [] && rest[0] == ' '
    ensures Classify(KeywordText(k) + rest) == k
  {
    var key := KeywordText(k);
    var line := key + rest;
    assert line[..|key|] == key;
    assert line[|key|] == ' ';
    match k
    case Units =>
    case DieAreaKey =>
      NotStartsWith(line, "UNITS", 0);
    case RowHeight =>
      NotStartsWith(line, "UNITS", 0);
      NotStartsWith(line, "DIEAREA", 0);
    case SiteWidth =>
      NotStartsWith(line, "UNITS", 0);
      NotStartsWith(line, "DIEAREA", 0);
      NotStartsWith(line, "ROWHEIGHT", 0);
    case Rows =>
      NotStartsWith(line, "UNITS", 0);
      NotStartsWith(line, "DIEAREA", 0);
      NotStartsWith(line, "ROWHEIGHT", 3);
      NotStartsWith(line, "SITEWIDTH", 0);
    case Sites =>
      NotStartsWith(line, "UNITS", 0);
      NotStartsWith(line, "DIEAREA", 0);
      NotStartsWith(line, "ROWHEIGHT", 0);
      NotStartsWith(line, "SITEWIDTH", 4);
      NotStartsWith(line, "ROWS", 0);
    case TransistorOffset =>
      NotStartsWith(line, "UNITS", 0);
      NotStartsWith(line, "DIEAREA", 0);
      NotStartsWith(line, "ROWHEIGHT", 0);
      NotStartsWith(line, "SITEWIDTH", 0);
      NotStartsWith(line, "ROWS", 0);
      NotStartsWith(line, "SITES", 0);
    case TransistorKey =>
      NotStartsWith(line, "UNITS", 0);
      NotStartsWith(line, "DIEAREA", 0);
      NotStartsWith(line, "ROWHEIGHT", 0);
      NotStartsWith(line, "SITEWIDTH", 0);
      NotStartsWith(line, "ROWS", 0);
      NotStartsWith(line, "SITES", 0);
      NotStartsWith(line, "TRANSISTOROFFSET", 10);
    case PinKey =>
      NotStartsWith(line, "UNITS", 0);
      NotStartsWith(line, "DIEAREA", 0);
      NotStartsWith(line, "ROWHEIGHT", 0);
      NotStartsWith(line, "SITEWIDTH", 0);
      NotStartsWith(line, "ROWS", 0);
      NotStartsWith(line, "SITES", 0);
      NotStartsWith(line, "TRANSISTOROFFSET", 0);
      NotStartsWith(line, "TRANSISTOR", 0);
    case SdcKey =>
      NotStartsWith(line, "UNITS", 0);
      NotStartsWith(line, "DIEAREA", 0);
      NotStartsWith(line, "ROWHEIGHT", 0);
      NotStartsWith(line, "SITEWIDTH", 1);
      NotStartsWith(line, "ROWS", 0);
      NotStartsWith(line, "SITES", 1);
      NotStartsWith(line, "TRANSISTOROFFSET", 0);
      NotStartsWith(line, "TRANSISTOR", 0);
      NotStartsWith(line, "PIN", 0);
    case PathKey =>
      NotStartsWith(line, "UNITS", 0);
      NotStartsWith(line, "DIEAREA", 0);
      NotStartsWith(line, "ROWHEIGHT", 0);
      NotStartsWith(line, "SITEWIDTH", 0);
      NotStartsWith(line, "ROWS", 0);
      NotStartsWith(line, "SITES", 0);
      NotStartsWith(line, "TRANSISTOROFFSET", 0);
      NotStartsWith(line, "TRANSISTOR", 0);
      NotStartsWith(line, "PIN", 1);
      NotStartsWith(line, "SDC", 0);
  }

  /** A keyword line with at least one word after the keyword is dispatched to that keyword. */
  lemma ClassifyWordsLine(k: Keyword, ws: seq<string>)
    requires k != Unknown && ws != []
    ensures Classify(KeywordLine(k, ws)) == k
  {
    JoinWordsCons(KeywordText(k), ws);
    ClassifyKeywordLine(k, " " + JoinWords(ws));
    assert KeywordText(k) + " " + JoinWords(ws) == KeywordText(k) + (" " + JoinWords(ws));
  }

  /** Dispatch picks a keyword the line starts with, and fails only when it starts with none. */
  lemma ClassifyMeaning(line: string)
    ensures Classify(line) != Unknown ==> StartsWith(line, KeywordText(Classify(line)))
    ensures Classify(line) == Unknown <==> !MatchesKeyword(line)
  {
    if MatchesKeyword(line) {
      var i :| 0 <= i < |Keywords| && StartsWith(line, Keywords[i]);
      assert Classify(line) != Unknown;
    }
    if Classify(line) != Unknown {
      var k := Classify(line);
      var i := match k
        case Units => 0 case DieAreaKey => 1 case RowHeight => 2 case SiteWidth => 3
        case Rows => 4 case Sites => 5 case TransistorOffset => 6 case TransistorKey => 7
        case PinKey => 8 case SdcKey => 9 case _ => 10;
      assert Keywords[i] == KeywordText(k);
    }
  }

  /** A line that starts with no keyword is an error and changes nothing. */
  lemma UnknownLineFails(d: Data, line: string)
    requires !MatchesKeyword(line)
    ensures Step(d, line) == Outcome(d, Some(UnknownLine))
  {
    ClassifyMeaning(line);
  }

  /** The empty line is an error. */
  lemma EmptyLineFails(d: Data)
    ensures Step(d, "") == Outcome(d, Some(UnknownLine))
  {
    UnknownLineFails(d, "");
  }

  // ---------------------------------------------------------------------
  // The group counts.

  lemma AddTransistorConsistent(d: Data, t: Transistor<string>)
    requires Consistent(d)
    ensures Consistent(AddTransistor(d, t))
  {
    CountsMatchAppend(d.transistors, d.sdcGroup, t);
  }

  lemma StepConsistent(d: Data, line: string)
    requires Consistent(d)
    ensures Consistent(Step(d, line).state)
  {
    if Classify(line) == TransistorKey {
      var r := TransistorRecord(line);
      if r.Ok? {
        AddTransistorConsistent(d, r.value);
      }
    }
  }

  /** After any sequence of lines, `sdc_group` is the group count of the stored transistors. */
  lemma {:induction false} RunConsistent(d: Data, lines: seq<string>)
    requires Consistent(d)
    ensures Consistent(Run(d, lines).state)
    decreases |lines|
  {
    if lines != [] {
      StepConsistent(d, lines[0]);
      var o := Step(d, lines[0]);
      if o.error.None? {
        RunConsistent(o.state, lines[1..]);
      }
    }
  }

  /** So each count is the number of transistors of that group, and the counts sum to the list's length. */
  lemma RunCounts(d: Data, lines: seq<string>)
    requires Consistent(d)
    ensures var e := Run(d, lines).state;
      && (forall g :: g in e.sdcGroup ==> e.sdcGroup[g] == Occurrences(e.transistors, g))
      && SumValues(e.sdcGroup) == |e.transistors|
  {
    RunConsistent(d, lines);
    var e := Run(d, lines).state;
    forall g | g in e.sdcGroup ensures e.sdcGroup[g] == Occurrences(e.transistors, g) {
      GroupCountsAreOccurrences(e.transistors, g);
    }
    GroupCountsSum(e.transistors);
  }

  // ---------------------------------------------------------------------
  // Header lines.

  /** A `KEY VALUE` keyword line of any other width is a field-count error and changes nothing. */
  lemma ScalarLineNeedsTwoTokens(d: Data, line: string)
    requires IsScalar(Classify(line))
    requires |Tokens(line)| != 2
    ensures Step(d, line) == Outcome(d, Some(FieldCount(2, |Tokens(line)|)))
  {
  }

  /** A `KEY VALUE` line stores its value in its keyword's field. */
  lemma ScalarLineStored(d: Data, k: Keyword, n: int)
    requires IsScalar(k)
    ensures Step(d, IntLine(KeywordText(k), n)) == Outcome(Store(d, k, n), None)
  {
    ParseIntFieldOfIntLine(KeywordText(k), n);
    ClassifyWordsLine(k, [FormatInt(n)]);
  }

  /** TRANSISTOROFFSET is tested before TRANSISTOR, so its line sets the offset and stores no transistor. */
  lemma OffsetLineSetsOffset(d: Data, n: int)
    ensures Step(d, IntLine("TRANSISTOROFFSET", n)) == Outcome(d.(transistorOffset := Some(n)), None)
  {
    assert KeywordText(TransistorOffset) == "TRANSISTOROFFSET";
    ScalarLineStored(d, TransistorOffset, n);
  }

  /** A DIEAREA line is accepted exactly when four integers follow the keyword. */
  lemma DieAreaNeedsFourIntegers(d: Data, line: string)
    requires StartsWith(line, "DIEAREA")
    ensures Step(d, line).error.None? <==> |Tokens(line)| == 5 && ParseInts(Tokens(line)[1..]).Some?
    ensures Step(d, line).error.None? ==> Step(d, line).state == d.(dieArea := Some(ParseDieArea(line).value))
    ensures Step(d, line).error.Some? ==> Step(d, line).state == d
  {
    StartsWithHead(line, "DIEAREA");
  }

  /** A DIEAREA line stores the corners it writes. */
  lemma DieAreaLineStored(d: Data, a: DieArea)
    ensures Step(d, DieAreaLine("DIEAREA", a)) == Outcome(d.(dieArea := Some(a)), None)
  {
    var line := DieAreaLine("DIEAREA", a);
    ParseDieAreaOfDieAreaLine("DIEAREA", a);
    assert line[..7] == "DIEAREA";
    StartsWithHead(line, "DIEAREA");
    NotStartsWith(line, "UNITS", 0);
  }

  // ---------------------------------------------------------------------
  // Records.

  /** Each record kind has a fixed width; a record line of another width is an error and changes nothing. */
  lemma RecordNeedsFixedWidth(d: Data, line: string)
    requires Classify(line) in {TransistorKey, PinKey, SdcKey}
    ensures var width := if Classify(line) == PinKey then 5 else 7;
      |Tokens(line)| != width ==> Step(d, line) == Outcome(d, Some(FieldCount(width, |Tokens(line)|)))
  {
  }

  /** A `TRANSISTORS n` line of the counted-block grammar is a TRANSISTOR record of the wrong width here. */
  lemma CountLineIsNotARecord(d: Data, n: int)
    ensures Step(d, IntLine("TRANSISTORS", n)) == Outcome(d, Some(FieldCount(7, 2)))
  {
    CountLineShape(n);
    ClassifyTransistorPrefix(IntLine("TRANSISTORS", n));
  }

  /** `TRANSISTORS n` has two tokens and starts with TRANSISTOR but not with TRANSISTOROFFSET. */
  lemma CountLineShape(n: int)
    ensures var line := IntLine("TRANSISTORS", n);
      |Tokens(line)| == 2 && StartsWith(line, "TRANSISTOR") && !StartsWith(line, "TRANSISTOROFFSET")
  {
    var line := IntLine("TRANSISTORS", n);
    TokensOfIntLine("TRANSISTORS", n);
    IntLineText("TRANSISTORS", n);
    assert line[..11] == "TRANSISTORS";
    NotStartsWith(line, "TRANSISTOROFFSET", 10);
  }

  /** A line that starts with TRANSISTOR but not TRANSISTOROFFSET reaches the TRANSISTOR branch. */
  lemma ClassifyTransistorPrefix(line: string)
    requires StartsWith(line, "TRANSISTOR") && !StartsWith(line, "TRANSISTOROFFSET")
    ensures Classify(line) == TransistorKey
  {
    StartsWithHead(line, "TRANSISTOR");
    NotStartsWith(line, "UNITS", 0);
    NotStartsWith(line, "DIEAREA", 0);
    NotStartsWith(line, "ROWHEIGHT", 0);
    NotStartsWith(line, "SITEWIDTH", 0);
    NotStartsWith(line, "ROWS", 0);
    NotStartsWith(line, "SITES", 0);
  }

  /** A TRANSISTOR record reads back the transistor it writes, group id and all, as a string. */
  lemma TransistorRecordOfLine(t: Transistor<string>)
    requires Writable(t)
    ensures TransistorRecord(KeywordLine(TransistorKey, TransistorWords(t))) == Ok(t)
  {
    TokensOfTransistorLine(t);
    ParseIntOfFormatInt(t.x);
    ParseIntOfFormatInt(t.y);
    ParseIntOfFormatInt(t.flipped);
  }

  /** The tokens of a TRANSISTOR line are its words. */
  lemma TokensOfTransistorLine(t: Transistor<string>)
    requires Writable(t)
    ensures var ts := Tokens(KeywordLine(TransistorKey, TransistorWords(t)));
      && |ts| == 7 && ts[1] == t.name && ts[2] == FormatInt(t.x) && ts[3] == FormatInt(t.y)
      && ts[4] == FormatInt(t.flipped) && ts[5] == t.kind && ts[6] == t.group
  {
    TokensOfJoinWords([KeywordText(TransistorKey)] + TransistorWords(t));
  }

  /** A TRANSISTOR line appends its transistor and counts it in its group. */
  lemma TransistorLineStored(d: Data, t: Transistor<string>)
    requires Writable(t)
    ensures Step(d, KeywordLine(TransistorKey, TransistorWords(t))) == Outcome(AddTransistor(d, t), None)
  {
    TransistorRecordOfLine(t);
    ClassifyWordsLine(TransistorKey, TransistorWords(t));
  }

  /** A PIN line appends the pin it writes. */
  lemma PinLineStored(d: Data, p: Pin)
    requires IsWord(p.name) && IsWord(p.netName)
    ensures Step(d, KeywordLine(PinKey, PinWords(p))) == Outcome(d.(pins := d.pins + [p]), None)
  {
    TokensOfJoinWords([KeywordText(PinKey)] + PinWords(p));
    ParseIntOfFormatInt(p.x);
    ParseIntOfFormatInt(p.y);
    ClassifyWordsLine(PinKey, PinWords(p));
  }

  /** An SDC line appends the macro it writes. */
  lemma SdcLineStored(d: Data, m: SdcMacro)
    requires IsWord(m.name) && IsWord(m.macro)
    ensures Step(d, KeywordLine(SdcKey, SdcWords(m))) == Outcome(d.(sdcs := d.sdcs + [m]), None)
  {
    SdcRecordOfLine(m);
    ClassifyWordsLine(SdcKey, SdcWords(m));
  }

  /** `_parse_sdc` reads back the macro an SDC line writes. */
  lemma SdcRecordOfLine(m: SdcMacro)
    requires IsWord(m.name) && IsWord(m.macro)
    ensures SdcRecord(KeywordLine(SdcKey, SdcWords(m))) == Ok(m)
  {
    TokensOfSdcLine(m);
    ParseIntOfFormatInt(m.x);
    ParseIntOfFormatInt(m.y);
    ParseIntOfFormatInt(m.width);
    ParseIntOfFormatInt(m.height);
  }

  /** The tokens of an SDC line are its words. */
  lemma TokensOfSdcLine(m: SdcMacro)
    requires IsWord(m.name) && IsWord(m.macro)
    ensures var ts := Tokens(KeywordLine(SdcKey, SdcWords(m)));
      && |ts| == 7 && ts[1] == m.name && ts[2] == m.macro && ts[3] == FormatInt(m.x)
      && ts[4] == FormatInt(m.y) && ts[5] == FormatInt(m.width) && ts[6] == FormatInt(m.height)
  {
    TokensOfJoinWords([KeywordText(SdcKey)] + SdcWords(m));
  }

  /** A PATH line never raises: it appends whatever points the scan finds, possibly none. */
  lemma PathLineNeverFails(d: Data, line: string)
    requires Classify(line) == PathKey
    ensures Step(d, line) == Outcome(d.(paths := d.paths + [FindPairs(line)]), None)
    ensures '(' !in line ==> Step(d, line).state.paths == d.paths + [[]]
  {
    if '(' !in line {
      FindPairsWithoutParen(line);
    }
  }

  /** A PATH line appends the points it lists. */
  lemma PathLineStored(d: Data, ps: seq<(int, int)>)
    requires NonNegative(ps)
    ensures Step(d, PathLine(ps)) == Outcome(d.(paths := d.paths + [ps]), None)
  {
    FindPairsOfPathLine(ps);
    var line := PathLine(ps);
    assert line[..4] == "PATH";
    StartsWithHead(line, "PATH");
    NotStartsWith(line, "UNITS", 0);
    NotStartsWith(line, "DIEAREA", 0);
    NotStartsWith(line, "ROWHEIGHT", 0);
    NotStartsWith(line, "SITEWIDTH", 0);
    NotStartsWith(line, "ROWS", 0);
    NotStartsWith(line, "SITES", 0);
    NotStartsWith(line, "TRANSISTOROFFSET", 0);
    NotStartsWith(line, "TRANSISTOR", 0);
    NotStartsWith(line, "PIN", 1);
    NotStartsWith(line, "SDC", 0);
  }

  // ---------------------------------------------------------------------
  // Whole reads.

  /** Reading `a + b` is reading `a`, then, unless it failed, reading `b` from where it stopped. */
  lemma {:induction false} RunConcat(d: Data, a: seq<string>, b: seq<string>)
    ensures Run(d, a + b) == (var o := Run(d, a); if o.error.Some? then o else Run(o.state, b))
    decreases |a|
  {
    if a == [] {
      assert a + b == b;
    } else {
      assert (a + b)[0] == a[0] && (a + b)[1..] == a[1..] + b;
      var o := Step(d, a[0]);
      if o.error.None? {
        RunConcat(o.state, a[1..], b);
      }
    }
  }

  /** A line that fails in every state fails the whole read, wherever it stands. */
  lemma FailingLineFailsRead(d: Data, a: seq<string>, line: string, b: seq<string>)
    requires forall e: Data :: Step(e, line).error.Some?
    ensures Run(d, a + [line] + b).error.Some?
  {
    RunConcat(d, a, [line] + b);
    assert a + [line] + b == a + ([line] + b);
    var o := Run(d, a);
    if o.error.None? {
      assert ([line] + b)[0] == line;
    }
  }

  lemma {:induction false} AddAllAppends(d: Data, ts: seq<Transistor<string>>)
    ensures AddAll(d, ts).transistors == d.transistors + ts
    ensures AddAll(d, ts).pins == d.pins && AddAll(d, ts).sdcs == d.sdcs && AddAll(d, ts).paths == d.paths
    ensures Consistent(d) ==> Consistent(AddAll(d, ts))
    decreases |ts|
  {
    if ts != [] {
      if Consistent(d) {
        AddTransistorConsistent(d, ts[0]);
      }
      AddAllAppends(AddTransistor(d, ts[0]), ts[1..]);
      assert d.transistors + [ts[0]] + ts[1..] == d.transistors + ts;
    }
  }

  /** TRANSISTOR lines are all accepted and store their transistors in file order. */
  lemma {:induction false} RunTransistorLines(d: Data, ts: seq<Transistor<string>>)
    requires forall i :: 0 <= i < |ts| ==> Writable(ts[i])
    ensures Run(d, TransistorLines(ts)) == Outcome(AddAll(d, ts), None)
    decreases |ts|
  {
    if ts != [] {
      TransistorLineStored(d, ts[0]);
      assert TransistorLines(ts)[1..] == TransistorLines(ts[1..]);
      RunTransistorLines(AddTransistor(d, ts[0]), ts[1..]);
    }
  }

  /** From the empty data, TRANSISTOR lines leave exactly those transistors, with their group counts. */
  lemma ReadTransistorLines(ts: seq<Transistor<string>>)
    requires forall i :: 0 <= i < |ts| ==> Writable(ts[i])
    ensures var o := Run(EmptyData, TransistorLines(ts));
      o.error.None? && o.state.transistors == ts && o.state.sdcGroup == GroupCounts(ts)
  {
    RunTransistorLines(EmptyData, ts);
    AddAllAppends(EmptyData, ts);
  }

  // The text of three TRANSISTOR lines, worked out once each.

  lemma FirstLineText()
    ensures JoinWords(["TRANSISTOR", "T1", "0", "0", "0", "NMOS", "g1"]) == "TRANSISTOR T1 0 0 0 NMOS g1"
  {
    JoinSevenWords("TRANSISTOR", "T1", "0", "0", "0", "NMOS", "g1");
  }

  lemma SecondLineText()
    ensures JoinWords(["TRANSISTOR", "T2", "1", "0", "0", "PMOS", "g1"]) == "TRANSISTOR T2 1 0 0 PMOS g1"
  {
    JoinSevenWords("TRANSISTOR", "T2", "1", "0", "0", "PMOS", "g1");
  }

  lemma ThirdLineText()
    ensures JoinWords(["TRANSISTOR", "T3", "2", "0", "0", "NMOS", "g1"]) == "TRANSISTOR T3 2 0 0 NMOS g1"
  {
    JoinSevenWords("TRANSISTOR", "T3", "2", "0", "0", "NMOS", "g1");
  }

  const ThreeOfOneGroup: seq<Transistor<string>> :=
    [Transistor("T1", 0, 0, 0, "NMOS", "g1"), Transistor("T2", 1, 0, 0, "PMOS", "g1"), Transistor("T3", 2, 0, 0, "NMOS", "g1")]

  lemma ThreeOfOneGroupLines()
    ensures TransistorLines(ThreeOfOneGroup)
         == ["TRANSISTOR T1 0 0 0 NMOS g1", "TRANSISTOR T2 1 0 0 PMOS g1", "TRANSISTOR T3 2 0 0 NMOS g1"]
  {
    var ts := ThreeOfOneGroup;
    assert FormatInt(0) == "0" && FormatInt(1) == "1" && FormatInt(2) == "2";
    assert KeywordLine(TransistorKey, TransistorWords(ts[0])) == "TRANSISTOR T1 0 0 0 NMOS g1" by {
      assert [KeywordText(TransistorKey)] + TransistorWords(ts[0]) == ["TRANSISTOR", "T1", "0", "0", "0", "NMOS", "g1"];
      FirstLineText();
    }
    assert KeywordLine(TransistorKey, TransistorWords(ts[1])) == "TRANSISTOR T2 1 0 0 PMOS g1" by {
      assert [KeywordText(TransistorKey)] + TransistorWords(ts[1]) == ["TRANSISTOR", "T2", "1", "0", "0", "PMOS", "g1"];
      SecondLineText();
    }
    assert KeywordLine(TransistorKey, TransistorWords(ts[2])) == "TRANSISTOR T3 2 0 0 NMOS g1" by {
      assert [KeywordText(TransistorKey)] + TransistorWords(ts[2]) == ["TRANSISTOR", "T3", "2", "0", "0", "NMOS", "g1"];
      ThirdLineText();
    }
  }

  lemma ThreeOfOneGroupCounts()
    ensures GroupCounts(ThreeOfOneGroup) == map["g1" := 3]
  {
    var ts := ThreeOfOneGroup;
    assert ts[..1][..0] == [];
    assert GroupCounts(ts[..1]) == map["g1" := 1];
    assert ts[..2][..1] == ts[..1];
    assert GroupCounts(ts[..2]) == map["g1" := 2];
    assert ts[..2] == ts[..|ts| - 1];
  }

  /** Three TRANSISTOR lines of one group: all stored, and the group counted three times. */
  lemma ThreeTransistorsOneGroup()
    ensures var o := Run(EmptyData, ["TRANSISTOR T1 0 0 0 NMOS g1", "TRANSISTOR T2 1 0 0 PMOS g1", "TRANSISTOR T3 2 0 0 NMOS g1"]);
      o.error.None? && o.state.transistors == ThreeOfOneGroup && o.state.sdcGroup == map["g1" := 3]
  {
    ThreeOfOneGroupLines();
    ThreeOfOneGroupCounts();
    ReadTransistorLines(ThreeOfOneGroup);
  }

  /** A line such as `FOO 1 2` fails the read wherever it stands. */
  lemma ForeignLineFailsRead(d: Data, a: seq<string>, b: seq<string>)
    ensures Run(d, a + ["FOO 1 2"] + b).error.Some?
  {
    forall i | 0 <= i < |Keywords| ensures !StartsWith("FOO 1 2", Keywords[i]) {
      assert Keywords[i][0] != 'F';
      NotStartsWith("FOO 1 2", Keywords[i], 0);
    }
    forall e: Data ensures Step(e, "FOO 1 2").error.Some? {
      UnknownLineFails(e, "FOO 1 2");
    }
    FailingLineFailsRead(d, a, "FOO 1 2", b);
  }


  // ---------------------------------------------------------------------
  // The reader object.

  class ReaderV2 {
    var data: Data

    ghost predicate Valid()
      reads this
    {
      Consistent(data)
    }

    constructor ()
      ensures Valid() && data == EmptyData
    {
      data := EmptyData;
    }

    /** `get_data`: a copy of the data, whose counts always add up to the stored list. */
    function GetData(): (d: Data)
      reads this
      requires Valid()
      ensures d == data
      ensures SumValues(d.sdcGroup) == |d.transistors|
    {
      GroupCountsSum(data.transistors);
      data
    }

    /** `_parse_transistor`: parse the record and count it in its group (the append is the caller's). */
    method ParseTransistor(line: string) returns (r: Result<Transistor<string>, ParseError>)
      modifies this
      ensures r == TransistorRecord(line)
      ensures data == if r.Ok? then old(data).(sdcGroup := Bump(old(data).sdcGroup, r.value.group)) else old(data)
    {
      r := TransistorRecord(line);
      if r.Ok? {
        var g := r.value.group;
        if g !in data.sdcGroup {
          data := data.(sdcGroup := data.sdcGroup[g := 1]);
        } else {
          data := data.(sdcGroup := data.sdcGroup[g := data.sdcGroup[g] + 1]);
        }
      }
    }

    /** `_parse_line`; the returned error stands for the exception it raises. */
    method ParseLine(line: string) returns (error: Option<ParseError>)
      requires Valid()
      modifies this
      ensures Valid()
      ensures Outcome(data, error) == Step(old(data), line)
    {
      StepConsistent(data, line);
      if StartsWith(line, "UNITS") {
        var v := ParseIntField(line);
        if v.Err? { return Some(v.error); }
        data := data.(units := Some(v.value));
      } else if StartsWith(line, "DIEAREA") {
        var a := ParseDieArea(line);
        if a.Err? { return Some(a.error); }
        data := data.(dieArea := Some(a.value));
      } else if StartsWith(line, "ROWHEIGHT") {
        var v := ParseIntField(line);
        if v.Err? { return Some(v.error); }
        data := data.(rowHeight := Some(v.value));
      } else if StartsWith(line, "SITEWIDTH") {
        var v := ParseIntField(line);
        if v.Err? { return Some(v.error); }
        data := data.(siteWidth := Some(v.value));
      } else if StartsWith(line, "ROWS") {
        var v := ParseIntField(line);
        if v.Err? { return Some(v.error); }
        data := data.(numRows := Some(v.value));
      } else if StartsWith(line, "SITES") {
        var v := ParseIntField(line);
        if v.Err? { return Some(v.error); }
        data := data.(numSites := Some(v.value));
      } else if StartsWith(line, "TRANSISTOROFFSET") {
        var v := ParseIntField(line);
        if v.Err? { return Some(v.error); }
        data := data.(transistorOffset := Some(v.value));
      } else if StartsWith(line, "TRANSISTOR") {
        var t := ParseTransistor(line);
        if t.Err? { return Some(t.error); }
        data := data.(transistors := data.transistors + [t.value]);
      } else if StartsWith(line, "PIN") {
        var p := PinRecord(line);
        if p.Err? { return Some(p.error); }
        data := data.(pins := data.pins + [p.value]);
      } else if StartsWith(line, "SDC") {
        var m := SdcRecord(line);
        if m.Err? { return Some(m.error); }
        data := data.(sdcs := data.sdcs + [m.value]);
      } else if StartsWith(line, "PATH") {
        var ps := FindPairs(line);
        data := data.(paths := data.paths + [ps]);
      } else {
        return Some(UnknownLine);
      }
      return None;
    }

    /** `read` over the file's lines: parse each line, stop at the first error; nothing is reset. */
    method Read(lines: seq<string>) returns (ok: bool)
      requires Valid()
      modifies this
      ensures Valid()
      ensures ok == Run(old(data), lines).error.None?
      ensures data == Run(old(data), lines).state
    {
      ghost var start := data;
      var i := 0;
      while i < |lines|
        invariant 0 <= i <= |lines|
        invariant Valid()
        invariant Run(start, lines) == Run(data, lines[i..])
      {
        assert lines[i..][0] == lines[i] && lines[i..][1..] == lines[i + 1..];
        var error := ParseLine(lines[i]);
        if error.Some? {
          return false;
        }
        i := i + 1;
      }
      return true;
    }
  }
}
