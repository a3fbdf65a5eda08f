/**
 * The lenient reader that base_plot.py and transplot.py both carry, word for
 * word: keyword prefix dispatch over UNITS, DIEAREA, ROWHEIGHT, SITEWIDTH,
 * ROWS, SITES and TRANSISTOR. A line that matches no keyword is skipped; a
 * line whose parse raises ValueError or IndexError is reported and skipped,
 * and because every conversion happens before any update, it leaves the
 * data as it was. The read never stops early and reports nothing.
 */
module Lenient {
  import opened Wrappers
  import opened Text
  import opened Numbers
  import opened Placement
  import opened Fields

  /** `self.data` of a BasePlot or a Transplot; group ids are ints here. */
  datatype Data = Data(
    units: Option<int>,
    dieArea: Option<DieArea>,
    rowHeight: Option<int>,
    siteWidth: Option<int>,
    numRows: Option<int>,
    numSites: Option<int>,
    transistors: seq<Transistor<int>>,
    sdcGroup: map<int, nat>)

  const EmptyData := Data(None, None, None, None, None, None, [], map[])

  predicate Consistent(d: Data) {
    CountsMatch(d.transistors, d.sdcGroup)
  }

  /** `_parse_int`: the second token as an int; tokens after it are not looked at. */
  function IntField(line: string): (r: Result<int, ParseError>)
    ensures r.Ok? <==> |Tokens(line)| >= 2 && ParseInt(Tokens(line)[1]).Some?
    ensures r.Ok? ==> ParseInt(Tokens(line)[1]) == Some(r.value)
    ensures |Tokens(line)| < 2 ==> r == Err(MissingField)
  {
    var ts := Tokens(line);
    if |ts| < 2 then Err(MissingField)
    else match ParseInt(ts[1])
      case None => Err(NotAnInteger)
      case Some(v) => Ok(v)
  }

  /** The record part of `_parse_transistor`: at least seven tokens, the group converted to an int. */
  function TransistorRecord(line: string): (r: Result<Transistor<int>, ParseError>)
    ensures |Tokens(line)| < 7 ==> r == Err(TooFewFields)
    ensures r.Ok? <==>
      var ts := Tokens(line);
      |ts| >= 7 && ParseInt(ts[2]).Some? && ParseInt(ts[3]).Some? && ParseInt(ts[4]).Some? && ParseInt(ts[6]).Some?
    ensures r.Ok? ==>
      var ts := Tokens(line);
      && r.value.name == ts[1] && r.value.kind == ts[5]
      && ParseInt(ts[2]) == Some(r.value.x) && ParseInt(ts[3]) == Some(r.value.y)
      && ParseInt(ts[4]) == Some(r.value.flipped) && ParseInt(ts[6]) == Some(r.value.group)
  {
    var ts := Tokens(line);
    if |ts| < 7 then Err(TooFewFields)
    else match (ParseInt(ts[2]), ParseInt(ts[3]), ParseInt(ts[4]), ParseInt(ts[6]))
      case (Some(x), Some(y), Some(f), Some(g)) => Ok(Transistor(ts[1], x, y, f, ts[5], g))
      case _ => Err(NotAnInteger)
  }

  /** `_parse_transistor` followed by the append: store `t` and count it in its group. */
  function AddTransistor(d: Data, t: Transistor<int>): Data {
    d.(transistors := d.transistors + [t], sdcGroup := Bump(d.sdcGroup, t.group))
  }

  /** The keywords, in the order `_parse_line` tests them. */
  datatype Keyword = Units | DieAreaKey | RowHeight | SiteWidth | Rows | Sites | TransistorKey | Unknown

  /** Prefix dispatch: the first keyword the line starts with. */
  function Classify(line: string): Keyword {
    if StartsWith(line, "UNITS") then Units
    else if StartsWith(line, "DIEAREA") then DieAreaKey
    else if StartsWith(line, "ROWHEIGHT") then RowHeight
    else if StartsWith(line, "SITEWIDTH") then SiteWidth
    else if StartsWith(line, "ROWS") then Rows
    else if StartsWith(line, "SITES") then Sites
    else if StartsWith(line, "TRANSISTOR") then TransistorKey
    else Unknown
  }

  function KeywordText(k: Keyword): string {
    match k
    case Units => "UNITS"
    case DieAreaKey => "DIEAREA"
    case RowHeight => "ROWHEIGHT"
    case SiteWidth => "SITEWIDTH"
    case Rows => "ROWS"
    case Sites => "SITES"
    case TransistorKey => "TRANSISTOR"
    case Unknown => ""
  }

  /** The keywords whose value is the second token, stored in a field. */
  predicate IsScalar(k: Keyword) {
    k in {Units, RowHeight, SiteWidth, Rows, Sites}
  }

  /** The field assignment of a scalar line. */
  function Store(d: Data, k: Keyword, v: int): Data
    requires IsScalar(k)
  {
    match k
    case Units => d.(units := Some(v))
    case RowHeight => d.(rowHeight := Some(v))
    case SiteWidth => d.(siteWidth := Some(v))
    case Rows => d.(numRows := Some(v))
    case Sites => d.(numSites := Some(v))
  }

  /**
   * `_parse_line`: the new data, and the error it reported, if any.
   * A reported error never comes with a change, and a line of no keyword
   * is neither reported nor stored.
   */
  function Step(d: Data, line: string): (r: Outcome<Data>)
    ensures r.error.Some? ==> r.state == d
    ensures Classify(line) == Unknown ==> r == Outcome(d, None)
  {
    match Classify(line)
    case DieAreaKey =>
      (match ParseDieArea(line)
       case Err(e) => Outcome(d, Some(e))
       case Ok(a) => Outcome(d.(dieArea := Some(a)), None))
    case TransistorKey =>
      (match TransistorRecord(line)
       case Err(e) => Outcome(d, Some(e))
       case Ok(t) => Outcome(AddTransistor(d, t), None))
    case Unknown => Outcome(d, None)
    case k =>
      (match IntField(line)
       case Err(e) => Outcome(d, Some(e))
       case Ok(v) => Outcome(Store(d, k, v), None))
  }

  /** The loop of `read`: every line in turn, whatever it reports. */
  function Run(d: Data, lines: seq<string>): Data
    decreases |lines|
  {
    if lines == [] then d else Run(Step(d, lines[0]).state, lines[1..])
  }

  // ---------------------------------------------------------------------
  // Line formats, for the lemmas that say which lines are stored.

  const Keywords: seq<string> := ["UNITS", "DIEAREA", "ROWHEIGHT", "SITEWIDTH", "ROWS", "SITES", "TRANSISTOR"]

  predicate MatchesKeyword(line: string) {
    exists i :: 0 <= i < |Keywords| && StartsWith(line, Keywords[i])
  }

  /** The line that starts with keyword `k` followed by the words `ws`. */
  function KeywordLine(k: Keyword, ws: seq<string>): string {
    JoinWords([KeywordText(k)] + ws)
  }

  /** `TRANSISTOR name x y flipped type sdc`, without the keyword. */
  function TransistorWords(t: Transistor<int>): seq<string> {
    [t.name, FormatInt(t.x), FormatInt(t.y), FormatInt(t.flipped), t.kind, FormatInt(t.group)]
  }

  // ---------------------------------------------------------------------
  // Dispatch.

  /** A keyword followed by a space is dispatched to that keyword: none starts with one tested before it. */
  lemma ClassifyKeywordLine(k: Keyword, rest: string)
    requires k != Unknown
    requires rest != [] && rest[0] == ' '
    ensures Classify(KeywordText(k) + rest) == k
  {
    var key := KeywordText(k);
    var line := key + rest;
    assert line[..|key|] == key;
    assert line[|key|] == ' ';
    match k
    case Units =>
    case DieAreaKey =>
      NotStartsWith(line, "UNITS", 0);
    case RowHeight =>
      NotStartsWith(line, "UNITS", 0);
      NotStartsWith(line, "DIEAREA", 0);
    case SiteWidth =>
      NotStartsWith(line, "UNITS", 0);
      NotStartsWith(line, "DIEAREA", 0);
      NotStartsWith(line, "ROWHEIGHT", 0);
    case Rows =>
      NotStartsWith(line, "UNITS", 0);
      NotStartsWith(line, "DIEAREA", 0);
      NotStartsWith(line, "ROWHEIGHT", 3);
      NotStartsWith(line, "SITEWIDTH", 0);
    case Sites =>
      NotStartsWith(line, "UNITS", 0);
      NotStartsWith(line, "DIEAREA", 0);
      NotStartsWith(line, "ROWHEIGHT", 0);
      NotStartsWith(line, "SITEWIDTH", 4);
      NotStartsWith(line, "ROWS", 0);
    case TransistorKey =>
      NotStartsWith(line, "UNITS", 0);
      NotStartsWith(line, "DIEAREA", 0);
      NotStartsWith(line, "ROWHEIGHT", 0);
      NotStartsWith(line, "SITEWIDTH", 0);
      NotStartsWith(line, "ROWS", 0);
      NotStartsWith(line, "SITES", 0);
  }

  /** A keyword line with at least one word after the keyword is dispatched to that keyword. */
  lemma ClassifyWordsLine(k: Keyword, ws: seq<string>)
    requires k != Unknown && ws != []
    ensures Classify(KeywordLine(k, ws)) == k
  {
    JoinWordsCons(KeywordText(k), ws);
    ClassifyKeywordLine(k, " " + JoinWords(ws));
    assert KeywordText(k) + " " + JoinWords(ws) == KeywordText(k) + (" " + JoinWords(ws));
  }

  /** Dispatch picks a keyword the line starts with, and skips the line only when it starts with none. */
  lemma ClassifyMeaning(line: string)
    ensures Classify(line) != Unknown ==> StartsWith(line, KeywordText(Classify(line)))
    ensures Classify(line) == Unknown <==> !MatchesKeyword(line)
  {
    if MatchesKeyword(line) {
      var i :| 0 <= i < |Keywords| && StartsWith(line, Keywords[i]);
      assert Classify(line) != Unknown;
    }
    if Classify(line) != Unknown {
      var k := Classify(line);
      var i := match k
        case Units => 0 case DieAreaKey => 1 case RowHeight => 2 case SiteWidth => 3
        case Rows => 4 case Sites => 5 case _ => 6;
      assert Keywords[i] == KeywordText(k);
    }
  }

  /** A line that starts with no keyword, the empty line among them, is skipped silently. */
  lemma UnknownLineIgnored(d: Data, line: string)
    requires !MatchesKeyword(line)
    ensures Step(d, line) == Outcome(d, None)
  {
    ClassifyMeaning(line);
  }

  // ---------------------------------------------------------------------
  // The group counts.

  lemma StepConsistent(d: Data, line: string)
    requires Consistent(d)
    ensures Consistent(Step(d, line).state)
  {
    if Classify(line) == TransistorKey {
      var r := TransistorRecord(line);
      if r.Ok? {
        CountsMatchAppend(d.transistors, d.sdcGroup, r.value);
      }
    }
  }

  /** After any sequence of lines, `sdc_group` is the group count of the stored transistors. */
  lemma {:induction false} RunConsistent(d: Data, lines: seq<string>)
    requires Consistent(d)
    ensures Consistent(Run(d, lines))
    decreases |lines|
  {
    if lines != [] {
      StepConsistent(d, lines[0]);
      RunConsistent(Step(d, lines[0]).state, lines[1..]);
    }
  }

  /** So each count is the number of transistors of that group, and the counts sum to the list's length. */
  lemma RunCounts(d: Data, lines: seq<string>)
    requires Consistent(d)
    ensures var e := Run(d, lines);
      && (forall g :: g in e.sdcGroup ==> e.sdcGroup[g] == Occurrences(e.transistors, g))
      && SumValues(e.sdcGroup) == |e.transistors|
  {
    RunConsistent(d, lines);
    var e := Run(d, lines);
    forall g | g in e.sdcGroup ensures e.sdcGroup[g] == Occurrences(e.transistors, g) {
      GroupCountsAreOccurrences(e.transistors, g);
    }
    GroupCountsSum(e.transistors);
  }

  // ---------------------------------------------------------------------
  // Header lines.

  /** A scalar line stores its second token, whatever words follow it. */
  lemma ScalarLineStored(d: Data, k: Keyword, n: int, extra: seq<string>)
    requires IsScalar(k) && AllWords(extra)
    ensures Step(d, KeywordLine(k, [FormatInt(n)] + extra)) == Outcome(Store(d, k, n), None)
  {
    var ws := [KeywordText(k)] + ([FormatInt(n)] + extra);
    assert ws[1] == FormatInt(n);
    TokensOfJoinWords(ws);
    ParseIntOfFormatInt(n);
    ClassifyWordsLine(k, [FormatInt(n)] + extra);
  }

  /** A scalar keyword with nothing after it reports a missing field and changes nothing. */
  lemma ScalarLineNeedsValue(d: Data, line: string)
    requires IsScalar(Classify(line)) && |Tokens(line)| < 2
    ensures Step(d, line) == Outcome(d, Some(MissingField))
  {
  }

  /** DIEAREA is stored exactly when four integers follow the keyword; otherwise nothing changes. */
  lemma DieAreaNeedsFourIntegers(d: Data, line: string)
    requires StartsWith(line, "DIEAREA")
    ensures Step(d, line).error.None? <==> |Tokens(line)| == 5 && ParseInts(Tokens(line)[1..]).Some?
    ensures Step(d, line).error.None? ==> Step(d, line).state == d.(dieArea := Some(ParseDieArea(line).value))
    ensures Step(d, line).error.Some? ==> Step(d, line).state == d
  {
    StartsWithHead(line, "DIEAREA");
  }

  /** A DIEAREA line stores the corners it writes. */
  lemma DieAreaLineStored(d: Data, a: DieArea)
    ensures Step(d, DieAreaLine("DIEAREA", a)) == Outcome(d.(dieArea := Some(a)), None)
  {
    var line := DieAreaLine("DIEAREA", a);
    ParseDieAreaOfDieAreaLine("DIEAREA", a);
    assert line[..7] == "DIEAREA";
    StartsWithHead(line, "DIEAREA");
    NotStartsWith(line, "UNITS", 0);
  }

  // ---------------------------------------------------------------------
  // Transistor lines.

  /** The tokens of a TRANSISTOR line are its words. */
  lemma TokensOfTransistorLine(t: Transistor<int>, extra: seq<string>)
    requires IsWord(t.name) && IsWord(t.kind) && AllWords(extra)
    ensures var ts := Tokens(KeywordLine(TransistorKey, TransistorWords(t) + extra));
      && |ts| >= 7 && ts[1] == t.name && ts[2] == FormatInt(t.x) && ts[3] == FormatInt(t.y)
      && ts[4] == FormatInt(t.flipped) && ts[5] == t.kind && ts[6] == FormatInt(t.group)
  {
    var ws := [KeywordText(TransistorKey)] + (TransistorWords(t) + extra);
    assert ws[1..7] == TransistorWords(t);
    TokensOfJoinWords(ws);
  }

  /** `_parse_transistor` reads back the record a TRANSISTOR line writes. */
  lemma TransistorRecordOfLine(t: Transistor<int>, extra: seq<string>)
    requires IsWord(t.name) && IsWord(t.kind) && AllWords(extra)
    ensures TransistorRecord(KeywordLine(TransistorKey, TransistorWords(t) + extra)) == Ok(t)
  {
    TokensOfTransistorLine(t, extra);
    ParseIntOfFormatInt(t.x);
    ParseIntOfFormatInt(t.y);
    ParseIntOfFormatInt(t.flipped);
    ParseIntOfFormatInt(t.group);
  }

  /** A TRANSISTOR line stores its record and counts its group, whatever words follow the group. */
  lemma TransistorLineStored(d: Data, t: Transistor<int>, extra: seq<string>)
    requires IsWord(t.name) && IsWord(t.kind) && AllWords(extra)
    ensures Step(d, KeywordLine(TransistorKey, TransistorWords(t) + extra)) == Outcome(AddTransistor(d, t), None)
  {
    TransistorRecordOfLine(t, extra);
    ClassifyWordsLine(TransistorKey, TransistorWords(t) + extra);
  }

  /** A TRANSISTOR line whose group is not an integer is reported and changes nothing. */
  lemma NonIntegerGroupRejected(d: Data, line: string)
    requires Classify(line) == TransistorKey
    requires |Tokens(line)| >= 7 && ParseInt(Tokens(line)[6]).None?
    ensures Step(d, line) == Outcome(d, Some(NotAnInteger))
  {
  }

  /** Every line that starts with TRANSISTOR reaches the TRANSISTOR branch: no earlier keyword starts with `T`. */
  lemma ClassifyTransistorPrefix(line: string)
    requires StartsWith(line, "TRANSISTOR")
    ensures Classify(line) == TransistorKey
  {
    StartsWithHead(line, "TRANSISTOR");
    NotStartsWith(line, "UNITS", 0);
    NotStartsWith(line, "DIEAREA", 0);
    NotStartsWith(line, "ROWHEIGHT", 0);
    NotStartsWith(line, "SITEWIDTH", 0);
    NotStartsWith(line, "ROWS", 0);
    NotStartsWith(line, "SITES", 0);
  }

  /** `TRANSISTORS n` and `TRANSISTOROFFSET n` have two tokens and start with TRANSISTOR. */
  lemma ShortTransistorLineShape(key: string, n: int)
    requires key in {"TRANSISTORS", "TRANSISTOROFFSET"}
    ensures |Tokens(IntLine(key, n))| == 2 && StartsWith(IntLine(key, n), "TRANSISTOR")
  {
    var line := IntLine(key, n);
    TokensOfIntLine(key, n);
    IntLineText(key, n);
    assert line[..10] == key[..10];
  }

  /** The lines `TRANSISTORS n` and `TRANSISTOROFFSET n` fall in the TRANSISTOR branch, are too short, and change nothing. */
  lemma ShortTransistorLineRejected(d: Data, key: string, n: int)
    requires key in {"TRANSISTORS", "TRANSISTOROFFSET"}
    ensures Step(d, IntLine(key, n)) == Outcome(d, Some(TooFewFields))
  {
    ShortTransistorLineShape(key, n);
    ClassifyTransistorPrefix(IntLine(key, n));
  }

  // ---------------------------------------------------------------------
  // The read as a whole.

  lemma {:induction false} RunConcat(d: Data, a: seq<string>, b: seq<string>)
    ensures Run(d, a + b) == Run(Run(d, a), b)
    decreases |a|
  {
    if a == [] {
      assert a + b == b;
    } else {
      assert (a + b)[0] == a[0] && (a + b)[1..] == a[1..] + b;
      RunConcat(Step(d, a[0]).state, a[1..], b);
    }
  }

  /** A line that is rejected in every state is skipped: the read goes on as if it were not there. */
  lemma RejectedLineSkipped(d: Data, a: seq<string>, line: string, b: seq<string>)
    requires forall e: Data :: Step(e, line).error.Some?
    ensures Run(d, a + [line] + b) == Run(d, a + b)
  {
    RunConcat(d, a + [line], b);
    RunConcat(d, a, [line]);
    RunConcat(d, a, b);
    var e := Run(d, a);
    assert Step(e, line).error.Some?;
    assert Run(e, [line]) == Run(Step(e, line).state, []);
  }
}
