/**
 * The field parsers that reader.py's two readers share word for word
 * (`_parse_int`, `_parse_diearea`); `_parse_diearea` is also the one in
 * base_plot.py and transplot.py.
 */
module Fields {
  import opened Wrappers
  import opened Text
  import opened Numbers
  import opened Placement

  /** `tokens[1:]`, which is empty when there are no tokens. */
  function Rest(ts: seq<string>): (r: seq<string>)
    ensures |ts| > 0 ==> r == ts[1..]
    ensures |ts| == 0 ==> r == []
  {
    if ts == [] then [] else ts[1..]
  }

  /** `_parse_int` of reader.py: a `KEY VALUE` line of exactly two tokens. */
  function ParseIntField(line: string): (r: Result<int, ParseError>)
    ensures r.Ok? <==> |Tokens(line)| == 2 && ParseInt(Tokens(line)[1]).Some?
    ensures r.Ok? ==> ParseInt(Tokens(line)[1]) == Some(r.value)
    ensures |Tokens(line)| != 2 ==> r == Err(FieldCount(2, |Tokens(line)|))
  {
    var ts := Tokens(line);
    if |ts| != 2 then Err(FieldCount(2, |ts|))
    else match ParseInt(ts[1])
      case None => Err(NotAnInteger)
      case Some(v) => Ok(v)
  }

  /** `_parse_diearea`: every token after the keyword is an int, and there are four. */
  function ParseDieArea(line: string): (r: Result<DieArea, ParseError>)
    ensures r.Ok? <==> |Tokens(line)| == 5 && ParseInts(Tokens(line)[1..]).Some?
    ensures r.Ok? ==> ParseInts(Tokens(line)[1..]) == Some([r.value.xl, r.value.yl, r.value.xh, r.value.yh])
    ensures ParseInts(Rest(Tokens(line))).Some? && |Tokens(line)| != 5 ==> r == Err(DieAreaCount(|Rest(Tokens(line))|))
  {
    match ParseInts(Rest(Tokens(line)))
    case None => Err(NotAnInteger)
    case Some(vs) =>
      if |vs| != 4 then Err(DieAreaCount(|vs|))
      else
        assert vs == [vs[0], vs[1], vs[2], vs[3]];
        Ok(DieArea(vs[0], vs[1], vs[2], vs[3]))
  }

  /** The `KEY VALUE` line that writes `n`. */
  function IntLine(key: string, n: int): string {
    JoinWords([key, FormatInt(n)])
  }

  lemma IntLineText(key: string, n: int)
    ensures IntLine(key, n) == key + " " + FormatInt(n)
  {
    var ws := [key, FormatInt(n)];
    assert ws[1..] == [FormatInt(n)];
    assert JoinWords(ws[1..]) == FormatInt(n);
    assert JoinWords(ws) == ws[0] + " " + JoinWords(ws[1..]);
  }

  /** The `DIEAREA xl yl xh yh` line that writes `d`. */
  function DieAreaLine(key: string, d: DieArea): string {
    JoinWords([key] + FormatInts([d.xl, d.yl, d.xh, d.yh]))
  }

  lemma TokensOfIntLine(key: string, n: int)
    requires IsWord(key)
    ensures Tokens(IntLine(key, n)) == [key, FormatInt(n)]
  {
    TokensOfJoinWords([key, FormatInt(n)]);
  }

  lemma TokensOfDieAreaLine(key: string, d: DieArea)
    requires IsWord(key)
    ensures Tokens(DieAreaLine(key, d)) == [key] + FormatInts([d.xl, d.yl, d.xh, d.yh])
  {
    TokensOfJoinWords([key] + FormatInts([d.xl, d.yl, d.xh, d.yh]));
  }

  /** `_parse_int` reads back the value a `KEY VALUE` line writes. */
  lemma ParseIntFieldOfIntLine(key: string, n: int)
    requires IsWord(key)
    ensures ParseIntField(IntLine(key, n)) == Ok(n)
  {
    TokensOfIntLine(key, n);
    ParseIntOfFormatInt(n);
  }

  /** `_parse_diearea` reads back the four corners a DIEAREA line writes. */
  lemma ParseDieAreaOfDieAreaLine(key: string, d: DieArea)
    requires IsWord(key)
    ensures ParseDieArea(DieAreaLine(key, d)) == Ok(d)
  {
    var vs := [d.xl, d.yl, d.xh, d.yh];
    TokensOfDieAreaLine(key, d);
    assert Rest(Tokens(DieAreaLine(key, d))) == FormatInts(vs);
    ParseIntsOfFormatInts(vs);
  }
}
