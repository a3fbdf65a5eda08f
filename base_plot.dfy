/**
 * `BasePlot` of base_plot.py: the lenient reader, as an object whose
 * `data` the line parser updates in place.
 */
module BasePlot {
  import opened Wrappers
  import opened Text
  import opened Placement
  import opened Fields
  import opened Lenient

  class BasePlot {
    var data: Data

    ghost predicate Valid()
      reads this
    {
      Consistent(data)
    }

    constructor ()
      ensures Valid() && data == EmptyData
    {
      data := EmptyData;
    }

    /** `get_data`: the data, whose counts always add up to the stored list. */
    function GetData(): (d: Data)
      reads this
      requires Valid()
      ensures d == data
      ensures SumValues(d.sdcGroup) == |d.transistors|
    {
      GroupCountsSum(data.transistors);
      data
    }

    /** `_parse_transistor`: parse the record and count it in its group (the append is the caller's). */
    method ParseTransistor(line: string) returns (r: Result<Transistor<int>, ParseError>)
      modifies this
      ensures r == TransistorRecord(line)
      ensures data == if r.Ok? then old(data).(sdcGroup := Bump(old(data).sdcGroup, r.value.group)) else old(data)
    {
      r := TransistorRecord(line);
      if r.Ok? {
        var g := r.value.group;
        if g !in data.sdcGroup {
          data := data.(sdcGroup := data.sdcGroup[g := 1]);
        } else {
          data := data.(sdcGroup := data.sdcGroup[g := data.sdcGroup[g] + 1]);
        }
      }
    }

    /** `_parse_line`; the returned error stands for the message printed for a caught exception. */
    method ParseLine(line: string) returns (error: Option<ParseError>)
      requires Valid()
      modifies this
      ensures Valid()
      ensures Outcome(data, error) == Step(old(data), line)
    {
      StepConsistent(data, line);
      error := None;
      if StartsWith(line, "UNITS") {
        var v := IntField(line);
        if v.Err? { return Some(v.error); }
        data := data.(units := Some(v.value));
      } else if StartsWith(line, "DIEAREA") {
        var a := ParseDieArea(line);
        if a.Err? { return Some(a.error); }
        data := data.(dieArea := Some(a.value));
      } else if StartsWith(line, "ROWHEIGHT") {
        var v := IntField(line);
        if v.Err? { return Some(v.error); }
        data := data.(rowHeight := Some(v.value));
      } else if StartsWith(line, "SITEWIDTH") {
        var v := IntField(line);
        if v.Err? { return Some(v.error); }
        data := data.(siteWidth := Some(v.value));
      } else if StartsWith(line, "ROWS") {
        var v := IntField(line);
        if v.Err? { return Some(v.error); }
        data := data.(numRows := Some(v.value));
      } else if StartsWith(line, "SITES") {
        var v := IntField(line);
        if v.Err? { return Some(v.error); }
        data := data.(numSites := Some(v.value));
      } else if StartsWith(line, "TRANSISTOR") {
        var t := ParseTransistor(line);
        if t.Err? { return Some(t.error); }
        data := data.(transistors := data.transistors + [t.value]);
      }
    }

    /** `read` over the file's lines: every line is parsed, whatever the ones before it reported. */
    method Read(lines: seq<string>)
      requires Valid()
      modifies this
      ensures Valid()
      ensures data == Run(old(data), lines)
    {
      ghost var start := data;
      var i := 0;
      while i < |lines|
        invariant 0 <= i <= |lines|
        invariant Valid()
        invariant Run(start, lines) == Run(data, lines[i..])
      {
        assert lines[i..][0] == lines[i] && lines[i..][1..] == lines[i + 1..];
        var _ := ParseLine(lines[i]);
        i := i + 1;
      }
    }
  }
}
