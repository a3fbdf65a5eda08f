/**
 * `Transplot` of transplot.py: the same lenient reader as BasePlot, and the
 * fill choice that `generate_transistor_rectangles` makes per transistor.
 */
module Transplot {
  import opened Wrappers
  import opened Text
  import opened Placement
  import opened Fields
  import opened Lenient

  /** Number of entries in `self.colors`. */
  const PaletteSize: nat := 20

  /** The fill of a transistor: the neutral inverter fill, or an entry of the palette. */
  datatype Fill = Inverter | Palette(index: nat)

  /** The keys of both `transistor_alpha` and `transistor_alpha_inv` in `self.params`. */
  const AlphaTypes: set<string> := {"NMOS", "PMOS"}

  /** The `KeyError` of the alpha lookup: a transistor type neither table has. */
  datatype FillError = UnknownType(kind: string)

  /**
   * The branch of `gen_rect`: a group of at most two transistors is drawn as
   * an inverter, any other group takes palette entry `sdc % 20`. Python's `%`
   * and Dafny's agree for a positive divisor: the index is never negative.
   */
  function FillFor(sdcGroup: map<int, nat>, group: int): (f: Fill)
    requires group in sdcGroup
    ensures f == Inverter <==> sdcGroup[group] <= 2
    ensures f.Palette? ==> 0 <= f.index < PaletteSize && (group - f.index) % PaletteSize == 0
  {
    if sdcGroup[group] <= 2 then Inverter else Palette(group % PaletteSize)
  }

  /** The lookup `sdc_group[transistor['sdc']]` never misses, and finds the size of the transistor's group. */
  lemma LookupNeverMisses(d: Data, i: nat)
    requires Consistent(d) && i < |d.transistors|
    ensures d.transistors[i].group in d.sdcGroup
    ensures d.sdcGroup[d.transistors[i].group] == Occurrences(d.transistors, d.transistors[i].group) >= 1
  {
    StoredGroupsAreKeys(d.transistors, i);
    GroupCountsAreOccurrences(d.transistors, d.transistors[i].group);
  }

  /** After any read, a transistor is drawn as an inverter exactly when at most two stored transistors share its group. */
  lemma InverterIffSmallGroup(d: Data, lines: seq<string>, i: nat)
    requires Consistent(d) && i < |Run(d, lines).transistors|
    ensures var e := Run(d, lines);
      e.transistors[i].group in e.sdcGroup
      && (FillFor(e.sdcGroup, e.transistors[i].group) == Inverter <==> Occurrences(e.transistors, e.transistors[i].group) <= 2)
  {
    RunConsistent(d, lines);
    LookupNeverMisses(Run(d, lines), i);
  }

  class Transplot {
    var data: Data

    ghost predicate Valid()
      reads this
    {
      Consistent(data)
    }

    constructor ()
      ensures Valid() && data == EmptyData
    {
      data := EmptyData;
    }

    /** `get_data`: the data, whose counts always add up to the stored list. */
    function GetData(): (d: Data)
      reads this
      requires Valid()
      ensures d == data
      ensures SumValues(d.sdcGroup) == |d.transistors|
    {
      GroupCountsSum(data.transistors);
      data
    }

    /** `_parse_transistor`: parse the record and count it in its group (the append is the caller's). */
    method ParseTransistor(line: string) returns (r: Result<Transistor<int>, ParseError>)
      modifies this
      ensures r == TransistorRecord(line)
      ensures data == if r.Ok? then old(data).(sdcGroup := Bump(old(data).sdcGroup, r.value.group)) else old(data)
    {
      r := TransistorRecord(line);
      if r.Ok? {
        var g := r.value.group;
        if g !in data.sdcGroup {
          data := data.(sdcGroup := data.sdcGroup[g := 1]);
        } else {
          data := data.(sdcGroup := data.sdcGroup[g := data.sdcGroup[g] + 1]);
        }
      }
    }

    /** `_parse_line`; the returned error stands for the message printed for a caught exception. */
    method ParseLine(line: string) returns (error: Option<ParseError>)
      requires Valid()
      modifies this
      ensures Valid()
      ensures Outcome(data, error) == Step(old(data), line)
    {
      StepConsistent(data, line);
      error := None;
      if StartsWith(line, "UNITS") {
        var v := IntField(line);
        if v.Err? { return Some(v.error); }
        data := data.(units := Some(v.value));
      } else if StartsWith(line, "DIEAREA") {
        var a := ParseDieArea(line);
        if a.Err? { return Some(a.error); }
        data := data.(dieArea := Some(a.value));
      } else if StartsWith(line, "ROWHEIGHT") {
        var v := IntField(line);
        if v.Err? { return Some(v.error); }
        data := data.(rowHeight := Some(v.value));
      } else if StartsWith(line, "SITEWIDTH") {
        var v := IntField(line);
        if v.Err? { return Some(v.error); }
        data := data.(siteWidth := Some(v.value));
      } else if StartsWith(line, "ROWS") {
        var v := IntField(line);
        if v.Err? { return Some(v.error); }
        data := data.(numRows := Some(v.value));
      } else if StartsWith(line, "SITES") {
        var v := IntField(line);
        if v.Err? { return Some(v.error); }
        data := data.(numSites := Some(v.value));
      } else if StartsWith(line, "TRANSISTOR") {
        var t := ParseTransistor(line);
        if t.Err? { return Some(t.error); }
        data := data.(transistors := data.transistors + [t.value]);
      }
    }

    /** `read` over the file's lines: every line is parsed, whatever the ones before it reported. */
    method Read(lines: seq<string>)
      requires Valid()
      modifies this
      ensures Valid()
      ensures data == Run(old(data), lines)
    {
      ghost var start := data;
      var i := 0;
      while i < |lines|
        invariant 0 <= i <= |lines|
        invariant Valid()
        invariant Run(start, lines) == Run(data, lines[i..])
      {
        assert lines[i..][0] == lines[i] && lines[i..][1..] == lines[i + 1..];
        var _ := ParseLine(lines[i]);
        i := i + 1;
      }
    }

    /**
     * The fills `generate_transistor_rectangles` picks, one per stored
     * transistor in order; the first transistor whose type has no alpha
     * aborts the whole generation.
     */
    method TransistorFills() returns (r: Result<seq<Fill>, FillError>)
      requires Valid()
      ensures r.Err? <==> exists i :: 0 <= i < |data.transistors| && data.transistors[i].kind !in AlphaTypes
      ensures r.Err? ==>
        exists k ::
          && 0 <= k < |data.transistors| && data.transistors[k].kind !in AlphaTypes
          && r.error == UnknownType(data.transistors[k].kind)
          && forall j :: 0 <= j < k ==> data.transistors[j].kind in AlphaTypes
      ensures r.Ok? ==> |r.value| == |data.transistors|
      ensures r.Ok? ==> forall i :: 0 <= i < |r.value| ==>
        data.transistors[i].group in data.sdcGroup && r.value[i] == FillFor(data.sdcGroup, data.transistors[i].group)
      ensures r.Ok? ==> forall i :: 0 <= i < |r.value| ==>
        (r.value[i] == Inverter <==> Occurrences(data.transistors, data.transistors[i].group) <= 2)
    {
      var fills := [];
      var i := 0;
      while i < |data.transistors|
        invariant 0 <= i <= |data.transistors| && |fills| == i
        invariant forall j :: 0 <= j < i ==> data.transistors[j].kind in AlphaTypes
        invariant forall j :: 0 <= j < i ==>
          data.transistors[j].group in data.sdcGroup && fills[j] == FillFor(data.sdcGroup, data.transistors[j].group)
        invariant forall j :: 0 <= j < i ==>
          (fills[j] == Inverter <==> Occurrences(data.transistors, data.transistors[j].group) <= 2)
      {
        LookupNeverMisses(data, i);
        var t := data.transistors[i];
        var fill := if data.sdcGroup[t.group] <= 2 then Inverter else Palette(t.group % PaletteSize);
        if t.kind !in AlphaTypes {
          return Err(UnknownType(t.kind));
        }
        fills := fills + [fill];
        i := i + 1;
      }
      return Ok(fills);
    }
  }
}
