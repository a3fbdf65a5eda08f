/**
 * The records every reader builds, the error kinds the readers raise,
 * and the per-group transistor count (`sdc_group`) with its invariant.
 */
module Placement {
  import opened Wrappers

  /** `(x_low, y_low, x_high, y_high)`; the grammar does not order the corners. */
  datatype DieArea = DieArea(xl: int, yl: int, xh: int, yh: int)

  /**
   * One transistor. `G` is the type of the group id (`sdc`): a string in
   * reader.py, an int in base_plot.py and transplot.py. `kind` is the
   * NMOS/PMOS token, passed through uninterpreted.
   */
  datatype Transistor<G> = Transistor(name: string, x: int, y: int, flipped: int, kind: string, group: G)

  datatype Pin = Pin(name: string, x: int, y: int, netName: string)

  datatype SdcMacro = SdcMacro(name: string, macro: string, x: int, y: int, width: int, height: int)

  /**
   * Why a line was rejected. Each kind is one raise in the Python source:
   * IndexError for FieldCount, MissingField and TooFewFields, ValueError for
   * the others.
   */
  datatype ParseError =
    | UnknownLine                           // no keyword prefix matched
    | FieldCount(expected: nat, found: nat) // fixed-width record of the wrong width
    | NotAnInteger                          // int() rejected a token
    | DieAreaCount(found: nat)              // DIEAREA without exactly four values
    | ExpectedEnd                           // full transistor block not closed by END TRANSISTORS
    | MissingField                          // no token after the keyword
    | TooFewFields                          // TRANSISTOR line with fewer than seven tokens

  /** The state after one line, and the error it raised, if any. */
  datatype Outcome<S> = Outcome(state: S, error: Option<ParseError>)

  /** `sdc_group[g] += 1`, or `= 1` for a group not yet seen. */
  function Bump<G>(m: map<G, nat>, g: G): (m': map<G, nat>)
    ensures m'.Keys == m.Keys + {g}
    ensures m'[g] == (if g in m then m[g] else 0) + 1
    ensures forall h :: h in m && h != g ==> m'[h] == m[h]
  {
    if g in m then m[g := m[g] + 1] else m[g := 1]
  }

  /** The `sdc_group` map a reader holds after storing `ts`, one `Bump` per transistor. */
  function GroupCounts<G>(ts: seq<Transistor<G>>): map<G, nat> {
    if ts == [] then map[] else Bump(GroupCounts(ts[..|ts| - 1]), ts[|ts| - 1].group)
  }

  /** Number of transistors in `ts` whose group is `g`. */
  function Occurrences<G(==)>(ts: seq<Transistor<G>>, g: G): nat {
    if ts == [] then 0
    else Occurrences(ts[..|ts| - 1], g) + (if ts[|ts| - 1].group == g then 1 else 0)
  }

  /** The invariant every reader keeps between lines. */
  predicate CountsMatch<G>(ts: seq<Transistor<G>>, m: map<G, nat>) {
    m == GroupCounts(ts)
  }

  /** Sum of the values of a map. */
  ghost function SumValues<K>(m: map<K, nat>): nat
    decreases |m|
  {
    if m == map[] then 0
    else
      var k :| k in m;
      m[k] + SumValues(m - {k})
  }

  lemma GroupCountsAppend<G>(ts: seq<Transistor<G>>, t: Transistor<G>)
    ensures GroupCounts(ts + [t]) == Bump(GroupCounts(ts), t.group)
  {
    assert (ts + [t])[..|ts|] == ts;
  }

  /**
   * The stored count of a group is the number of stored transistors in it,
   * and exactly the groups that occur are keys.
   */
  lemma {:induction false} GroupCountsAreOccurrences<G>(ts: seq<Transistor<G>>, g: G)
    ensures g in GroupCounts(ts) <==> Occurrences(ts, g) > 0
    ensures g in GroupCounts(ts) ==> GroupCounts(ts)[g] == Occurrences(ts, g)
  {
    if ts != [] {
      GroupCountsAreOccurrences(ts[..|ts| - 1], g);
    }
  }

  /** Every stored transistor's group is a key: the lookup `sdc_group[t.sdc]` never misses. */
  lemma {:induction false} StoredGroupsAreKeys<G>(ts: seq<Transistor<G>>, i: nat)
    requires i < |ts|
    ensures ts[i].group in GroupCounts(ts)
    ensures GroupCounts(ts)[ts[i].group] >= 1
  {
    if i < |ts| - 1 {
      StoredGroupsAreKeys(ts[..|ts| - 1], i);
    }
  }

  /** Removing any key takes exactly its value off the sum. */
  lemma {:induction false} SumValuesRemove<K>(m: map<K, nat>, k: K)
    requires k in m
    ensures SumValues(m) == m[k] + SumValues(m - {k})
    decreases |m|
  {
    var k0 :| k0 in m && SumValues(m) == m[k0] + SumValues(m - {k0});
    if k0 != k {
      var rest := m - {k0};
      SumValuesRemove(rest, k);
      SumValuesRemove(m - {k}, k0);
      assert rest - {k} == (m - {k}) - {k0};
    }
  }

  lemma SumValuesBump<K>(m: map<K, nat>, g: K)
    ensures SumValues(Bump(m, g)) == SumValues(m) + 1
  {
    var m' := Bump(m, g);
    SumValuesRemove(m', g);
    assert m' - {g} == m - {g};
    if g in m {
      SumValuesRemove(m, g);
    } else {
      assert m - {g} == m;
    }
  }

  /** The counts add up to the number of stored transistors. */
  lemma {:induction false} GroupCountsSum<G>(ts: seq<Transistor<G>>)
    ensures SumValues(GroupCounts(ts)) == |ts|
  {
    if ts != [] {
      GroupCountsSum(ts[..|ts| - 1]);
      SumValuesBump(GroupCounts(ts[..|ts| - 1]), ts[|ts| - 1].group);
    }
  }

  /** Storing one more transistor and bumping its group keeps the invariant. */
  lemma CountsMatchAppend<G>(ts: seq<Transistor<G>>, m: map<G, nat>, t: Transistor<G>)
    requires CountsMatch(ts, m)
    ensures CountsMatch(ts + [t], Bump(m, t.group))
  {
    GroupCountsAppend(ts, t);
  }
}
