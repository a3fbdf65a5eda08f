/**
 * `_parse_path` of ReaderV2: every non-overlapping match of the pattern
 * `\(\s*(\d+)\s+(\d+)\s*\)`, scanned left to right, as a pair of integers.
 *
 * The pattern's parts are separated by character classes that do not
 * overlap (space, digit, `)`), so each greedy part has exactly one way to
 * match and the match at a position, if any, is unique.
 */
module Paths {
  import opened Wrappers
  import opened Text
  import opened Numbers

  /** A match of the pattern: the two numbers and the number of characters matched. */
  datatype Match = Match(x: int, y: int, length: nat)

  /** Length of the run of white space `\s*` at the start of `s`. */
  function LeadingSpaces(s: string): (n: nat)
    ensures n <= |s|
  {
    if s == [] || !IsSpace(s[0]) then 0 else 1 + LeadingSpaces(s[1..])
  }

  /** Length of the run of digits at the start of `s`; `\d+` matches when it is positive. */
  function LeadingDigits(s: string): (n: nat)
    ensures n <= |s|
    ensures AllDigits(s[..n])
  {
    if s == [] || !IsDigit(s[0]) then 0 else 1 + LeadingDigits(s[1..])
  }

  /**
   * The pattern after its `(`: the two numbers read from the start of `t`
   * and the length of `t` matched, up to and including the `)`.
   */
  function PairBody(t: string): (r: Option<Match>)
    ensures r.Some? ==> 0 < r.value.length <= |t| && r.value.x >= 0 && r.value.y >= 0
  {
    var a := t[LeadingSpaces(t)..];
    var dx := LeadingDigits(a);
    var b := a[dx..];
    var sp := LeadingSpaces(b);
    var c := b[sp..];
    var dy := LeadingDigits(c);
    var d := c[dy..];
    var e := d[LeadingSpaces(d)..];
    if dx > 0 && sp > 0 && dy > 0 && e != [] && e[0] == ')' then
      Some(Match(DigitsValue(a[..dx]), DigitsValue(c[..dy]), |t| - |e| + 1))
    else None
  }

  /** The match of the pattern at the start of `s`: the two numbers and the length matched. */
  function PairAt(s: string): (r: Option<Match>)
    ensures r.Some? ==> 0 < r.value.length <= |s| && r.value.x >= 0 && r.value.y >= 0
    ensures r.Some? ==> s[0] == '('
  {
    if s == [] || s[0] != '(' then None
    else
      var body := PairBody(s[1..]);
      if body.None? then None else Some(body.value.(length := body.value.length + 1))
  }

  predicate NonNegative(ps: seq<(int, int)>) {
    forall i :: 0 <= i < |ps| ==> ps[i].0 >= 0 && ps[i].1 >= 0
  }

  /** `re.findall`: a match is taken and the scan resumes after it; otherwise it moves one character on. */
  function FindPairs(s: string): (ps: seq<(int, int)>)
    ensures forall i :: 0 <= i < |ps| ==> ps[i].0 >= 0 && ps[i].1 >= 0
    decreases |s|
  {
    if s == [] then []
    else
      var m := PairAt(s);
      if m.Some? then [(m.value.x, m.value.y)] + FindPairs(s[m.value.length..])
      else FindPairs(s[1..])
  }

  // ---------------------------------------------------------------------
  // Writing a path, and reading it back.

  /** `(x y)` */
  function PointText(x: nat, y: nat): string {
    "(" + FormatNat(x) + " " + FormatNat(y) + ")"
  }

  /** ` (x y)` for each point. */
  function PointsText(ps: seq<(int, int)>): string
    requires NonNegative(ps)
  {
    if ps == [] then "" else " " + PointText(ps[0].0, ps[0].1) + PointsText(ps[1..])
  }

  /** A PATH line listing the points. */
  function PathLine(ps: seq<(int, int)>): string
    requires NonNegative(ps)
  {
    "PATH" + PointsText(ps)
  }

  /** Characters before the first `(` are skipped. */
  lemma {:induction false} FindPairsSkips(a: string, b: string)
    requires '(' !in a
    ensures FindPairs(a + b) == FindPairs(b)
    decreases |a|
  {
    if a != [] {
      assert (a + b)[0] == a[0] && a[0] in a;
      assert PairAt(a + b) == None;
      assert (a + b)[1..] == a[1..] + b;
      assert FindPairs(a + b) == FindPairs(a[1..] + b);
      FindPairsSkips(a[1..], b);
    } else {
      assert a + b == b;
    }
  }

  /** A line without `(` has no path points. */
  lemma FindPairsWithoutParen(s: string)
    requires '(' !in s
    ensures FindPairs(s) == []
  {
    FindPairsSkips(s, []);
    assert s + [] == s;
  }

  /** `LeadingDigits` of a number's digits followed by a non-digit is the number's length. */
  lemma DigitsThenStop(d: string, t: string)
    requires AllDigits(d)
    requires t != [] && !IsDigit(t[0])
    ensures LeadingDigits(d + t) == |d|
    decreases |d|
  {
    if d != [] {
      assert (d + t)[1..] == d[1..] + t;
      DigitsThenStop(d[1..], t);
    } else {
      assert d + t == t;
    }
  }

  /** `PairBody` from the runs it scans. */
  lemma PairBodyOfRuns(t: string, nx: nat, ny: nat)
    requires LeadingSpaces(t) == 0
    requires 0 < nx == LeadingDigits(t) && LeadingSpaces(t[nx..]) == 1
    requires 0 < ny == LeadingDigits(t[nx..][1..]) && LeadingSpaces(t[nx..][1..][ny..]) == 0
    requires t[nx..][1..][ny..] != [] && t[nx..][1..][ny..][0] == ')'
    ensures AllDigits(t[..nx]) && AllDigits(t[nx..][1..][..ny])
    ensures var r := PairBody(t);
      r.Some? && r.value.x == DigitsValue(t[..nx]) && r.value.y == DigitsValue(t[nx..][1..][..ny])
      && r.value.length == nx + ny + 2
  {
  }

  /** The runs that `PairBody` scans in two digit strings separated by one white-space character and closed by `)`. */
  lemma DigitRuns(t: string, dx: string, sp: char, dy: string, close: char, rest: string)
    requires |dx| > 0 && AllDigits(dx) && |dy| > 0 && AllDigits(dy)
    requires IsSpace(sp) && close == ')'
    requires t == dx + ([sp] + (dy + ([close] + rest)))
    ensures LeadingSpaces(t) == 0 && LeadingDigits(t) == |dx| && LeadingSpaces(t[|dx|..]) == 1
    ensures LeadingDigits(t[|dx|..][1..]) == |dy| && LeadingSpaces(t[|dx|..][1..][|dy|..]) == 0
    ensures t[|dx|..][1..][|dy|..] != [] && t[|dx|..][1..][|dy|..][0] == ')'
    ensures AllDigits(t[..|dx|]) && DigitsValue(t[..|dx|]) == DigitsValue(dx)
    ensures AllDigits(t[|dx|..][1..][..|dy|]) && DigitsValue(t[|dx|..][1..][..|dy|]) == DigitsValue(dy)
  {
    var afterY := [close] + rest;
    var afterX := [sp] + (dy + afterY);
    var nx, ny := |dx|, |dy|;
    assert LeadingSpaces(t) == 0 by {
      assert t[0] == dx[0] && !IsSpace(t[0]);
    }
    assert LeadingDigits(t) == nx by {
      DigitsThenStop(dx, afterX);
    }
    assert t[nx..] == afterX;
    assert t[nx..][1..] == dy + afterY;
    assert LeadingSpaces(t[nx..]) == 1 by {
      assert (dy + afterY)[0] == dy[0] && !IsSpace(dy[0]);
    }
    assert LeadingDigits(t[nx..][1..]) == ny by {
      DigitsThenStop(dy, afterY);
    }
    assert t[nx..][1..][ny..] == afterY;
    assert t[..nx] == dx;
    assert t[nx..][1..][..ny] == dy;
  }

  /** The match at a `(` is the match of the rest of the pattern after it. */
  lemma PairAtParen(s: string, t: string)
    requires s != [] && s[0] == '(' && s[1..] == t
    requires PairBody(t).Some?
    ensures var r := PairAt(s);
      r.Some? && r.value.x == PairBody(t).value.x && r.value.y == PairBody(t).value.y
      && r.value.length == PairBody(t).value.length + 1
  {
  }

  predicate AllSpaces(s: string) {
    forall k :: 0 <= k < |s| ==> IsSpace(s[k])
  }

  /** `LeadingSpaces` of a white-space run followed by anything else is the run's length. */
  lemma {:induction false} SpacesThenStop(w: string, t: string)
    requires AllSpaces(w)
    requires t == [] || !IsSpace(t[0])
    ensures LeadingSpaces(w + t) == |w|
    decreases |w|
  {
    if w != [] {
      assert (w + t)[0] == w[0] && IsSpace(w[0]);
      assert (w + t)[1..] == w[1..] + t;
      assert AllSpaces(w[1..]) by {
        forall k | 0 <= k < |w[1..]| ensures IsSpace(w[1..][k]) {
          assert w[1..][k] == w[k + 1];
        }
      }
      SpacesThenStop(w[1..], t);
    } else {
      assert w + t == t;
    }
  }

  /** Regrouping concatenations to the right. */
  lemma Regroup(a: string, b: string, c: string)
    ensures a + b + c == a + (b + c)
  {
  }

  lemma RegroupSix(a: string, b: string, c: string, d: string, e: string, f: string)
    ensures a + b + c + d + e + f == a + (b + (c + (d + (e + f))))
  {
    Regroup(a + b + c + d, e, f);
    Regroup(a + b + c, d, e + f);
    Regroup(a + b, c, d + (e + f));
    Regroup(a, b, c + (d + (e + f)));
  }

  lemma RegroupSeven(a: string, b: string, c: string, d: string, e: string, f: string, g: string)
    ensures a + b + c + d + e + f + g == a + (b + (c + (d + (e + (f + g)))))
  {
    RegroupSix(b, c, d, e, f, g);
    assert a + b + c + d + e + f + g == a + (b + c + d + e + f + g);
  }

  lemma RegroupEight(a: string, b: string, c: string, d: string, e: string, f: string, g: string, h: string)
    ensures a + b + c + d + e + f + g + h == a + (b + (c + (d + (e + (f + (g + h))))))
  {
    RegroupSeven(b, c, d, e, f, g, h);
    assert a + b + c + d + e + f + g + h == a + (b + c + d + e + f + g + h);
  }

  /** `PairBody` from the lengths of the five runs it scans. */
  lemma PairBodyOfRunLengths(t: string, n1: nat, nx: nat, n2: nat, ny: nat, n3: nat)
    requires n1 == LeadingSpaces(t)
    requires 0 < nx == LeadingDigits(t[n1..])
    requires 0 < n2 == LeadingSpaces(t[n1..][nx..])
    requires 0 < ny == LeadingDigits(t[n1..][nx..][n2..])
    requires n3 == LeadingSpaces(t[n1..][nx..][n2..][ny..])
    requires t[n1..][nx..][n2..][ny..][n3..] != [] && t[n1..][nx..][n2..][ny..][n3..][0] == ')'
    ensures AllDigits(t[n1..][..nx]) && AllDigits(t[n1..][nx..][n2..][..ny])
    ensures var r := PairBody(t);
      r.Some? && r.value.x == DigitsValue(t[n1..][..nx]) && r.value.y == DigitsValue(t[n1..][nx..][n2..][..ny])
      && r.value.length == |t| - |t[n1..][nx..][n2..][ny..][n3..]| + 1
  {
  }

  /** `PairBody` of the general form, grouped to the right. */
  lemma PairBodyOfNested(s1: string, dx: string, s2: string, dy: string, s3: string, rest: string)
    requires AllSpaces(s1) && AllSpaces(s2) && |s2| > 0 && AllSpaces(s3)
    requires |dx| > 0 && AllDigits(dx) && |dy| > 0 && AllDigits(dy)
    ensures var r := PairBody(s1 + (dx + (s2 + (dy + (s3 + ([')'] + rest))))));
      && r.Some? && r.value.x == DigitsValue(dx) && r.value.y == DigitsValue(dy)
      && r.value.length == |s1| + |dx| + |s2| + |dy| + |s3| + 1
  {
    var e := [')'] + rest;
    var d := s3 + e;
    var c := dy + d;
    var b := s2 + c;
    var a := dx + b;
    var t := s1 + a;
    assert LeadingSpaces(t) == |s1| && t[|s1|..] == a by {
      assert a[0] == dx[0];
      SpacesThenStop(s1, a);
    }
    assert LeadingDigits(a) == |dx| && a[|dx|..] == b && a[..|dx|] == dx by {
      assert b[0] == s2[0];
      DigitsThenStop(dx, b);
    }
    assert LeadingSpaces(b) == |s2| && b[|s2|..] == c by {
      assert c[0] == dy[0];
      SpacesThenStop(s2, c);
    }
    assert LeadingDigits(c) == |dy| && c[|dy|..] == d && c[..|dy|] == dy by {
      assert d[0] == if s3 == [] then ')' else s3[0];
      DigitsThenStop(dy, d);
    }
    assert LeadingSpaces(d) == |s3| && d[|s3|..] == e by {
      SpacesThenStop(s3, e);
    }
    PairBodyOfRunLengths(t, |s1|, |dx|, |s2|, |dy|, |s3|);
  }

  /**
   * After `(`, the general form of the pattern: white space, digits, at least
   * one white-space character, digits, white space and `)`.
   */
  lemma PairBodyOfParts(s1: string, dx: string, s2: string, dy: string, s3: string, rest: string)
    requires AllSpaces(s1) && AllSpaces(s2) && |s2| > 0 && AllSpaces(s3)
    requires |dx| > 0 && AllDigits(dx) && |dy| > 0 && AllDigits(dy)
    ensures var r := PairBody(s1 + dx + s2 + dy + s3 + [')'] + rest);
      && r.Some? && r.value.x == DigitsValue(dx) && r.value.y == DigitsValue(dy)
      && r.value.length == |s1| + |dx| + |s2| + |dy| + |s3| + 1
  {
    RegroupSeven(s1, dx, s2, dy, s3, [')'], rest);
    PairBodyOfNested(s1, dx, s2, dy, s3, rest);
  }

  /** So a point written with any white space around and between its numbers is one match. */
  lemma FindPairsOfSpacedPoint(s1: string, dx: string, s2: string, dy: string, s3: string, rest: string)
    requires AllSpaces(s1) && AllSpaces(s2) && |s2| > 0 && AllSpaces(s3)
    requires |dx| > 0 && AllDigits(dx) && |dy| > 0 && AllDigits(dy)
    ensures FindPairs("(" + s1 + dx + s2 + dy + s3 + ")" + rest) == [(DigitsValue(dx), DigitsValue(dy))] + FindPairs(rest)
  {
    var point := "(" + s1 + dx + s2 + dy + s3 + ")";
    var s := point + rest;
    var body := s1 + (dx + (s2 + (dy + (s3 + ([')'] + rest)))));
    var n := |point|;
    assert s == ['('] + body by {
      RegroupEight("(", s1, dx, s2, dy, s3, ")", rest);
    }
    assert PairAt(s).Some? && PairAt(s).value.x == DigitsValue(dx) && PairAt(s).value.y == DigitsValue(dy)
      && PairAt(s).value.length == n by {
      PairBodyOfNested(s1, dx, s2, dy, s3, rest);
      PairAtParen(s, body);
    }
    assert s[n..] == rest;
  }

  /** How a point's text is laid out. */
  lemma PointTextParts(x: nat, y: nat, rest: string)
    ensures var s := PointText(x, y) + rest;
      && |PointText(x, y)| == |FormatNat(x)| + |FormatNat(y)| + 3
      && s[0] == '(' && s[1..] == FormatNat(x) + ([' '] + (FormatNat(y) + ([')'] + rest)))
      && s[|PointText(x, y)|..] == rest
  {
    var t := FormatNat(x) + ([' '] + (FormatNat(y) + ([')'] + rest)));
    assert PointText(x, y) + rest == ['('] + t by {
      RegroupSix("(", FormatNat(x), " ", FormatNat(y), ")", rest);
    }
  }

  /** After `(`, two digit strings separated by a space and closed by `)` match. */
  lemma PairBodyOfDigits(dx: string, dy: string, rest: string)
    requires |dx| > 0 && AllDigits(dx) && |dy| > 0 && AllDigits(dy)
    ensures var r := PairBody(dx + ([' '] + (dy + ([')'] + rest))));
      r.Some? && r.value.x == DigitsValue(dx) && r.value.y == DigitsValue(dy) && r.value.length == |dx| + |dy| + 2
  {
    var t := dx + ([' '] + (dy + ([')'] + rest)));
    DigitRuns(t, dx, ' ', dy, ')', rest);
    PairBodyOfRuns(t, |dx|, |dy|);
  }

  /** A point's text, followed by anything, is one match. */
  lemma FindPairsOfPoint(x: nat, y: nat, rest: string)
    ensures FindPairs(PointText(x, y) + rest) == [(x, y)] + FindPairs(rest)
  {
    var s := PointText(x, y) + rest;
    var n := |FormatNat(x)| + |FormatNat(y)| + 3;
    assert PairAt(s).Some? && PairAt(s).value.x == x && PairAt(s).value.y == y
      && PairAt(s).value.length == n && s[n..] == rest by {
      var t := FormatNat(x) + ([' '] + (FormatNat(y) + ([')'] + rest)));
      PointTextParts(x, y, rest);
      PairBodyOfDigits(FormatNat(x), FormatNat(y), rest);
      DigitsValueOfFormatNat(x);
      DigitsValueOfFormatNat(y);
      PairAtParen(s, t);
    }
  }

  /** Scanning the text of some points finds exactly those points, in order. */
  lemma {:induction false} FindPairsOfPointsText(ps: seq<(int, int)>)
    requires NonNegative(ps)
    ensures FindPairs(PointsText(ps)) == ps
    decreases |ps|
  {
    if ps != [] {
      var point := PointText(ps[0].0, ps[0].1);
      var tail := PointsText(ps[1..]);
      assert PointsText(ps) == " " + (point + tail);
      FindPairsSkips(" ", point + tail);
      FindPairsOfPoint(ps[0].0, ps[0].1, tail);
      FindPairsOfPointsText(ps[1..]);
    }
  }

  /** So `_parse_path` reads back the points of a PATH line. */
  lemma FindPairsOfPathLine(ps: seq<(int, int)>)
    requires NonNegative(ps)
    ensures FindPairs(PathLine(ps)) == ps
  {
    FindPairsSkips("PATH", PointsText(ps));
    FindPairsOfPointsText(ps);
  }
}
