/**
 * Lines and tokens: the two string operations every reader is built on,
 * `str.split()` with no separator and `str.startswith`.
 * Whitespace is the ASCII part of what Python's `str.isspace` (and the
 * regular-expression class `\s`) accepts.
 */
module Text {

  predicate IsSpace(c: char) {
    c == ' ' || ('\t' <= c <= '\r') || ('\U{001C}' <= c <= '\U{001F}')
  }

  predicate IsDigit(c: char) {
    '0' <= c <= '9'
  }

  /** `s.startswith(prefix)` */
  predicate StartsWith(s: string, prefix: string) {
    |prefix| <= |s| && s[..|prefix|] == prefix
  }

  lemma StartsWithHead(line: string, key: string)
    requires |key| > 0 && StartsWith(line, key)
    ensures line[0] == key[0]
  {
    assert line[..|key|][0] == line[0];
  }

  /** A differing character at `i` rules the prefix out. */
  lemma NotStartsWith(line: string, key: string, i: nat)
    requires i < |line| && i < |key| && line[i] != key[i]
    ensures !StartsWith(line, key)
  {
  }

  /** A token `str.split()` can produce: non-empty, no whitespace inside. */
  predicate IsWord(w: string) {
    |w| > 0 && forall k :: 0 <= k < |w| ==> !IsSpace(w[k])
  }

  predicate AllWords(ws: seq<string>) {
    forall i :: 0 <= i < |ws| ==> IsWord(ws[i])
  }

  /** Length of the run of non-whitespace characters that starts `s`. */
  function WordLength(s: string): (n: nat)
    ensures n <= |s|
    ensures forall k :: 0 <= k < n ==> !IsSpace(s[k])
    ensures n < |s| ==> IsSpace(s[n])
  {
    if s == [] || IsSpace(s[0]) then 0 else 1 + WordLength(s[1..])
  }

  /** `s.split()`: the maximal whitespace-free runs of `s`, in order. */
  function Tokens(s: string): (ts: seq<string>)
    ensures AllWords(ts)
    ensures |ts| <= |s|
    decreases |s|
  {
    if s == [] then []
    else if IsSpace(s[0]) then Tokens(s[1..])
    else
      var n := WordLength(s);
      [s[..n]] + Tokens(s[n..])
  }

  /** `' '.join(ws)`: the words separated by single spaces. */
  function JoinWords(ws: seq<string>): string {
    if ws == [] then ""
    else if |ws| == 1 then ws[0]
    else ws[0] + " " + JoinWords(ws[1..])
  }

  /** Joining a word in front of at least one more word puts one space between them. */
  lemma JoinWordsCons(w: string, ws: seq<string>)
    requires ws != []
    ensures JoinWords([w] + ws) == w + " " + JoinWords(ws)
  {
    assert ([w] + ws)[0] == w && ([w] + ws)[1..] == ws;
  }

  /** Seven words joined by single spaces, spelled out. */
  lemma JoinSevenWords(a: string, b: string, c: string, d: string, e: string, f: string, g: string)
    ensures JoinWords([a, b, c, d, e, f, g]) == a + " " + b + " " + c + " " + d + " " + e + " " + f + " " + g
  {
    var ws := [a, b, c, d, e, f, g];
    assert ws[1..][1..][1..][1..][1..][1..] == [g];
    assert ws[1..][1..][1..][1..][1..] == [f, g];
    assert ws[1..][1..][1..][1..] == [e, f, g];
    assert ws[1..][1..][1..] == [d, e, f, g];
    assert ws[1..][1..] == [c, d, e, f, g];
    assert ws[1..] == [b, c, d, e, f, g];
    assert JoinWords([f, g]) == f + " " + g;
    assert JoinWords([e, f, g]) == e + " " + (f + " " + g);
    assert JoinWords([d, e, f, g]) == d + " " + (e + " " + (f + " " + g));
    assert JoinWords([c, d, e, f, g]) == c + " " + (d + " " + (e + " " + (f + " " + g)));
    assert JoinWords([b, c, d, e, f, g]) == b + " " + (c + " " + (d + " " + (e + " " + (f + " " + g))));
  }

  /** Leading whitespace never produces a token. */
  lemma TokensAfterSpace(c: char, s: string)
    requires IsSpace(c)
    ensures Tokens([c] + s) == Tokens(s)
  {
    assert ([c] + s)[1..] == s;
  }

  /** A word followed by whitespace (or nothing) is the first token. */
  lemma TokensAfterWord(w: string, t: string)
    requires IsWord(w)
    requires t == [] || IsSpace(t[0])
    ensures Tokens(w + t) == [w] + Tokens(t)
  {
    var s := w + t;
    var n := WordLength(s);
    assert forall k :: 0 <= k < |w| ==> s[k] == w[k];
    assert |w| < |s| ==> s[|w|] == t[0];
    assert n == |w|;
    assert s[..n] == w;
    assert s[n..] == t;
  }

  /** Splitting the space-joined words gives the words back. */
  lemma {:induction false} TokensOfJoinWords(ws: seq<string>)
    requires AllWords(ws)
    ensures Tokens(JoinWords(ws)) == ws
  {
    if |ws| == 1 {
      TokensAfterWord(ws[0], "");
      assert ws[0] + "" == ws[0];
    } else if |ws| > 1 {
      var rest := JoinWords(ws[1..]);
      assert JoinWords(ws) == ws[0] + ([' '] + rest);
      assert Tokens(ws[0] + ([' '] + rest)) == [ws[0]] + Tokens(rest) by {
        TokensAfterWord(ws[0], [' '] + rest);
        TokensAfterSpace(' ', rest);
      }
      assert Tokens(rest) == ws[1..] by {
        assert AllWords(ws[1..]) by {
          forall i | 0 <= i < |ws[1..]| ensures IsWord(ws[1..][i]) {
            assert ws[1..][i] == ws[i + 1];
          }
        }
        TokensOfJoinWords(ws[1..]);
      }
      assert [ws[0]] + ws[1..] == ws;
    }
  }
}
