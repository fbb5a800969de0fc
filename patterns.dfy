/** The fixed regular expressions of the resource schemas all have one shape:
    an anchored (`^...$`) concatenation of character classes, each repeated
    between a minimum and a maximum number of times. This module gives that
    shape a meaning (Matches), so each schema regex can be written down piece
    by piece as it appears in the source and compared with a hand-written
    predicate. */
module Patterns {

  datatype Bound = AtMost(n: nat) | Unbounded

  /** One regex atom with its repetition: `cls{min,max}`. */
  datatype Piece = Piece(cls: char -> bool, min: nat, max: Bound)

  type Pattern = seq<Piece>

  predicate AllIn(s: string, cls: char -> bool) {
    forall i :: 0 <= i < |s| ==> cls(s[i])
  }

  predicate Within(k: nat, b: Bound) {
    b.Unbounded? || k <= b.n
  }

  /** The whole of s matches the anchored pattern p. */
  predicate Matches(p: Pattern, s: string)
    decreases |p|
  {
    if p == [] then s == []
    else exists k | 0 <= k <= |s| ::
      p[0].min <= k && Within(k, p[0].max) && AllIn(s[..k], p[0].cls) && Matches(p[1..], s[k..])
  }

  /** A literal character `c`. */
  function Lit(c: char): Piece {
    Piece(x => x == c, 1, AtMost(1))
  }

  /** A literal string, character by character. */
  function Literal(w: string): (p: Pattern)
    ensures |p| == |w|
  {
    seq(|w|, i requires 0 <= i < |w| => Lit(w[i]))
  }

  /** Go's `.` outside single-line mode: any character but a newline. */
  const Dot: Piece := Piece(x => x != '\n', 1, AtMost(1))

  /** An atom matched exactly once. */
  lemma MatchesOnce(cls: char -> bool, rest: Pattern, s: string)
    ensures Matches([Piece(cls, 1, AtMost(1))] + rest, s)
            <==> |s| >= 1 && cls(s[0]) && Matches(rest, s[1..])
  {
    var p := [Piece(cls, 1, AtMost(1))] + rest;
    assert p[1..] == rest;
    if |s| >= 1 && cls(s[0]) && Matches(rest, s[1..]) {
      assert AllIn(s[..1], cls);
    }
  }

  /** The last piece must consume the whole remaining input. */
  lemma MatchesLast(q: Piece, s: string)
    ensures Matches([q], s) <==> q.min <= |s| && Within(|s|, q.max) && AllIn(s, q.cls)
  {
    assert [q][1..] == [];
    if q.min <= |s| && Within(|s|, q.max) && AllIn(s, q.cls) {
      assert s[..|s|] == s;
      assert Matches([q][1..], s[|s|..]);
    }
    if Matches([q], s) {
      var k :| 0 <= k <= |s| && q.min <= k && Within(k, q.max) && AllIn(s[..k], q.cls) && Matches([q][1..], s[k..]);
      assert k == |s|;
      assert s[..k] == s;
    }
  }

  /** A literal prefix. */
  lemma {:induction false} MatchesLiteral(w: string, rest: Pattern, s: string)
    ensures Matches(Literal(w) + rest, s)
            <==> |s| >= |w| && s[..|w|] == w && Matches(rest, s[|w|..])
    decreases |w|
  {
    if |w| == 0 {
      assert Literal(w) + rest == rest;
    } else {
      assert Literal(w) + rest == [Lit(w[0])] + (Literal(w[1..]) + rest);
      MatchesOnce(x => x == w[0], Literal(w[1..]) + rest, s);
      if |s| >= 1 {
        MatchesLiteral(w[1..], rest, s[1..]);
        if |s| >= |w| {
          assert s[1..][|w| - 1..] == s[|w|..];
          assert s[..|w|] == [s[0]] + s[1..][..|w| - 1];
          assert w == [w[0]] + w[1..];
        }
      }
    }
  }

  /** A leading atom repeated any number of times between its bounds. */
  lemma MatchesHead(q: Piece, rest: Pattern, s: string, k: nat)
    requires k <= |s| && q.min <= k && Within(k, q.max) && AllIn(s[..k], q.cls)
    requires Matches(rest, s[k..])
    ensures Matches([q] + rest, s)
  {
    assert ([q] + rest)[1..] == rest;
  }

  /** A piece followed by a final atom matched exactly once. */
  lemma MatchesThenOnce(q: Piece, cls: char -> bool, t: string)
    ensures Matches([q, Piece(cls, 1, AtMost(1))], t)
            <==> |t| >= 1 && q.min <= |t| - 1 && Within(|t| - 1, q.max)
                 && AllIn(t[..|t| - 1], q.cls) && cls(t[|t| - 1])
  {
    if Matches([q, Piece(cls, 1, AtMost(1))], t) {
      ThenOnceSound(q, cls, t);
    }
    if |t| >= 1 && q.min <= |t| - 1 && Within(|t| - 1, q.max) && AllIn(t[..|t| - 1], q.cls) && cls(t[|t| - 1]) {
      ThenOnceComplete(q, cls, t);
    }
  }

  lemma ThenOnceSound(q: Piece, cls: char -> bool, t: string)
    requires Matches([q, Piece(cls, 1, AtMost(1))], t)
    ensures |t| >= 1 && q.min <= |t| - 1 && Within(|t| - 1, q.max)
            && AllIn(t[..|t| - 1], q.cls) && cls(t[|t| - 1])
  {
    var last := Piece(cls, 1, AtMost(1));
    var p := [q, last];
    assert p[1..] == [last];
    var k :| 0 <= k <= |t| && q.min <= k && Within(k, q.max) && AllIn(t[..k], q.cls) && Matches([last], t[k..]);
    MatchesLast(last, t[k..]);
    assert k == |t| - 1;
  }

  lemma ThenOnceComplete(q: Piece, cls: char -> bool, t: string)
    requires |t| >= 1 && q.min <= |t| - 1 && Within(|t| - 1, q.max)
    requires AllIn(t[..|t| - 1], q.cls) && cls(t[|t| - 1])
    ensures Matches([q, Piece(cls, 1, AtMost(1))], t)
  {
    var last := Piece(cls, 1, AtMost(1));
    MatchesLast(last, t[|t| - 1..]);
    MatchesHead(q, [last], t, |t| - 1);
    assert [q] + [last] == [q, last];
  }

  predicate IsLower(c: char) { 'a' <= c <= 'z' }
  predicate IsUpper(c: char) { 'A' <= c <= 'Z' }
  predicate IsDigit(c: char) { '0' <= c <= '9' }
  predicate IsLetter(c: char) { IsLower(c) || IsUpper(c) }
  predicate IsAlnum(c: char) { IsLetter(c) || IsDigit(c) }
  /** Go's `\w`: ASCII letters, digits and underscore. */
  predicate IsWord(c: char) { IsAlnum(c) || c == '_' }
}
