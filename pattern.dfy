/**
 * The fragment of JavaScript regular expressions that the form schemas use:
 * an anchored (`^...$`) sequence of character classes, each with a
 * repetition count, such as `^\d{4}-\d{2}-\d{2}$` or `^[0-9-]+$`. Without the
 * `u` flag `\d` is exactly the ASCII digits 0-9.
 */
module Pattern {
  import opened Wrappers

  datatype CharClass = Digit | DigitOrHyphen | Char(c: char)

  predicate IsDigit(c: char) {
    '0' <= c <= '9'
  }

  predicate InClass(c: char, k: CharClass) {
    match k
    case Digit => IsDigit(c)
    case DigitOrHyphen => IsDigit(c) || c == '-'
    case Char(d) => c == d
  }

  predicate AllIn(s: string, k: CharClass) {
    forall i :: 0 <= i < |s| ==> InClass(s[i], k)
  }

  /** A class repeated between `min` and `max` times; `max == None` is unbounded (`+`, `*`). */
  datatype Piece = Piece(cls: CharClass, min: nat, max: Option<nat>)

  /** `\d{n}` */
  function Exactly(k: CharClass, n: nat): Piece {
    Piece(k, n, Some(n))
  }

  /**
   * Whether the whole of `s` matches the pieces in order. Backtracking tries
   * every admissible count for each piece; greedy or lazy order does not
   * change which whole strings are accepted.
   */
  function FullMatch(p: seq<Piece>, s: string): bool
    decreases |p|, 1, 0
  {
    if p == [] then s == [] else MatchFrom(p, s, p[0].min)
  }

  /** Whether the first piece can take `k` or more characters with the rest matching after it. */
  function MatchFrom(p: seq<Piece>, s: string, k: nat): bool
    requires p != []
    decreases |p|, 0, |s| + 1 - k
  {
    if k > |s| || (p[0].max.Some? && k > p[0].max.value) then false
    else (AllIn(s[..k], p[0].cls) && FullMatch(p[1..], s[k..])) || MatchFrom(p, s, k + 1)
  }

  /** A piece with a fixed count takes exactly that many characters. */
  lemma FixedPiece(p: seq<Piece>, s: string)
    requires p != [] && p[0].max == Some(p[0].min)
    ensures FullMatch(p, s) <==>
      p[0].min <= |s| && AllIn(s[..p[0].min], p[0].cls) && FullMatch(p[1..], s[p[0].min..])
  {
    var n := p[0].min;
    assert FullMatch(p, s) == MatchFrom(p, s, n);
    if n <= |s| {
      assert !MatchFrom(p, s, n + 1);
    }
  }

  /** A final unbounded piece, tried from count `k`, takes the whole rest of the string. */
  lemma {:induction false} LastUnboundedFrom(k: CharClass, lo: nat, s: string, from: nat)
    ensures MatchFrom([Piece(k, lo, None)], s, from) <==> from <= |s| && AllIn(s, k)
    decreases |s| + 1 - from
  {
    var p := [Piece(k, lo, None)];
    assert p[1..] == [];
    if from < |s| {
      assert !FullMatch(p[1..], s[from..]);
      LastUnboundedFrom(k, lo, s, from + 1);
    } else if from == |s| {
      assert s[..from] == s;
      assert !MatchFrom(p, s, from + 1);
    }
  }

  /** `^c{lo,}$`: the string is at least `lo` characters long, all in the class. */
  lemma LastUnbounded(k: CharClass, lo: nat, s: string)
    ensures FullMatch([Piece(k, lo, None)], s) <==> lo <= |s| && AllIn(s, k)
  {
    LastUnboundedFrom(k, lo, s, lo);
  }

  /** `^c{n}$`: exactly `n` characters, all in the class. */
  lemma OnlyFixed(k: CharClass, n: nat, s: string)
    ensures FullMatch([Exactly(k, n)], s) <==> |s| == n && AllIn(s, k)
  {
    var p := [Exactly(k, n)];
    FixedPiece(p, s);
    assert p[1..] == [];
    if |s| == n {
      assert s[..n] == s;
    }
  }
}
