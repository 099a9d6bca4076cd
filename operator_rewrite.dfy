/**
 * The comparison-operator rewrite of the list-query engine:
 * `queryStr.replace(/\b(gt|gte|lt|lte|in)\b/g, match => "$" + match)` on the
 * serialised filter. The scan below follows the regular expression: at each
 * position `\b` is tested against the previous character (`prevWord` says
 * whether it is a `\w` character; the start of the string counts as
 * non-word), the alternatives are tried in their written order, and after a
 * match the global scan resumes behind it.
 */
module OperatorRewrite {
  import opened Wrappers
  import opened JsText

  /** The alternatives of the pattern, in the order the regex engine tries them. */
  const Operators: seq<string> := ["gt", "gte", "lt", "lte", "in"]

  /** `\b` at a position whose previous character is (or is not) a word character and whose rest is `rest`. */
  predicate Boundary(prevWord: bool, rest: string) {
    prevWord != (rest != [] && IsWordChar(rest[0]))
  }

  /**
   * The first alternative of `ops` that matches at the head of `t`, with `\b`
   * before it and `\b` after it (every alternative ends in a word character).
   */
  function FirstOp(prevWord: bool, t: string, ops: seq<string>): (m: Option<string>)
    ensures m.Some? ==> m.value in ops && |m.value| <= |t| && t[..|m.value|] == m.value
  {
    if ops == [] then None
    else
      var w := ops[0];
      if Boundary(prevWord, t) && |w| <= |t| && t[..|w|] == w && Boundary(true, t[|w|..]) then Some(w)
      else FirstOp(prevWord, t, ops[1..])
  }

  /** The match of the pattern at the head of `t`, if any. */
  function MatchHere(prevWord: bool, t: string): (m: Option<string>)
    ensures m.Some? ==> 2 <= |m.value| <= |t| && t[..|m.value|] == m.value
  {
    FirstOp(prevWord, t, Operators)
  }

  /** The global replacement on the rest `t` of the string. */
  function RewriteFrom(prevWord: bool, t: string): string
    decreases |t|
  {
    if t == [] then []
    else
      match MatchHere(prevWord, t)
      case Some(w) => "$" + w + RewriteFrom(true, t[|w|..])
      case None => [t[0]] + RewriteFrom(IsWordChar(t[0]), t[1..])
  }

  /** The rewrite of the whole serialised filter. */
  function Rewrite(s: string): string {
    RewriteFrom(false, s)
  }

  /** The maximal run of word characters at the head of `t`. */
  function WordRun(t: string): (w: string)
    ensures |w| <= |t| && w == t[..|w|] && AllWord(w)
    ensures |w| == |t| || !IsWordChar(t[|w|])
  {
    if t != [] && IsWordChar(t[0]) then [t[0]] + WordRun(t[1..]) else ""
  }

  /** The number of positions of `t` at which the pattern matches. */
  function MatchCount(prevWord: bool, t: string): nat
    decreases |t|
  {
    if t == [] then 0
    else (if MatchHere(prevWord, t).Some? then 1 else 0) + MatchCount(IsWordChar(t[0]), t[1..])
  }

  /** The inverse rewrite: every `$` directly followed by a match of the pattern is dropped. */
  function Strip(r: string): string {
    if r == [] then []
    else if r[0] == '$' && MatchHere(false, r[1..]).Some? then Strip(r[1..])
    else [r[0]] + Strip(r[1..])
  }

  // ---------------------------------------------------------------------------
  // What the pattern matches

  /** A word `w` followed by `\b` heads `t` exactly when `w` is the maximal word run of `t`. */
  lemma {:induction false} RunFollowedByBoundary(t: string, w: string)
    requires w != [] && AllWord(w)
    ensures (|w| <= |t| && t[..|w|] == w && Boundary(true, t[|w|..])) <==> WordRun(t) == w
  {
    if |w| <= |t| && t[..|w|] == w {
      if |w| > 1 {
        assert t[1..][..|w| - 1] == w[1..];
        assert t[1..][|w| - 1..] == t[|w|..];
        RunFollowedByBoundary(t[1..], w[1..]);
      } else {
        assert t[1..] == t[|w|..];
      }
    }
  }

  lemma {:induction false} FirstOpIsWholeRun(prevWord: bool, t: string, ops: seq<string>)
    requires forall i :: 0 <= i < |ops| ==> ops[i] != [] && AllWord(ops[i])
    ensures FirstOp(prevWord, t, ops)
         == if !prevWord && WordRun(t) in ops then Some(WordRun(t)) else None
  {
    if ops != [] {
      var w := ops[0];
      RunFollowedByBoundary(t, w);
      FirstOpIsWholeRun(prevWord, t, ops[1..]);
      if WordRun(t) == w {
        assert t != [] && IsWordChar(t[0]);
      }
    }
  }

  /**
   * The pattern matches exactly at the start of a maximal word run (the
   * previous character is not a word character) that is one of the five
   * operator names, and it matches that whole run: `gte` is never cut to
   * `gt`, and runs such as `gtx` or `login` do not match.
   */
  lemma MatchIsWholeOperatorRun(prevWord: bool, t: string)
    ensures MatchHere(prevWord, t)
         == if !prevWord && WordRun(t) in Operators then Some(WordRun(t)) else None
  {
    FirstOpIsWholeRun(prevWord, t, Operators);
  }

  // ---------------------------------------------------------------------------
  // The rewrite only inserts `$`

  /** Inside a word run nothing is inserted, so the run heading the output is the run heading the input. */
  lemma {:induction false} WordRunKept(prevWord: bool, t: string)
    requires prevWord || MatchHere(prevWord, t).None?
    ensures WordRun(RewriteFrom(prevWord, t)) == WordRun(t)
    decreases |t|
  {
    MatchIsWholeOperatorRun(prevWord, t);
    if t != [] {
      var out := RewriteFrom(prevWord, t);
      assert out == [t[0]] + RewriteFrom(IsWordChar(t[0]), t[1..]);
      assert out[1..] == RewriteFrom(IsWordChar(t[0]), t[1..]);
      if IsWordChar(t[0]) {
        WordRunKept(true, t[1..]);
      }
    }
  }

  /** A `$` is never followed by a match in the output unless the rewrite put it there. */
  lemma NoMatchAfterPlainChar(t: string)
    ensures MatchHere(false, RewriteFrom(false, t)).None? || MatchHere(false, t).None?
    ensures MatchHere(false, t).None? ==> MatchHere(false, RewriteFrom(false, t)).None?
  {
    MatchIsWholeOperatorRun(false, t);
    MatchIsWholeOperatorRun(false, RewriteFrom(false, t));
    if MatchHere(false, t).Some? {
      assert RewriteFrom(false, t)[0] == '$';
    } else {
      WordRunKept(false, t);
    }
  }

  lemma {:induction false} StripWordPrefix(w: string, rest: string)
    requires AllWord(w)
    ensures Strip(w + rest) == w + Strip(rest)
  {
    if w != [] {
      assert (w + rest)[0] == w[0] && (w + rest)[1..] == w[1..] + rest;
      StripWordPrefix(w[1..], rest);
      assert w == [w[0]] + w[1..];
    } else {
      assert w + rest == rest;
    }
  }

  /** An operator written with its `$` and followed by a non-word character loses the `$` under `Strip`. */
  lemma StripDollarOperator(w: string, tail: string)
    requires w in Operators && WordRun(tail) == ""
    ensures Strip("$" + w + tail) == w + Strip(tail)
  {
    var out := "$" + w + tail;
    assert out[1..] == w + tail;
    WordRunOfWordPrefix(w, tail);
    MatchIsWholeOperatorRun(false, w + tail);
    assert Strip(out) == Strip(w + tail);
    StripWordPrefix(w, tail);
  }

  /** A match, once rewritten, loses its `$` again under `Strip`. */
  lemma StripMatched(prevWord: bool, t: string, w: string)
    requires MatchHere(prevWord, t) == Some(w)
    requires Strip(RewriteFrom(true, t[|w|..])) == t[|w|..]
    ensures Strip("$" + w + RewriteFrom(true, t[|w|..])) == t
  {
    MatchIsWholeOperatorRun(prevWord, t);
    assert w == WordRun(t) && w in Operators;
    var rest := t[|w|..];
    assert WordRun(rest) == "";
    WordRunKept(true, rest);
    StripDollarOperator(w, RewriteFrom(true, rest));
    assert w + rest == t;
  }

  /** A character the pattern does not match is copied, and `Strip` keeps it. */
  lemma StripUnmatched(prevWord: bool, t: string)
    requires t != [] && MatchHere(prevWord, t).None?
    requires Strip(RewriteFrom(IsWordChar(t[0]), t[1..])) == t[1..]
    ensures Strip([t[0]] + RewriteFrom(IsWordChar(t[0]), t[1..])) == t
  {
    var out := [t[0]] + RewriteFrom(IsWordChar(t[0]), t[1..]);
    assert out[1..] == RewriteFrom(IsWordChar(t[0]), t[1..]);
    if t[0] == '$' {
      NoMatchAfterPlainChar(t[1..]);
    }
    assert [t[0]] + t[1..] == t;
  }

  lemma {:induction false} StripRewriteFrom(prevWord: bool, t: string)
    ensures Strip(RewriteFrom(prevWord, t)) == t
    decreases |t|
  {
    if t != [] {
      match MatchHere(prevWord, t)
      case Some(w) =>
        MatchIsWholeOperatorRun(prevWord, t);
        StripRewriteFrom(true, t[|w|..]);
        StripMatched(prevWord, t, w);
      case None =>
        StripRewriteFrom(IsWordChar(t[0]), t[1..]);
        StripUnmatched(prevWord, t);
    }
  }

  lemma {:induction false} WordRunOfWordPrefix(w: string, rest: string)
    requires AllWord(w) && WordRun(rest) == ""
    ensures WordRun(w + rest) == w
  {
    if w != [] {
      assert (w + rest)[1..] == w[1..] + rest;
      WordRunOfWordPrefix(w[1..], rest);
      assert w == [w[0]] + w[1..];
    } else {
      assert w + rest == rest;
    }
  }

  /** Deleting the inserted `$` characters gives back the original string. */
  lemma StripRewrite(s: string)
    ensures Strip(Rewrite(s)) == s
  {
    StripRewriteFrom(false, s);
  }

  // ---------------------------------------------------------------------------
  // Length

  lemma {:induction false} MatchCountInsideRun(t: string, k: nat)
    requires k <= |t| && AllWord(t[..k])
    ensures MatchCount(true, t) == MatchCount(true, t[k..])
  {
    if k > 0 {
      MatchIsWholeOperatorRun(true, t);
      assert IsWordChar(t[..k][0]);
      assert t[1..][..k - 1] == t[..k][1..];
      MatchCountInsideRun(t[1..], k - 1);
      assert t[1..][k - 1..] == t[k..];
    }
  }

  lemma {:induction false} RewriteFromLength(prevWord: bool, t: string)
    ensures |RewriteFrom(prevWord, t)| == |t| + MatchCount(prevWord, t)
    decreases |t|
  {
    if t != [] {
      match MatchHere(prevWord, t)
      case Some(w) =>
        assert IsWordChar(t[0]) by { assert t[0] == w[0]; MatchIsWholeOperatorRun(prevWord, t); }
        assert t[1..][..|w| - 1] == w[1..];
        MatchIsWholeOperatorRun(prevWord, t);
        MatchCountInsideRun(t[1..], |w| - 1);
        assert t[1..][|w| - 1..] == t[|w|..];
        RewriteFromLength(true, t[|w|..]);
      case None =>
        RewriteFromLength(IsWordChar(t[0]), t[1..]);
    }
  }

  /** The rewritten string is longer by exactly the number of matches. */
  lemma RewriteLength(s: string)
    ensures |Rewrite(s)| == |s| + MatchCount(false, s)
  {
    RewriteFromLength(false, s);
  }

  /** Text without an operator run is left as it is. */
  lemma {:induction false} RewriteNoMatch(prevWord: bool, t: string)
    requires MatchCount(prevWord, t) == 0
    ensures RewriteFrom(prevWord, t) == t
    decreases |t|
  {
    if t != [] {
      RewriteNoMatch(IsWordChar(t[0]), t[1..]);
    }
  }

  // ---------------------------------------------------------------------------
  // Examples

  /** A whole operator run gains a `$`. */
  lemma ExampleOperator()
    ensures Rewrite("lte") == "$lte"
  {
    var t := "lte";
    assert WordRun(t[1..][1..][1..]) == [];
    assert WordRun(t) == t;
    MatchIsWholeOperatorRun(false, t);
    assert MatchHere(false, t) == Some(t);
    assert t[|t|..] == [];
  }

  /** A longer run that starts with an operator is left alone. */
  lemma ExampleLongerRun()
    ensures Rewrite("gtx") == "gtx"
  {
    MatchIsWholeOperatorRun(false, "gtx");
    assert WordRun("gtx") == "gtx";
    assert "gtx"[1..] == "tx" && "tx"[1..] == "x";
    MatchIsWholeOperatorRun(true, "tx");
    MatchIsWholeOperatorRun(true, "x");
  }
}
