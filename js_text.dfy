/**
 * The JavaScript string primitives the core relies on, stated over `seq<char>`:
 * the regular-expression class `\w`, the white space that `trim` and `parseInt`
 * skip, `String.prototype.split` on a one-character separator, `Array.prototype.join`,
 * and `trim`.
 */
module JsText {
  import opened Wrappers


  /** `\w` in a JavaScript regular expression: ASCII letters, digits and `_`. */
  predicate IsWordChar(c: char) {
    ('a' <= c <= 'z') || ('A' <= c <= 'Z') || ('0' <= c <= '9') || c == '_'
  }

  predicate IsDigit(c: char) {
    '0' <= c <= '9'
  }

  /** ECMAScript WhiteSpace and LineTerminator code points (what `trim` and `parseInt` skip). */
  predicate IsJsSpace(c: char) {
    c == '\t' || c == '\U{B}' || c == '\U{C}' || c == ' ' || c == '\U{A0}' || c == '\U{FEFF}'
    || c == '\n' || c == '\r' || c == '\U{2028}' || c == '\U{2029}'
    || c == '\U{1680}' || ('\U{2000}' <= c <= '\U{200A}') || c == '\U{202F}' || c == '\U{205F}'
    || c == '\U{3000}'
  }

  /**
   * The truthiness of an optional string, which is also what Mongoose's
   * `required` asks of a string path: present and not empty.
   */
  predicate Present(v: Option<string>) {
    v.Some? && v.value != ""
  }

  predicate AllWord(s: string) {
    forall i :: 0 <= i < |s| ==> IsWordChar(s[i])
  }

  /** The number of occurrences of `c` in `s`. */
  function Occurrences(s: string, c: char): nat {
    if s == [] then 0 else (if s[0] == c then 1 else 0) + Occurrences(s[1..], c)
  }

  /** `s.split(sep)` for a one-character separator: the pieces between separators, in order. */
  function Split(s: string, sep: char): (parts: seq<string>)
    ensures |parts| == Occurrences(s, sep) + 1
    ensures forall i :: 0 <= i < |parts| ==> sep !in parts[i]
  {
    if s == [] then [""]
    else
      var rest := Split(s[1..], sep);
      if s[0] == sep then [""] + rest
      else [[s[0]] + rest[0]] + rest[1..]
  }

  /** `s.indexOf(c)`, with `|s|` standing for -1: the first position holding `c`. */
  function IndexOf(s: string, c: char): (i: nat)
    ensures i <= |s|
    ensures i < |s| ==> s[i] == c
    ensures forall k :: 0 <= k < i ==> s[k] != c
  {
    if s == [] then 0
    else if s[0] == c then 0
    else 1 + IndexOf(s[1..], c)
  }

  /**
   * The first piece of a split runs up to the first separator; without a
   * separator it is the whole string, and otherwise the remaining pieces are
   * the split of what follows that separator.
   */
  lemma {:induction false} SplitAtFirst(s: string, c: char)
    ensures var i := IndexOf(s, c);
            if i == |s| then Split(s, c) == [s]
            else Split(s, c) == [s[..i]] + Split(s[i + 1..], c)
  {
    if s != [] && s[0] != c {
      SplitAtFirst(s[1..], c);
      var i := IndexOf(s[1..], c);
      assert [s[0]] + s[1..][..i] == s[..i + 1];
      if i == |s[1..]| {
        assert [s[0]] + s[1..] == s;
      } else {
        assert s[1..][i + 1..] == s[i + 2..];
      }
    }
  }

  /**
   * A split has a second piece exactly when the separator occurs, and that
   * piece is the text between the first separator and the next one (or the
   * end).
   */
  lemma SplitSecond(s: string, c: char)
    ensures |Split(s, c)| > 1 <==> c in s
    ensures c in s ==> var rest := s[IndexOf(s, c) + 1..]; Split(s, c)[1] == rest[..IndexOf(rest, c)]
  {
    SplitAtFirst(s, c);
    var i := IndexOf(s, c);
    if i < |s| {
      SplitAtFirst(s[i + 1..], c);
    }
  }

  /** `parts.join(sep)`. */
  function Join(parts: seq<string>, sep: string): string {
    if parts == [] then ""
    else if |parts| == 1 then parts[0]
    else parts[0] + sep + Join(parts[1..], sep)
  }

  /** Every `from` in `s` replaced by `to`. */
  function ReplaceChar(s: string, from: char, to: char): (r: string)
    ensures |r| == |s|
  {
    if s == [] then [] else [if s[0] == from then to else s[0]] + ReplaceChar(s[1..], from, to)
  }

  /** A piece joined in front of a non-empty list is followed by the separator. */
  lemma JoinCons(p: string, parts: seq<string>, sep: string)
    requires parts != []
    ensures Join([p] + parts, sep) == p + sep + Join(parts, sep)
  {
    assert ([p] + parts)[1..] == parts;
  }

  /** Extending the first piece extends the joined string by the same prefix. */
  lemma JoinExtendHead(x: string, parts: seq<string>, sep: string)
    requires parts != []
    ensures Join([x + parts[0]] + parts[1..], sep) == x + Join(parts, sep)
  {
    var q := [x + parts[0]] + parts[1..];
    assert q[1..] == parts[1..];
    if |parts| > 1 {
      assert Join(q, sep) == x + parts[0] + sep + Join(parts[1..], sep);
    }
  }

  /** The replacement, character by character. */
  lemma {:induction false} ReplaceCharAt(s: string, c: char, d: char)
    ensures forall i :: 0 <= i < |s| ==> ReplaceChar(s, c, d)[i] == (if s[i] == c then d else s[i])
  {
    if s != [] {
      ReplaceCharAt(s[1..], c, d);
      assert forall i :: 1 <= i < |s| ==> ReplaceChar(s, c, d)[i] == ReplaceChar(s[1..], c, d)[i - 1];
    }
  }

  /** `s.split(c).join(d)` is the character-wise replacement of `c` by `d`. */
  lemma {:induction false} SplitJoinReplaces(s: string, c: char, d: char)
    ensures Join(Split(s, c), [d]) == ReplaceChar(s, c, d)
  {
    if s != [] {
      SplitJoinReplaces(s[1..], c, d);
      var rest := Split(s[1..], c);
      if s[0] == c {
        JoinCons("", rest, [d]);
      } else {
        JoinExtendHead([s[0]], rest, [d]);
      }
    }
  }

  /** Joining the pieces of a split with the same separator gives the string back. */
  lemma SplitJoinRoundTrip(s: string, c: char)
    ensures Join(Split(s, c), [c]) == s
  {
    SplitJoinReplaces(s, c, c);
    ReplaceSame(s, c);
  }

  lemma {:induction false} ReplaceSame(s: string, c: char)
    ensures ReplaceChar(s, c, c) == s
  {
    if s != [] { ReplaceSame(s[1..], c); }
  }

  function TrimStart(s: string): (r: string)
    ensures |r| <= |s| && r == s[|s| - |r|..]
    ensures r == [] || !IsJsSpace(r[0])
    ensures forall i :: 0 <= i < |s| - |r| ==> IsJsSpace(s[i])
  {
    if s != [] && IsJsSpace(s[0]) then
      var r := TrimStart(s[1..]);
      assert forall i :: 1 <= i < |s| ==> s[i] == s[1..][i - 1];
      r
    else s
  }

  function TrimEnd(s: string): (r: string)
    ensures |r| <= |s| && r == s[..|r|]
    ensures r == [] || !IsJsSpace(r[|r| - 1])
    ensures forall i :: |r| <= i < |s| ==> IsJsSpace(s[i])
  {
    if s != [] && IsJsSpace(s[|s| - 1]) then
      var r := TrimEnd(s[..|s| - 1]);
      assert forall i :: 0 <= i < |s| - 1 ==> s[i] == s[..|s| - 1][i];
      r
    else s
  }

  /** `s.trim()`: white space removed from both ends. */
  function Trim(s: string): string {
    TrimEnd(TrimStart(s))
  }

  /**
   * `trim` keeps a contiguous slice of its input, removes only white space,
   * and leaves none at either end.
   */
  lemma TrimSlice(s: string)
    ensures var i, j := |s| - |TrimStart(s)|, |s| - |TrimStart(s)| + |Trim(s)|;
            && j <= |s| && Trim(s) == s[i..j]
            && (forall k :: 0 <= k < i ==> IsJsSpace(s[k]))
            && (forall k :: j <= k < |s| ==> IsJsSpace(s[k]))
    ensures Trim(s) == [] || (!IsJsSpace(Trim(s)[0]) && !IsJsSpace(Trim(s)[|Trim(s)| - 1]))
  {
    TrimTail(s);
    TrimEnds(s);
  }

  /** The white space `TrimEnd` drops lies at the end of the original string. */
  lemma TrimTail(s: string)
    ensures var i, j := |s| - |TrimStart(s)|, |s| - |TrimStart(s)| + |Trim(s)|;
            && j <= |s| && Trim(s) == s[i..j]
            && (forall k :: j <= k < |s| ==> IsJsSpace(s[k]))
  {
    var t := TrimStart(s);
    var r := TrimEnd(t);
    SpaceSuffixShifts(s, |s| - |t|, |r|);
  }

  /** White space ending the suffix `s[i..]` from position `m` on ends `s` from `i + m` on. */
  lemma SpaceSuffixShifts(s: string, i: nat, m: nat)
    requires i + m <= |s|
    requires forall k :: m <= k < |s| - i ==> IsJsSpace(s[i..][k])
    ensures forall k :: i + m <= k < |s| ==> IsJsSpace(s[k])
  {
    forall k | i + m <= k < |s|
      ensures IsJsSpace(s[k])
    {
      assert s[k] == s[i..][k - i];
    }
  }

  lemma TrimEnds(s: string)
    ensures Trim(s) == [] || (!IsJsSpace(Trim(s)[0]) && !IsJsSpace(Trim(s)[|Trim(s)| - 1]))
  {
    var t := TrimStart(s);
    var r := TrimEnd(t);
    if r != [] {
      assert r[0] == t[0];
    }
  }

  /** Trimming twice is trimming once. */
  lemma TrimIdempotent(s: string)
    ensures Trim(Trim(s)) == Trim(s)
  {
    var r := Trim(s);
    TrimSlice(s);
    if r != [] {
      assert TrimStart(r) == r;
      assert TrimEnd(r) == r;
    }
  }
}
