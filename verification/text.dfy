/**
 * The two string operations of the Python standard library that the evaluator
 * relies on: `str.upper()` (used when parsing a card token) and the argument-less
 * `str.split()` (used by `Hand.from_string`). Both are modelled on ASCII text.
 */
module Text {

  /** ASCII upper-casing of one character; every other character is unchanged. */
  function UpperChar(c: char): char {
    if 'a' <= c <= 'z' then (c as int - 'a' as int + 'A' as int) as char else c
  }

  /**
   * `s.upper()`: the character-wise upper-casing of `s`. Every lower-case ASCII
   * letter becomes the capital at the same place in the alphabet, and every other
   * character stays where it was.
   */
  function Upper(s: string): (u: string)
    ensures |u| == |s|
    ensures forall i :: 0 <= i < |s| && 'a' <= s[i] <= 'z' ==>
      'A' <= u[i] <= 'Z' && u[i] as int - 'A' as int == s[i] as int - 'a' as int
    ensures forall i :: 0 <= i < |s| && !('a' <= s[i] <= 'z') ==> u[i] == s[i]
    ensures forall i :: 0 <= i < |u| ==> !('a' <= u[i] <= 'z')
  {
    seq(|s|, i requires 0 <= i < |s| => UpperChar(s[i]))
  }

  /** Upper-casing an upper-cased string changes nothing. */
  lemma UpperIdempotent(s: string)
    ensures Upper(Upper(s)) == Upper(s)
  {
  }

  /**
   * `a` and `b` spell the same text up to the case of ASCII letters: at every
   * position the characters are equal, or one is a lower-case letter and the
   * other its capital.
   */
  ghost predicate EqualIgnoringCase(a: string, b: string) {
    && |a| == |b|
    && forall i :: 0 <= i < |a| ==>
      || a[i] == b[i]
      || ('a' <= a[i] <= 'z' && b[i] as int == a[i] as int - 32)
      || ('a' <= b[i] <= 'z' && a[i] as int == b[i] as int - 32)
  }

  /** Strings that differ only in the case of letters have the same upper-casing. */
  lemma UpperIgnoresCase(a: string, b: string)
    requires EqualIgnoringCase(a, b)
    ensures Upper(a) == Upper(b)
  {
    var ua, ub := Upper(a), Upper(b);
    forall i | 0 <= i < |a| ensures ua[i] == ub[i] {
      if 'a' <= a[i] <= 'z' && b[i] as int == a[i] as int - 32 {
        assert ua[i] as int == a[i] as int - 32 == ub[i] as int;
      } else if 'a' <= b[i] <= 'z' && a[i] as int == b[i] as int - 32 {
        assert ub[i] as int == b[i] as int - 32 == ua[i] as int;
      }
    }
  }

  /** The characters `str.split()` treats as separators: space, \t, \n, \v, \f, \r. */
  predicate IsSpace(c: char) {
    c == ' ' || c == '\t' || c == '\n' || c == '\r' || c == '\U{B}' || c == '\U{C}'
  }

  ghost predicate NoSpace(s: string) {
    forall i :: 0 <= i < |s| ==> !IsSpace(s[i])
  }

  /** The length of the maximal whitespace-free prefix of `s`. */
  function TokenLength(s: string): (n: nat)
    requires |s| > 0 && !IsSpace(s[0])
    ensures 1 <= n <= |s|
    ensures NoSpace(s[..n])
    ensures n < |s| ==> IsSpace(s[n])
  {
    if |s| == 1 || IsSpace(s[1]) then 1 else 1 + TokenLength(s[1..])
  }

  /**
   * `s.split()`: the maximal runs of non-whitespace characters of `s`, in order.
   * Leading, trailing and repeated whitespace produce no empty tokens.
   */
  function Split(s: string): (tokens: seq<string>)
    ensures forall i :: 0 <= i < |tokens| ==> |tokens[i]| > 0 && NoSpace(tokens[i])
    decreases |s|
  {
    if |s| == 0 then []
    else if IsSpace(s[0]) then Split(s[1..])
    else
      var n := TokenLength(s);
      [s[..n]] + Split(s[n..])
  }

  /** `' '.join(tokens)`: the tokens separated by single spaces. */
  function Join(tokens: seq<string>): string {
    if |tokens| == 0 then ""
    else if |tokens| == 1 then tokens[0]
    else tokens[0] + " " + Join(tokens[1..])
  }

  /** The whitespace-free prefix of a token followed by a separator is the token itself. */
  lemma {:induction false} TokenLengthOfToken(t: string, rest: string)
    requires |t| > 0 && NoSpace(t)
    requires rest == [] || IsSpace(rest[0])
    ensures TokenLength(t + rest) == |t|
    decreases |t|
  {
    if |t| > 1 {
      assert (t + rest)[1..] == t[1..] + rest;
      TokenLengthOfToken(t[1..], rest);
    }
  }

  /** Splitting the space-joined tokens gives the tokens back. */
  lemma {:induction false} SplitJoin(tokens: seq<string>)
    requires forall i :: 0 <= i < |tokens| ==> |tokens[i]| > 0 && NoSpace(tokens[i])
    ensures Split(Join(tokens)) == tokens
    decreases |tokens|
  {
    if |tokens| == 1 {
      var t := tokens[0];
      TokenLengthOfToken(t, []);
      assert t + [] == t;
      assert t[..|t|] == t && t[|t|..] == [];
    } else if |tokens| > 1 {
      var t, rest := tokens[0], Join(tokens[1..]);
      var s := t + " " + rest;
      assert s == t + (" " + rest);
      TokenLengthOfToken(t, " " + rest);
      assert s[..|t|] == t;
      assert s[|t|..] == " " + rest;
      assert (" " + rest)[1..] == rest;
      SplitJoin(tokens[1..]);
      assert Split(s) == [t] + tokens[1..];
    }
  }

  /** A string of whitespace only has no tokens. */
  lemma {:induction false} SplitSpaces(w: string)
    requires forall i :: 0 <= i < |w| ==> IsSpace(w[i])
    ensures Split(w) == []
    decreases |w|
  {
    if |w| > 0 {
      SplitSpaces(w[1..]);
    }
  }

  /**
   * Whitespace, then a token, then the end or more whitespace: the token is the
   * first item of the split, and the rest is split on its own. With `SplitSpaces`
   * this fixes `Split` on every string.
   */
  lemma {:induction false} SplitToken(w: string, t: string, r: string)
    requires forall i :: 0 <= i < |w| ==> IsSpace(w[i])
    requires |t| > 0 && NoSpace(t)
    requires r == [] || IsSpace(r[0])
    ensures Split(w + t + r) == [t] + Split(r)
    decreases |w|
  {
    var s := w + t + r;
    if |w| == 0 {
      assert s == t + r;
      TokenLengthOfToken(t, r);
      assert s[..|t|] == t && s[|t|..] == r;
    } else {
      assert s[1..] == w[1..] + t + r;
      SplitToken(w[1..], t, r);
    }
  }
}
