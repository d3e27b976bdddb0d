/**
 * String helpers for the ASCII subset of JavaScript's string methods used by
 * the application: `toLowerCase`, `trim`, `replace(/\s+/g, ...)`,
 * `split`/`join` on one character, and decimal rendering of numbers.
 */
module Text {

  // ---------------------------------------------------------------------------
  // Character classes
  // ---------------------------------------------------------------------------

  /** JavaScript `\s` (the set `trim` strips too), restricted to ASCII: HT, LF, VT, FF, CR (9 to 13) and space. */
  predicate IsSpace(c: char) {
    '\t' <= c <= '\r' || c == ' '
  }

  predicate IsUpper(c: char) {
    'A' <= c <= 'Z'
  }

  predicate IsDigit(c: char) {
    '0' <= c <= '9'
  }

  predicate NoSpace(s: string) {
    forall i :: 0 <= i < |s| ==> !IsSpace(s[i])
  }

  predicate NoUpper(s: string) {
    forall i :: 0 <= i < |s| ==> !IsUpper(s[i])
  }

  predicate AllSpace(s: string) {
    forall i :: 0 <= i < |s| ==> IsSpace(s[i])
  }

  predicate AllDigits(s: string) {
    forall i :: 0 <= i < |s| ==> IsDigit(s[i])
  }

  // ---------------------------------------------------------------------------
  // toLowerCase, trim, and replacing whitespace runs
  // ---------------------------------------------------------------------------

  /** `toLowerCase` on one character, for ASCII letters; every other character is kept. */
  function LowerChar(c: char): (d: char)
    ensures !IsUpper(d)
    ensures IsSpace(d) <==> IsSpace(c)
    ensures !IsUpper(c) ==> d == c
  {
    if IsUpper(c) then (c as int + 32) as char else c
  }

  function Lower(s: string): (r: string)
    ensures |r| == |s| && NoUpper(r)
    ensures forall i :: 0 <= i < |s| ==> r[i] == LowerChar(s[i])
    ensures NoUpper(s) ==> r == s
  {
    if s == [] then [] else [LowerChar(s[0])] + Lower(s[1..])
  }

  /** Drops the leading whitespace. */
  function TrimStart(s: string): (r: string)
    ensures |r| <= |s| && r == s[|s| - |r|..]
    ensures r == [] || !IsSpace(r[0])
  {
    if s != [] && IsSpace(s[0]) then TrimStart(s[1..]) else s
  }

  /** Drops the trailing whitespace. */
  function TrimEnd(s: string): (r: string)
    ensures |r| <= |s| && r == s[..|r|]
    ensures r == [] || !IsSpace(r[|r| - 1])
    ensures AllSpace(s[|r|..])
  {
    if s != [] && IsSpace(s[|s| - 1]) then TrimEnd(s[..|s| - 1]) else s
  }

  /** `trim()`: what is left once whitespace is dropped at both ends. */
  function Trim(s: string): (r: string)
    ensures r == [] || (!IsSpace(r[0]) && !IsSpace(r[|r| - 1]))
    ensures NoSpace(s) ==> r == s
  {
    var t := TrimStart(s);
    var r := TrimEnd(t);
    assert r != [] ==> r[0] == t[0];
    r
  }

  /** `replace(/\s+/g, "-")`: each maximal run of whitespace becomes one dash. */
  function ReplaceSpaceRuns(s: string): (r: string)
    ensures NoSpace(r)
    decreases |s|
  {
    if s == [] then []
    else if IsSpace(s[0]) then ['-'] + ReplaceSpaceRuns(TrimStart(s[1..]))
    else [s[0]] + ReplaceSpaceRuns(s[1..])
  }


  // ---------------------------------------------------------------------------
  // Words: the reference reading of "trim, then one dash per whitespace run"
  // ---------------------------------------------------------------------------

  /** The longest prefix without whitespace. */
  function Token(s: string): (t: string)
    ensures |t| <= |s| && t == s[..|t|] && NoSpace(t)
    ensures |t| == |s| || IsSpace(s[|t|])
    ensures s != [] && !IsSpace(s[0]) ==> |t| > 0
  {
    if s == [] || IsSpace(s[0]) then [] else [s[0]] + Token(s[1..])
  }

  /** The maximal whitespace-free pieces of `s`, in order. */
  function Words(s: string): seq<string>
    decreases |s|
  {
    var t := TrimStart(s);
    if t == [] then []
    else
      var w := Token(t);
      [w] + Words(t[|w|..])
  }

  // ---------------------------------------------------------------------------
  // join / split on one separator character
  // ---------------------------------------------------------------------------

  /** `parts.join(sep)` for a one-character separator. */
  function Join(parts: seq<string>, sep: char): string {
    if parts == [] then []
    else if |parts| == 1 then parts[0]
    else parts[0] + [sep] + Join(parts[1..], sep)
  }

  /** `s.split(sep)` for a one-character separator. */
  function Split(s: string, sep: char): (parts: seq<string>)
    ensures |parts| > 0
  {
    if s == [] then [[]]
    else
      var rest := Split(s[1..], sep);
      if s[0] == sep then [[]] + rest else [[s[0]] + rest[0]] + rest[1..]
  }

  // ---------------------------------------------------------------------------
  // Decimal rendering of numbers (template literals, `String(n)`)
  // ---------------------------------------------------------------------------

  function DigitChar(d: nat): (c: char)
    requires d < 10
    ensures IsDigit(c) && c as int - '0' as int == d
  {
    ('0' as int + d) as char
  }

  /** The decimal digits of `n`, most significant first, without leading zeros. */
  function NatToString(n: nat): (s: string)
    ensures |s| > 0 && AllDigits(s)
  {
    if n < 10 then [DigitChar(n)] else NatToString(n / 10) + [DigitChar(n % 10)]
  }

  /** The value a string of decimal digits denotes. */
  function ParseNat(s: string): nat
    requires AllDigits(s)
  {
    if s == [] then 0 else 10 * ParseNat(s[..|s| - 1]) + (s[|s| - 1] as int - '0' as int)
  }

  /** A JavaScript integer rendered as text: an optional minus sign, then the digits. */
  function IntToString(i: int): (s: string)
    ensures |s| > 0
    ensures i >= 0 ==> AllDigits(s)
    ensures i < 0 ==> s[0] == '-' && AllDigits(s[1..])
  {
    if i < 0 then "-" + NatToString(-i) else NatToString(i)
  }

  // ---------------------------------------------------------------------------
  // Lemmas
  // ---------------------------------------------------------------------------

  /** Reading back the rendered digits gives the number again. */
  lemma {:induction false} ParseNatToString(n: nat)
    ensures ParseNat(NatToString(n)) == n
  {
    if n >= 10 {
      var s := NatToString(n);
      assert s[..|s| - 1] == NatToString(n / 10);
      ParseNatToString(n / 10);
    }
  }

  /** Distinct numbers render as distinct strings. */
  lemma {:induction false} NatToStringInjective(m: nat, n: nat)
    requires NatToString(m) == NatToString(n)
    ensures m == n
  {
    ParseNatToString(m);
    ParseNatToString(n);
  }

  /** Splitting a string and joining the parts back gives the string. */
  lemma {:induction false} JoinSplit(s: string, sep: char)
    ensures Join(Split(s, sep), sep) == s
  {
    if s != [] {
      var rest := Split(s[1..], sep);
      JoinSplit(s[1..], sep);
      if s[0] == sep {
        assert Split(s, sep) == [[]] + rest;
      } else {
        var parts := Split(s, sep);
        assert parts == [[s[0]] + rest[0]] + rest[1..];
        if |rest| == 1 {
          assert Join(rest, sep) == rest[0];
        } else {
          assert rest == [rest[0]] + rest[1..];
          assert parts[1..] == rest[1..];
        }
      }
    }
  }

  /** A piece without the separator, followed by the separator, splits off as one part. */
  lemma {:induction false} SplitPrefix(a: string, rest: string, sep: char)
    requires sep !in a
    ensures Split(a + [sep] + rest, sep) == [a] + Split(rest, sep)
  {
    if a != [] {
      assert (a + [sep] + rest)[1..] == a[1..] + [sep] + rest;
      assert (a + [sep] + rest)[0] == a[0] != sep;
      assert sep !in a[1..];
      SplitPrefix(a[1..], rest, sep);
      assert [a[0]] + a[1..] == a;
    } else {
      assert [] + [sep] + rest == [sep] + rest;
      assert ([sep] + rest)[1..] == rest;
    }
  }

  /** A string without the separator splits into itself alone. */
  lemma {:induction false} SplitNoSep(a: string, sep: char)
    requires sep !in a
    ensures Split(a, sep) == [a]
  {
    if a != [] {
      SplitNoSep(a[1..], sep);
      assert [a[0]] + a[1..] == a;
    }
  }

  /** Joining parts that do not contain the separator and splitting again gives the parts back. */
  lemma {:induction false} SplitJoin(parts: seq<string>, sep: char)
    requires |parts| > 0
    requires forall i :: 0 <= i < |parts| ==> sep !in parts[i]
    ensures Split(Join(parts, sep), sep) == parts
  {
    if |parts| == 1 {
      SplitNoSep(parts[0], sep);
    } else {
      SplitPrefix(parts[0], Join(parts[1..], sep), sep);
      SplitJoin(parts[1..], sep);
      assert [parts[0]] + parts[1..] == parts;
    }
  }

  /** A character that is neither the separator nor in any part is not in the joined text. */
  lemma {:induction false} JoinExcludes(parts: seq<string>, sep: char, c: char)
    requires c != sep
    requires forall i :: 0 <= i < |parts| ==> c !in parts[i]
    ensures c !in Join(parts, sep)
  {
    if |parts| > 1 {
      JoinExcludes(parts[1..], sep, c);
    }
  }

  /** Digits never contain a given non-digit separator. */
  lemma {:induction false} DigitsExclude(s: string, sep: char)
    requires AllDigits(s) && !IsDigit(sep)
    ensures sep !in s
  {
  }

  /** The run replacement introduces no upper-case letter. */
  lemma {:induction false} ReplaceSpaceRunsNoUpper(s: string)
    requires NoUpper(s)
    ensures NoUpper(ReplaceSpaceRuns(s))
    decreases |s|
  {
    if s != [] {
      if IsSpace(s[0]) {
        var u := TrimStart(s[1..]);
        NoUpperSlice(s, 1, |s|);
        NoUpperSlice(s[1..], |s| - 1 - |u|, |s| - 1);
        ReplaceSpaceRunsNoUpper(u);
        NoUpperCons('-', ReplaceSpaceRuns(u));
      } else {
        NoUpperSlice(s, 1, |s|);
        ReplaceSpaceRunsNoUpper(s[1..]);
        NoUpperCons(s[0], ReplaceSpaceRuns(s[1..]));
      }
    }
  }

  /** Trimming introduces no upper-case letter. */
  lemma {:induction false} TrimNoUpper(s: string)
    requires NoUpper(s)
    ensures NoUpper(Trim(s))
  {
    var t := TrimStart(s);
    NoUpperSlice(s, |s| - |t|, |s|);
    NoUpperSlice(t, 0, |TrimEnd(t)|);
  }

  lemma {:induction false} NoUpperCons(c: char, t: string)
    requires !IsUpper(c) && NoUpper(t)
    ensures NoUpper([c] + t)
  {
    forall k | 0 < k <= |t| ensures !IsUpper(([c] + t)[k]) {
      assert ([c] + t)[k] == t[k - 1];
    }
  }

  /** A piece of a string without upper-case letters has none either. */
  lemma {:induction false} NoUpperSlice(s: string, i: nat, j: nat)
    requires NoUpper(s) && i <= j <= |s|
    ensures NoUpper(s[i..j])
  {
    forall k | 0 <= k < j - i ensures !IsUpper(s[i..j][k]) {
      assert s[i..j][k] == s[i + k];
    }
  }

  /** A whitespace-free string is left alone by the run replacement. */
  lemma {:induction false} ReplaceSpaceRunsNoSpace(s: string)
    requires NoSpace(s)
    ensures ReplaceSpaceRuns(s) == s
  {
    if s != [] {
      ReplaceSpaceRunsNoSpace(s[1..]);
      assert [s[0]] + s[1..] == s;
    }
  }

  /** A whitespace-free prefix passes through the run replacement unchanged. */
  lemma {:induction false} ReplaceSpaceRunsPrefix(t: string, r: string)
    requires NoSpace(t)
    ensures ReplaceSpaceRuns(t + r) == t + ReplaceSpaceRuns(r)
  {
    if t != [] {
      assert (t + r)[0] == t[0];
      assert (t + r)[1..] == t[1..] + r;
      ReplaceSpaceRunsPrefix(t[1..], r);
      assert [t[0]] + (t[1..] + ReplaceSpaceRuns(r)) == t + ReplaceSpaceRuns(r);
    } else {
      assert t + r == r;
    }
  }

  lemma {:induction false} TrimStartIdempotent(s: string)
    ensures TrimStart(TrimStart(s)) == TrimStart(s)
  {
  }

  /** A string ending in a non-space character keeps that ending after its leading whitespace is dropped. */
  lemma {:induction false} TrimStartKeepsLast(x: string)
    requires x != [] && !IsSpace(x[|x| - 1])
    ensures TrimStart(x) != [] && TrimStart(x)[|TrimStart(x)| - 1] == x[|x| - 1]
    decreases |x|
  {
    if IsSpace(x[0]) {
      assert x[1..][|x| - 2] == x[|x| - 1];
      TrimStartKeepsLast(x[1..]);
    }
  }

  /** Whitespace appended after a string does not change where its leading whitespace ends. */
  lemma {:induction false} TrimStartAppend(z: string, w: string)
    requires AllSpace(w)
    ensures TrimStart(z) != [] ==> TrimStart(z + w) == TrimStart(z) + w
    ensures TrimStart(z) == [] ==> TrimStart(z + w) == []
  {
    if z == [] {
      assert z + w == w;
      AllSpaceTrimStart(w);
    } else {
      assert (z + w)[0] == z[0];
      assert (z + w)[1..] == z[1..] + w;
      if IsSpace(z[0]) {
        TrimStartAppend(z[1..], w);
      }
    }
  }

  lemma {:induction false} AllSpaceTrimStart(w: string)
    requires AllSpace(w)
    ensures TrimStart(w) == []
  {
    if w != [] {
      AllSpaceTrimStart(w[1..]);
    }
  }

  /** Whitespace appended after a token does not extend it. */
  lemma {:induction false} TokenAppend(t: string, w: string)
    requires AllSpace(w)
    ensures Token(t + w) == Token(t)
  {
    if t == [] {
      assert t + w == w;
    } else {
      assert (t + w)[0] == t[0];
      assert (t + w)[1..] == t[1..] + w;
      if !IsSpace(t[0]) {
        TokenAppend(t[1..], w);
      }
    }
  }

  /** Trailing whitespace contributes no word. */
  lemma {:induction false} WordsAppendSpace(z: string, w: string)
    requires AllSpace(w)
    ensures Words(z + w) == Words(z)
    decreases |z|
  {
    var t := TrimStart(z);
    TrimStartAppend(z, w);
    if t != [] {
      var tok := Token(t);
      TokenAppend(t, w);
      DropAppend(t, w, |tok|);
      WordsAppendSpace(t[|tok|..], w);
    }
  }

  lemma {:induction false} DropAppend(a: string, b: string, k: nat)
    requires k <= |a|
    ensures (a + b)[k..] == a[k..] + b
  {
  }

  /** Dropping whitespace at both ends does not change the words. */
  lemma {:induction false} WordsTrim(s: string)
    ensures Words(Trim(s)) == Words(s)
  {
    WordsTrimEnd(TrimStart(s));
    WordsTrimStart(s);
  }

  /** Leading whitespace contributes no word. */
  lemma {:induction false} WordsTrimStart(s: string)
    ensures Words(TrimStart(s)) == Words(s)
  {
    TrimStartIdempotent(s);
  }

  /** Trailing whitespace contributes no word. */
  lemma {:induction false} WordsTrimEnd(t: string)
    ensures Words(TrimEnd(t)) == Words(t)
  {
    var r := TrimEnd(t);
    var w := t[|r|..];
    assert t == r + w;
    WordsAppendSpace(r, w);
  }

  /** A string that starts with a non-space character keeps itself as the start of its words. */
  lemma {:induction false} WordsFromNonSpace(s: string)
    requires s != [] && !IsSpace(s[0])
    ensures Words(s) == [Token(s)] + Words(s[|Token(s)|..])
  {
  }

  /**
   * On a string with no whitespace at either end, replacing each whitespace run
   * by a dash is the same as joining the words with dashes.
   */
  lemma {:induction false} ReplaceSpaceRunsIsJoinOfWords(s: string)
    requires s == [] || (!IsSpace(s[0]) && !IsSpace(s[|s| - 1]))
    ensures ReplaceSpaceRuns(s) == Join(Words(s), '-')
    decreases |s|
  {
    if s != [] {
      var w := Token(s);
      if |w| == |s| {
        SingleWord(s);
      } else {
        var u := TrimStart(s[|w|..][1..]);
        TokenStep(s, u);
        ReplaceStep(s, u);
        WordsStep(s, u);
        WordsFromNonSpace(u);
        ReplaceSpaceRunsIsJoinOfWords(u);
        ConcatAssoc(w, ['-'], Join(Words(u), '-'));
        JoinCons(w, Words(u), '-');
      }
    }
  }

  /** A string without whitespace is its own single word and is left alone by the run replacement. */
  lemma {:induction false} SingleWord(s: string)
    requires s != [] && !IsSpace(s[0]) && |Token(s)| == |s|
    ensures ReplaceSpaceRuns(s) == Join(Words(s), '-')
  {
    var t := Token(s);
    assert t == s;
    ReplaceSpaceRunsNoSpace(s);
    WordsFromNonSpace(s);
    assert s[|t|..] == [];
    assert Words(s) == [s];
  }

  /**
   * A string with no whitespace at either end and more than one word: its
   * first token, one dash, then the same treatment of what follows the next
   * whitespace run.
   */
  lemma {:induction false} TokenStep(s: string, u: string)
    requires s != [] && !IsSpace(s[0]) && !IsSpace(s[|s| - 1])
    requires |Token(s)| < |s| && u == TrimStart(s[|Token(s)|..][1..])
    ensures |u| < |s| && u != [] && !IsSpace(u[0]) && !IsSpace(u[|u| - 1])
  {
    var w := Token(s);
    var rest := s[|w|..];
    assert rest[|rest| - 1] == s[|s| - 1];
    SpaceRunStep(rest);
  }

  lemma {:induction false} ReplaceStep(s: string, u: string)
    requires s != [] && !IsSpace(s[0])
    requires |Token(s)| < |s| && u == TrimStart(s[|Token(s)|..][1..])
    ensures ReplaceSpaceRuns(s) == Token(s) + (['-'] + ReplaceSpaceRuns(u))
  {
    var w := Token(s);
    var rest := s[|w|..];
    TokenSplit(s);
    ReplaceSpaceRunsPrefix(w, rest);
    ReplaceAfterSpace(rest, u);
  }

  /** A string is its first token followed by the rest. */
  lemma {:induction false} TokenSplit(s: string)
    ensures s == Token(s) + s[|Token(s)|..]
  {
    var n := |Token(s)|;
    assert s == s[..n] + s[n..];
  }

  lemma {:induction false} ReplaceAfterSpace(rest: string, u: string)
    requires rest != [] && IsSpace(rest[0]) && u == TrimStart(rest[1..])
    ensures ReplaceSpaceRuns(rest) == ['-'] + ReplaceSpaceRuns(u)
  {
  }

  lemma {:induction false} WordsStep(s: string, u: string)
    requires s != [] && !IsSpace(s[0])
    requires |Token(s)| < |s| && u == TrimStart(s[|Token(s)|..][1..])
    ensures Words(s) == [Token(s)] + Words(u)
  {
    var rest := s[|Token(s)|..];
    WordsFromNonSpace(s);
    assert TrimStart(rest) == u;
    TrimStartIdempotent(rest[1..]);
  }

  /**
   * What follows a token, when it does not end the string: a whitespace run
   * that becomes one dash and contributes no word, then a string without
   * whitespace at either end.
   */
  lemma {:induction false} SpaceRunStep(rest: string)
    requires rest != [] && IsSpace(rest[0]) && !IsSpace(rest[|rest| - 1])
    ensures TrimStart(rest[1..]) != []
    ensures !IsSpace(TrimStart(rest[1..])[0]) && !IsSpace(TrimStart(rest[1..])[|TrimStart(rest[1..])| - 1])
  {
    assert rest[1..][|rest| - 2] == rest[|rest| - 1];
    TrimStartKeepsLast(rest[1..]);
  }

  lemma {:induction false} ConcatAssoc(a: string, b: string, c: string)
    ensures a + (b + c) == a + b + c
  {
  }

  lemma {:induction false} JoinCons(w: string, ws: seq<string>, sep: char)
    requires ws != []
    ensures Join([w] + ws, sep) == w + [sep] + Join(ws, sep)
  {
    assert ([w] + ws)[1..] == ws;
  }


  /** Trimming, then turning each whitespace run into a dash, joins the words of the input with dashes. */
  lemma {:induction false} TrimReplaceIsJoinOfWords(s: string)
    ensures ReplaceSpaceRuns(Trim(s)) == Join(Words(s), '-')
  {
    ReplaceSpaceRunsIsJoinOfWords(Trim(s));
    WordsTrim(s);
  }
}
