/** String helpers with JavaScript's meaning: `trim`, `\s`, `\w`, `substring`, `includes`, `join`. */
module Text {

  /** JavaScript's white space and line terminators: the set that both `String.prototype.trim`
      and the regular-expression class `\s` use. */
  predicate IsSpace(c: char)
  {
    || c == ' ' || c == '\t' || c == '\n' || c == '\r' || c == '\U{000B}' || c == '\U{000C}'
    || c == '\U{00A0}' || c == '\U{1680}' || ('\U{2000}' <= c <= '\U{200A}')
    || c == '\U{2028}' || c == '\U{2029}' || c == '\U{202F}' || c == '\U{205F}'
    || c == '\U{3000}' || c == '\U{FEFF}'
  }

  /** The regular-expression class `\w` without the `u` flag: `[A-Za-z0-9_]`. */
  predicate IsWordChar(c: char)
  {
    ('a' <= c <= 'z') || ('A' <= c <= 'Z') || ('0' <= c <= '9') || c == '_'
  }

  /** Every character is a word character: what `\w*` can match. */
  predicate IsWord(s: string)
  {
    forall i :: 0 <= i < |s| ==> IsWordChar(s[i])
  }

  /** Every character is white space (vacuously true of the empty string). */
  predicate Blank(s: string)
  {
    forall i :: 0 <= i < |s| ==> IsSpace(s[i])
  }

  /** Neither the first nor the last character is white space. */
  predicate Trimmed(s: string)
  {
    s == [] || (!IsSpace(s[0]) && !IsSpace(s[|s| - 1]))
  }

  /** Drops the leading white space: the result is the longest suffix that does not start with it. */
  function TrimStart(s: string): (r: string)
    ensures |r| <= |s| && r == s[|s| - |r|..]
    ensures Blank(s[..|s| - |r|])
    ensures r == [] || !IsSpace(r[0])
  {
    if s != [] && IsSpace(s[0]) then TrimStart(s[1..]) else s
  }

  /** Drops the trailing white space: the result is the longest prefix that does not end with it. */
  function TrimEnd(s: string): (r: string)
    ensures |r| <= |s| && r == s[..|r|]
    ensures Blank(s[|r|..])
    ensures r == [] || !IsSpace(r[|r| - 1])
  {
    if s != [] && IsSpace(s[|s| - 1]) then TrimEnd(s[..|s| - 1]) else s
  }

  /** `part` occurs in `whole` starting at index `a`. */
  predicate InfixAt(part: string, whole: string, a: int)
  {
    0 <= a <= |whole| - |part| && whole[a..a + |part|] == part
  }

  /** An infix of an infix is an infix. */
  lemma InfixOfInfix(x: string, y: string, z: string, a: int, b: int)
    requires InfixAt(x, y, a) && InfixAt(y, z, b)
    ensures InfixAt(x, z, a + b)
  {
    forall i | 0 <= i < |x|
      ensures z[a + b + i] == x[i]
    {
      assert z[b..b + |y|][a + i] == y[a..a + |x|][i];
    }
  }

  /** `String.prototype.trim`: the infix left once both white-space runs are gone. */
  function Trim(s: string): (r: string)
    ensures Trimmed(r)
    ensures exists a :: InfixAt(r, s, a) && Blank(s[..a]) && Blank(s[a + |r|..])
  {
    TrimCut(s, TrimStart(s), TrimEnd(TrimStart(s)));
    TrimEnd(TrimStart(s))
  }

  /** The facts `Trim` promises, from what its two halves promise: `t` is the suffix of `s` after
      its leading white space and `r` the prefix of `t` before its trailing white space. */
  lemma TrimCut(s: string, t: string, r: string)
    requires |t| <= |s| && t == s[|s| - |t|..] && Blank(s[..|s| - |t|]) && (t == [] || !IsSpace(t[0]))
    requires |r| <= |t| && r == t[..|r|] && Blank(t[|r|..]) && (r == [] || !IsSpace(r[|r| - 1]))
    ensures Trimmed(r)
    ensures exists a :: InfixAt(r, s, a) && Blank(s[..a]) && Blank(s[a + |r|..])
  {
    if r != [] {
      assert r[0] == t[0];
    }
    TrimPieces(s, t, r);
  }

  /** Where the two halves of `Trim` cut: a prefix `r` of the suffix `t` of `s` sits in `s` where `t`
      starts, and what follows it in `s` is what follows it in `t`. */
  lemma TrimPieces(s: string, t: string, r: string)
    requires |t| <= |s| && t == s[|s| - |t|..] && |r| <= |t| && r == t[..|r|]
    requires Blank(s[..|s| - |t|]) && Blank(t[|r|..])
    ensures InfixAt(r, s, |s| - |t|) && Blank(s[..|s| - |t|]) && Blank(s[|s| - |t| + |r|..])
  {
    var a := |s| - |t|;
    SlicesOfSuffix(s, a, |r|);
  }

  /** Cutting a suffix again is cutting the whole string further along. */
  lemma SlicesOfSuffix(s: string, a: int, n: int)
    requires 0 <= a <= |s| && 0 <= n <= |s| - a
    ensures s[a..a + n] == s[a..][..n] && s[a + n..] == s[a..][n..]
  {
  }

  /** Trimming leaves a string that is already trimmed as it is. */
  lemma {:induction false} TrimOfTrimmed(s: string)
    requires Trimmed(s)
    ensures Trim(s) == s
  {
    if s != [] {
      assert TrimStart(s) == s;
      assert TrimEnd(s) == s;
    }
  }

  /** Trimming a blank string leaves nothing. */
  lemma TrimOfBlank(s: string)
    requires Blank(s)
    ensures Trim(s) == []
  {
  }

  /** Leading white space before a non-space character is exactly what `TrimStart` drops. */
  lemma {:induction false} TrimStartAfterBlank(ws: string, b: string)
    requires Blank(ws)
    requires b == [] || !IsSpace(b[0])
    ensures TrimStart(ws + b) == b
  {
    if ws != [] {
      assert (ws + b)[0] == ws[0];
      assert (ws + b)[1..] == ws[1..] + b;
      TrimStartAfterBlank(ws[1..], b);
    } else {
      assert ws + b == b;
    }
  }

  /** Trailing white space after a non-space character is exactly what `TrimEnd` drops. */
  lemma {:induction false} TrimEndBeforeBlank(b: string, ws: string)
    requires Blank(ws)
    requires b == [] || !IsSpace(b[|b| - 1])
    ensures TrimEnd(b + ws) == b
  {
    if ws != [] {
      var last := |ws| - 1;
      assert (b + ws)[|b + ws| - 1] == ws[last];
      assert (b + ws)[..|b + ws| - 1] == b + ws[..last];
      TrimEndBeforeBlank(b, ws[..last]);
    } else {
      assert b + ws == b;
    }
  }

  /** Trimming a trimmed text wrapped in white space gives the text back. */
  lemma TrimAround(before: string, body: string, after: string)
    requires Blank(before) && Blank(after) && Trimmed(body) && body != []
    ensures Trim(before + body + after) == body
  {
    assert before + body + after == before + (body + after);
    TrimStartAfterBlank(before, body + after);
    TrimEndBeforeBlank(body, after);
  }

  /** Length of the longest prefix made of `\w` characters (what a greedy `\w*` consumes). */
  function WordPrefixLength(s: string): (k: nat)
    ensures k <= |s|
    ensures forall i :: 0 <= i < k ==> IsWordChar(s[i])
    ensures k == |s| || !IsWordChar(s[k])
  {
    if s != [] && IsWordChar(s[0]) then 1 + WordPrefixLength(s[1..]) else 0
  }

  /** `s.substring(0, n)`: at most the first `n` characters. */
  function Prefix(s: string, n: nat): (r: string)
    ensures |r| <= n && r <= s
    ensures |s| <= n ==> r == s
    ensures |s| > n ==> |r| == n
  {
    if |s| <= n then s else s[..n]
  }

  /** `s.includes(part)`. */
  predicate Contains(s: string, part: string)
    decreases |s|
  {
    |part| <= |s| && (s[..|part|] == part || (s != [] && Contains(s[1..], part)))
  }

  /** `includes` holds exactly when `part` occurs at some index of `s`. */
  lemma {:induction false} ContainsIffInfix(s: string, part: string)
    ensures Contains(s, part) <==> exists a :: InfixAt(part, s, a)
    decreases |s|
  {
    if |part| <= |s| {
      if s[..|part|] == part {
        assert InfixAt(part, s, 0);
      } else if s != [] {
        ContainsIffInfix(s[1..], part);
        if Contains(s[1..], part) {
          var a :| InfixAt(part, s[1..], a);
          assert s[a + 1..a + 1 + |part|] == s[1..][a..a + |part|];
          assert InfixAt(part, s, a + 1);
        }
        if a :| InfixAt(part, s, a) {
          assert a != 0;
          assert s[1..][a - 1..a - 1 + |part|] == s[a..a + |part|];
          assert InfixAt(part, s[1..], a - 1);
        }
      }
    }
  }

  /** A string lacking one of `part`'s characters does not contain `part`. */
  lemma {:induction false} MissingCharNotContained(s: string, part: string, k: nat)
    requires k < |part| && forall j :: 0 <= j < |s| ==> s[j] != part[k]
    ensures !Contains(s, part)
    decreases |s|
  {
    if |part| <= |s| {
      assert s[..|part|][k] == s[k];
      if s != [] {
        MissingCharNotContained(s[1..], part, k);
      }
    }
  }

  /** `parts.join(sep)`. */
  function Join(parts: seq<string>, sep: string): string
  {
    if parts == [] then ""
    else if |parts| == 1 then parts[0]
    else parts[0] + sep + Join(parts[1..], sep)
  }

  /** A decimal digit. */
  function Digit(d: nat): (c: char)
    requires d < 10
    ensures '0' <= c <= '9' && c as int - '0' as int == d
  {
    ('0' as int + d) as char
  }

  /** Whether every character is a decimal digit. */
  predicate AllDigits(s: string)
  {
    forall i :: 0 <= i < |s| ==> '0' <= s[i] <= '9'
  }

  /** The number a run of decimal digits denotes, read most significant digit first. */
  function DigitsValue(s: string): nat
    requires AllDigits(s)
  {
    if s == [] then 0 else 10 * DigitsValue(s[..|s| - 1]) + (s[|s| - 1] as int - '0' as int)
  }

  /** Decimal rendering of a natural number, as a template literal writes an integer: the digits
      that denote `n`, with no leading zero except in `0` itself. */
  function Decimal(n: nat): (r: string)
    ensures r != [] && AllDigits(r)
    ensures DigitsValue(r) == n
    ensures r[0] == '0' ==> r == "0"
  {
    if n < 10 then [Digit(n)]
    else
      var r := Decimal(n / 10) + [Digit(n % 10)];
      assert r[..|r| - 1] == Decimal(n / 10);
      r
  }

  /** Different numbers are rendered differently. */
  lemma DecimalInjective(m: nat, n: nat)
    requires m != n
    ensures Decimal(m) != Decimal(n)
  {
  }
}
