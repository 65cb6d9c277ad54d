/** The few JavaScript string operations the ingestion path relies on:
    `String.prototype.trim`, `startsWith`, and the decimal rendering of a
    non-negative integer (`Date.now().toString()`, string concatenation
    with a number). */
module Text {

  /** The code points `String.prototype.trim` strips: ECMAScript's
      WhiteSpace (tab, vertical tab, form feed, space, no-break space,
      byte order mark and every Zs space) and LineTerminator (LF, CR,
      line separator, paragraph separator). */
  predicate IsJsWhitespace(c: char)
  {
    var n := c as int;
    n == 0x09 || n == 0x0A || n == 0x0B || n == 0x0C || n == 0x0D || n == 0x20
    || n == 0xA0 || n == 0x1680 || (0x2000 <= n <= 0x200A) || n == 0x2028
    || n == 0x2029 || n == 0x202F || n == 0x205F || n == 0x3000 || n == 0xFEFF
  }

  predicate AllWhitespace(s: string)
  {
    forall i :: 0 <= i < |s| ==> IsJsWhitespace(s[i])
  }

  /** `r` is what is left of `s` once an all-whitespace prefix and an
      all-whitespace suffix are cut off. */
  ghost predicate TrimmedInfix(s: string, r: string) {
    exists i, j :: 0 <= i <= j <= |s| && r == s[i..j]
                   && AllWhitespace(s[..i]) && AllWhitespace(s[j..])
  }

  /** Cutting nothing off leaves `s` itself. */
  lemma TrimmedInfixWhole(s: string)
    ensures TrimmedInfix(s, s)
  {
    assert s[0..|s|] == s && s[..0] == [] && s[|s|..] == [];
  }

  /** A leading whitespace character joins the cut-off prefix. */
  lemma TrimmedInfixDropHead(s: string, r: string)
    requires s != [] && IsJsWhitespace(s[0]) && TrimmedInfix(s[1..], r)
    ensures TrimmedInfix(s, r)
  {
    var t := s[1..];
    var i, j :| 0 <= i <= j <= |t| && r == t[i..j]
                && AllWhitespace(t[..i]) && AllWhitespace(t[j..]);
    var p := s[..i + 1];
    forall k | 0 <= k < |p| ensures IsJsWhitespace(p[k]) {
      if k > 0 {
        assert p[k] == t[..i][k - 1];
      }
    }
    assert r == s[i + 1..j + 1] && s[j + 1..] == t[j..];
    assert AllWhitespace(s[..i + 1]) && AllWhitespace(s[j + 1..]);
  }

  /** A trailing whitespace character joins the cut-off suffix. */
  lemma TrimmedInfixDropLast(s: string, r: string)
    requires s != [] && IsJsWhitespace(s[|s| - 1]) && TrimmedInfix(s[..|s| - 1], r)
    ensures TrimmedInfix(s, r)
  {
    var t := s[..|s| - 1];
    var i, j :| 0 <= i <= j <= |t| && r == t[i..j]
                && AllWhitespace(t[..i]) && AllWhitespace(t[j..]);
    assert r == s[i..j];
    assert s[..i] == t[..i];
    assert s[j..] == t[j..] + [s[|s| - 1]];
  }

  /** `s.trim()`: whitespace removed from both ends. The result is blank
      exactly when `s` is all whitespace, otherwise it neither starts nor
      ends with whitespace, and a string with no whitespace at either end
      is left as it is; `TrimIsInfix` adds that it is what is left of `s`
      once whitespace is cut off both ends. */
  function Trim(s: string): (r: string)
    ensures |r| <= |s|
    ensures r == [] <==> AllWhitespace(s)
    ensures r != [] ==> !IsJsWhitespace(r[0]) && !IsJsWhitespace(r[|r| - 1])
    ensures s != [] && !IsJsWhitespace(s[0]) && !IsJsWhitespace(s[|s| - 1]) ==> r == s
  {
    if s == [] then []
    else if IsJsWhitespace(s[0]) then
      var r := Trim(s[1..]);
      assert AllWhitespace(s[1..]) ==> AllWhitespace(s) by {
        if AllWhitespace(s[1..]) {
          forall i | 0 < i < |s| ensures IsJsWhitespace(s[i]) {
            assert s[i] == s[1..][i - 1];
          }
        }
      }
      r
    else if IsJsWhitespace(s[|s| - 1]) then
      var r := Trim(s[..|s| - 1]);
      assert !AllWhitespace(s[..|s| - 1]) by {
        assert s[..|s| - 1][0] == s[0];
      }
      r
    else s
  }

  /** What `Trim` returns is `s` with an all-whitespace prefix and an
      all-whitespace suffix cut off: no other character is dropped, none is
      added and the order is kept. */
  lemma {:induction false} TrimIsInfix(s: string)
    ensures TrimmedInfix(s, Trim(s))
  {
    if s == [] || (!IsJsWhitespace(s[0]) && !IsJsWhitespace(s[|s| - 1])) {
      TrimmedInfixWhole(s);
    } else if IsJsWhitespace(s[0]) {
      TrimIsInfix(s[1..]);
      TrimmedInfixDropHead(s, Trim(s[1..]));
    } else {
      TrimIsInfix(s[..|s| - 1]);
      TrimmedInfixDropLast(s, Trim(s[..|s| - 1]));
    }
  }

  /** Trimming twice is trimming once. */
  lemma {:induction false} TrimIdempotent(s: string)
    ensures Trim(Trim(s)) == Trim(s)
  {
  }

  /** `p` is a prefix of `s` (`s.startsWith(p)`). */
  predicate StartsWith(s: string, p: string)
  {
    p <= s
  }

  predicate IsDigit(c: char)
  {
    '0' <= c <= '9'
  }

  predicate AllDigits(s: string)
  {
    forall i :: 0 <= i < |s| ==> IsDigit(s[i])
  }

  function DigitChar(d: nat): (c: char)
    requires d < 10
    ensures IsDigit(c) && c as int - '0' as int == d
  {
    ('0' as int + d) as char
  }

  /** The decimal rendering JavaScript gives a non-negative integer below
      10^21: no sign, no leading zero, digits only. */
  function NatToString(n: nat): (r: string)
    ensures |r| >= 1 && AllDigits(r)
    ensures r[0] == '0' ==> n == 0
  {
    if n < 10 then [DigitChar(n)] else NatToString(n / 10) + [DigitChar(n % 10)]
  }

  /** Reads a digit string back as the number it denotes. */
  function ParseDecimal(s: string): nat
    requires AllDigits(s)
  {
    if s == [] then 0
    else ParseDecimal(s[..|s| - 1]) * 10 + (s[|s| - 1] as int - '0' as int)
  }

  /** The decimal rendering loses nothing: reading it back gives the number. */
  lemma {:induction false} ParseNatToString(n: nat)
    ensures ParseDecimal(NatToString(n)) == n
  {
    var r := NatToString(n);
    if n < 10 {
      assert r[..0] == [];
    } else {
      ParseNatToString(n / 10);
      assert r[..|r| - 1] == NatToString(n / 10);
    }
  }

  /** Distinct numbers have distinct renderings. */
  lemma NatToStringInjective(a: nat, b: nat)
    requires NatToString(a) == NatToString(b)
    ensures a == b
  {
    ParseNatToString(a);
    ParseNatToString(b);
  }

  lemma SeparatorAfterPrefix(a: string, b: string, c: string, d: string, sep: char)
    requires |a| < |c|
    requires b == [] || b[0] == sep
    requires a + b == c + d
    ensures c[|a|] == sep
  {
    assert b != [] by {
      assert |a + b| == |c + d|;
    }
    assert (a + b)[|a|] == b[0];
  }

  /** If `a + b == c + d`, neither `a` nor `c` contains `sep`, and each of
      `b`, `d` is empty or starts with `sep`, then the split is the same:
      the first `sep` marks the boundary. */
  lemma SplitAtSeparator(a: string, b: string, c: string, d: string, sep: char)
    requires sep !in a && sep !in c
    requires b == [] || b[0] == sep
    requires d == [] || d[0] == sep
    requires a + b == c + d
    ensures a == c && b == d
  {
    if |a| < |c| {
      SeparatorAfterPrefix(a, b, c, d, sep);
      assert false;
    } else if |c| < |a| {
      SeparatorAfterPrefix(c, d, a, b, sep);
      assert false;
    }
    assert a == (a + b)[..|a|] && c == (c + d)[..|c|];
    assert b == (a + b)[|a|..] && d == (c + d)[|c|..];
  }
}
