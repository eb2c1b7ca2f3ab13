/** The slice of Python's `str` behaviour the text analysers rely on:
    `lower()`, `strip()`, `split()`, `split(sep)`, `in` (substring),
    `" ".join(...)` and `str(n)` for naturals.

    Whitespace is the full set of `str.isspace` (which `split()`, `strip()`
    and `re`'s `\s` all use). Lower-casing and `isalnum` are exact on ASCII
    and Latin-1, the characters Portuguese text is written in; beyond U+00FF
    every character counts as neither a capital nor alphanumeric. */
module Text {

  /** `str.isspace`: the ASCII controls `\t`..`\r`, the separators U+001C..U+001F,
      the space, U+0085, the no-break space and the Unicode space separators. */
  predicate IsSpace(c: char)
  {
    || '\t' <= c <= '\r' || '\U{001C}' <= c <= '\U{001F}' || c == ' '
    || c == '\U{0085}' || c == '\U{00A0}' || c == '\U{1680}'
    || '\U{2000}' <= c <= '\U{200A}' || c == '\U{2028}' || c == '\U{2029}'
    || c == '\U{202F}' || c == '\U{205F}' || c == '\U{3000}'
  }

  /** Python `str.isalnum` on one character, up to U+00FF: ASCII letters and
      digits, the Latin-1 letters (all of U+00C0..U+00FF but the two signs
      U+00D7 and U+00F7), the ordinal indicators, the micro sign, and the
      superscript digits and vulgar fractions that count as numeric. */
  predicate IsAlnum(c: char)
  {
    || 'a' <= c <= 'z' || 'A' <= c <= 'Z' || '0' <= c <= '9'
    || ('\U{00C0}' <= c <= '\U{00FF}' && c != '\U{00D7}' && c != '\U{00F7}')
    || c == '\U{00AA}' || c == '\U{00BA}' || c == '\U{00B5}'
    || c == '\U{00B2}' || c == '\U{00B3}' || c == '\U{00B9}' || '\U{00BC}' <= c <= '\U{00BE}'
  }

  function LowerChar(c: char): (r: char)
    ensures 'A' <= c <= 'Z' ==> 'a' <= r <= 'z'
    ensures !('A' <= c <= 'Z') && !('\U{00C0}' <= c <= '\U{00DE}') ==> r == c
  {
    if 'A' <= c <= 'Z' then (c as int + 32) as char
    else if '\U{00C0}' <= c <= '\U{00DE}' && c != '\U{00D7}' then (c as int + 32) as char
    else c
  }

  /** Python `s.lower()`, character by character. */
  function Lower(s: string): (r: string)
    ensures |r| == |s|
    ensures forall i :: 0 <= i < |s| ==> r[i] == LowerChar(s[i])
  {
    seq(|s|, i requires 0 <= i < |s| => LowerChar(s[i]))
  }

  /** How many leading characters satisfy `drop`. */
  function LeadingCount(s: string, drop: char -> bool): (n: nat)
    ensures n <= |s|
    ensures forall i :: 0 <= i < n ==> drop(s[i])
    ensures n == |s| || !drop(s[n])
  {
    if |s| > 0 && drop(s[0]) then 1 + LeadingCount(s[1..], drop) else 0
  }

  /** How many trailing characters satisfy `drop`. */
  function TrailingCount(s: string, drop: char -> bool): (n: nat)
    ensures n <= |s|
    ensures forall i :: |s| - n <= i < |s| ==> drop(s[i])
    ensures n == |s| || !drop(s[|s| - n - 1])
  {
    if |s| > 0 && drop(s[|s| - 1]) then 1 + TrailingCount(s[..|s| - 1], drop) else 0
  }

  /** Python `lstrip(chars)`. */
  function TrimStart(s: string, drop: char -> bool): string
  {
    s[LeadingCount(s, drop)..]
  }

  /** Python `rstrip(chars)`. */
  function TrimEnd(s: string, drop: char -> bool): string
  {
    s[..|s| - TrailingCount(s, drop)]
  }

  /** Python `s.strip(chars)`. */
  function Trim(s: string, drop: char -> bool): string
  {
    TrimEnd(TrimStart(s, drop), drop)
  }

  /** Python `s.strip()`. */
  function Strip(s: string): string
  {
    Trim(s, IsSpace)
  }

  predicate IsBlank(s: string)
  {
    forall i :: 0 <= i < |s| ==> IsSpace(s[i])
  }

  /** `not s.strip()` holds exactly for the all-whitespace strings (the empty one included). */
  lemma StripEmptyIffBlank(s: string)
    ensures Strip(s) == [] <==> IsBlank(s)
  {
  }

  /** A token of `str.split()`: non-empty and free of whitespace. */
  predicate IsWord(w: string)
  {
    |w| > 0 && forall i :: 0 <= i < |w| ==> !IsSpace(w[i])
  }

  function LeadingWordLen(s: string): (n: nat)
    requires |s| > 0 && !IsSpace(s[0])
    ensures 1 <= n <= |s|
    ensures forall i :: 0 <= i < n ==> !IsSpace(s[i])
    ensures n == |s| || IsSpace(s[n])
  {
    if |s| == 1 || IsSpace(s[1]) then 1 else 1 + LeadingWordLen(s[1..])
  }

  /** Python `s.split()` with no argument: the maximal whitespace-free runs. */
  function Words(s: string): (r: seq<string>)
    ensures forall k :: 0 <= k < |r| ==> IsWord(r[k])
    ensures |r| == 0 <==> IsBlank(s)
    decreases |s|
  {
    if |s| == 0 then []
    else if IsSpace(s[0]) then Words(s[1..])
    else
      var n := LeadingWordLen(s);
      [s[..n]] + Words(s[n..])
  }

  /** Python `s.split(sep)` for a one-character separator: always at least one piece. */
  function SplitOn(s: string, sep: char): (r: seq<string>)
    ensures |r| >= 1
    ensures forall k, i :: 0 <= k < |r| && 0 <= i < |r[k]| ==> r[k][i] != sep
  {
    if |s| == 0 then [[]]
    else
      var rest := SplitOn(s[1..], sep);
      if s[0] == sep then [[]] + rest else [[s[0]] + rest[0]] + rest[1..]
  }

  /** `p` occurs in `s` starting at index `i`. */
  predicate OccursAt(s: string, p: string, i: int)
  {
    0 <= i && i + |p| <= |s| && s[i..i + |p|] == p
  }

  /** Python's `p in s` for strings. */
  predicate Contains(s: string, p: string)
  {
    exists i :: 0 <= i <= |s| - |p| && OccursAt(s, p, i)
  }

  /** A string cannot contain a pattern whose first character it lacks. */
  lemma NotContainsWithoutFirstChar(s: string, p: string)
    requires |p| > 0
    requires forall i :: 0 <= i < |s| ==> s[i] != p[0]
    ensures !Contains(s, p)
  {
    forall i | 0 <= i <= |s| - |p|
      ensures !OccursAt(s, p, i)
    {
      assert s[i..i + |p|][0] == s[i];
    }
  }

  lemma ContainsPrefix(s: string, p: string)
    requires |p| <= |s| && s[..|p|] == p
    ensures Contains(s, p)
  {
    assert OccursAt(s, p, 0);
  }

  /** A pattern found inside `b` is also found inside `a + b + c`. */
  lemma ContainsInfix(a: string, b: string, c: string, p: string)
    requires Contains(b, p)
    ensures Contains(a + b + c, p)
  {
    var i :| 0 <= i <= |b| - |p| && OccursAt(b, p, i);
    assert (a + b + c)[|a| + i..|a| + i + |p|] == b[i..i + |p|];
    assert OccursAt(a + b + c, p, |a| + i);
  }

  /** Substring containment is transitive. */
  lemma ContainsTrans(a: string, b: string, p: string)
    requires Contains(a, b) && Contains(b, p)
    ensures Contains(a, p)
  {
    var i :| 0 <= i <= |a| - |b| && OccursAt(a, b, i);
    var j :| 0 <= j <= |b| - |p| && OccursAt(b, p, j);
    var window := a[i..i + |b|];
    assert window == b;
    forall t | 0 <= t < |p|
      ensures a[i + j..i + j + |p|][t] == p[t]
    {
      assert a[i + j..i + j + |p|][t] == window[j + t];
      assert window[j + t] == b[j..j + |p|][t];
    }
    assert a[i + j..i + j + |p|] == p;
    assert OccursAt(a, p, i + j);
  }

  /** Python `repr(s)` for a string free of quotes and backslashes. */
  function Quote(s: string): string
  {
    "'" + s + "'"
  }

  /** The items of `str(xs)` for a list of strings, separated by `", "`. */
  function ReprItems(xs: seq<string>): string
  {
    if |xs| == 0 then "" else if |xs| == 1 then Quote(xs[0]) else Quote(xs[0]) + ", " + ReprItems(xs[1..])
  }

  /** Python `str(xs)` for a list of such strings, e.g. `['a', 'b']`. */
  function ListRepr(xs: seq<string>): string
  {
    "[" + ReprItems(xs) + "]"
  }

  /** Punctuation `str(xs)` adds around the items. */
  predicate IsReprPunctuation(c: char)
  {
    c == '[' || c == ']' || c == '\'' || c == ',' || c == ' '
  }

  /** A character absent from every item and not used as punctuation is absent from `str(xs)`. */
  lemma {:induction false} ReprItemsLacksChar(xs: seq<string>, c: char)
    requires !IsReprPunctuation(c)
    requires forall k, i :: 0 <= k < |xs| && 0 <= i < |xs[k]| ==> xs[k][i] != c
    ensures forall i :: 0 <= i < |ReprItems(xs)| ==> ReprItems(xs)[i] != c
    decreases |xs|
  {
    if |xs| > 1 {
      ReprItemsLacksChar(xs[1..], c);
      var q := Quote(xs[0]);
      var rest := ReprItems(xs[1..]);
      assert ReprItems(xs) == q + ", " + rest;
      forall i | 0 <= i < |ReprItems(xs)|
        ensures ReprItems(xs)[i] != c
      {
        if i < |q| {
          assert ReprItems(xs)[i] == q[i];
          if 0 < i < |q| - 1 {
            assert q[i] == xs[0][i - 1];
          }
        } else if i >= |q| + 2 {
          assert ReprItems(xs)[i] == rest[i - |q| - 2];
        }
      }
    } else if |xs| == 1 {
      var q := Quote(xs[0]);
      forall i | 0 <= i < |q|
        ensures q[i] != c
      {
        if 0 < i < |q| - 1 {
          assert q[i] == xs[0][i - 1];
        }
      }
    }
  }

  lemma ListReprLacksChar(xs: seq<string>, c: char)
    requires !IsReprPunctuation(c)
    requires forall k, i :: 0 <= k < |xs| && 0 <= i < |xs[k]| ==> xs[k][i] != c
    ensures forall i :: 0 <= i < |ListRepr(xs)| ==> ListRepr(xs)[i] != c
  {
    ReprItemsLacksChar(xs, c);
    var items := ReprItems(xs);
    forall i | 0 <= i < |ListRepr(xs)|
      ensures ListRepr(xs)[i] != c
    {
      if 0 < i < |ListRepr(xs)| - 1 {
        assert ListRepr(xs)[i] == items[i - 1];
      }
    }
  }

  /** Every item appears verbatim inside `str(xs)`. */
  lemma {:induction false} ReprItemsContainsMember(xs: seq<string>, k: nat)
    requires k < |xs|
    ensures Contains(ReprItems(xs), xs[k])
    decreases |xs|
  {
    var q := Quote(xs[0]);
    assert Contains(q, xs[0]) by {
      assert q == "'" + xs[0] + "'";
      ContainsInfix("'", xs[0], "'", xs[0]) by {
        ContainsPrefix(xs[0], xs[0]);
      }
    }
    if |xs| == 1 {
    } else if k == 0 {
      assert ReprItems(xs) == "" + q + (", " + ReprItems(xs[1..]));
      ContainsInfix("", q, ", " + ReprItems(xs[1..]), xs[0]);
    } else {
      ReprItemsContainsMember(xs[1..], k - 1);
      assert ReprItems(xs) == q + ", " + ReprItems(xs[1..]) + "";
      ContainsInfix(q + ", ", ReprItems(xs[1..]), "", xs[k]);
    }
  }

  lemma ListReprContainsMember(xs: seq<string>, k: nat)
    requires k < |xs|
    ensures Contains(ListRepr(xs), xs[k])
  {
    ReprItemsContainsMember(xs, k);
    ContainsInfix("[", ReprItems(xs), "]", xs[k]);
  }

  /** Python `sep.join(xs)`. */
  function Join(xs: seq<string>, sep: string): string
  {
    if |xs| == 0 then []
    else if |xs| == 1 then xs[0]
    else xs[0] + sep + Join(xs[1..], sep)
  }

  function DigitChar(d: nat): (c: char)
    requires d < 10
    ensures '0' <= c <= '9'
  {
    ('0' as int + d) as char
  }

  /** Python `str(n)` for a natural number: decimal digits without leading zeros. */
  function NatToString(n: nat): (r: string)
    ensures |r| >= 1
    ensures forall i :: 0 <= i < |r| ==> '0' <= r[i] <= '9'
  {
    if n < 10 then [DigitChar(n)] else NatToString(n / 10) + [DigitChar(n % 10)]
  }

  /** Reads back a string of decimal digits. */
  function ParseDigits(s: string): nat
    requires forall i :: 0 <= i < |s| ==> '0' <= s[i] <= '9'
  {
    if |s| == 0 then 0 else 10 * ParseDigits(s[..|s| - 1]) + (s[|s| - 1] as int - '0' as int)
  }

  lemma {:induction false} ParseNatToString(n: nat)
    ensures ParseDigits(NatToString(n)) == n
  {
    if n >= 10 {
      var s := NatToString(n);
      assert s[..|s| - 1] == NatToString(n / 10);
      ParseNatToString(n / 10);
    }
  }

  /** Distinct numbers print differently, so "analysis_{k}" ids are distinct for distinct k. */
  lemma NatToStringInjective(a: nat, b: nat)
    requires NatToString(a) == NatToString(b)
    ensures a == b
  {
    ParseNatToString(a);
    ParseNatToString(b);
  }
}
