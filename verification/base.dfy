/**
 * Shared vocabulary: an Option type and the handful of Python string
 * operations the evaluator relies on (`in`, `startswith`, `strip`,
 * `lower`, `split`, `replace`, `unidecode`), written out over `seq<char>`.
 */
module Base {

  datatype Option<+T> = None | Some(value: T)

  /** Python's slice `s[:n]` for `n >= 0`. */
  function Take<T>(s: seq<T>, n: nat): (r: seq<T>)
    ensures |r| <= n && |r| <= |s|
    ensures r == s[..|r|]
    ensures |s| <= n ==> r == s
    ensures n <= |s| ==> |r| == n
  {
    if n < |s| then s[..n] else s
  }

  /** Python truthiness of an optional string: present and non-empty. */
  predicate Truthy(o: Option<string>) {
    o.Some? && o.value != ""
  }

  // ---------------------------------------------------------------------
  // Prefixes, suffixes and substrings
  // ---------------------------------------------------------------------

  /** `s.startswith(p)` */
  predicate IsPrefix(p: string, s: string) {
    |p| <= |s| && s[..|p|] == p
  }

  /** `s.endswith(p)` */
  predicate IsSuffix(p: string, s: string) {
    |p| <= |s| && s[|s| - |p|..] == p
  }

  /** `t` occurs in `s` starting at index `i`. */
  predicate OccursAt(s: string, t: string, i: int) {
    0 <= i && i + |t| <= |s| && s[i..i + |t|] == t
  }

  /** Python's `t in s` on strings, scanning left to right. */
  predicate Contains(s: string, t: string)
    decreases |s|
  {
    IsPrefix(t, s) || (|s| > 0 && Contains(s[1..], t))
  }

  lemma {:induction false} ContainsIffOccurs(s: string, t: string)
    ensures Contains(s, t) <==> exists i :: OccursAt(s, t, i)
    decreases |s|
  {
    if IsPrefix(t, s) {
      assert OccursAt(s, t, 0);
    } else if |s| > 0 {
      ContainsIffOccurs(s[1..], t);
      forall i | OccursAt(s[1..], t, i) ensures OccursAt(s, t, i + 1) {
        assert s[1..][i..i + |t|] == s[i + 1..i + 1 + |t|];
      }
      forall i | OccursAt(s, t, i) ensures OccursAt(s[1..], t, i - 1) {
        if i == 0 {
          assert false;
        }
        assert s[1..][i - 1..i - 1 + |t|] == s[i..i + |t|];
      }
    }
  }

  /** Every string contains itself and the empty string. */
  lemma ContainsSelf(s: string)
    ensures Contains(s, s) && Contains(s, "")
  {
    assert s[..|s|] == s;
    assert s[..0] == "";
  }

  /** A string containing `a + b` contains `a`. */
  lemma {:induction false} ContainsPrefixOfNeedle(s: string, a: string, b: string)
    requires Contains(s, a + b)
    ensures Contains(s, a)
  {
    ContainsIffOccurs(s, a + b);
    var i :| OccursAt(s, a + b, i);
    assert s[i..i + |a|] == (a + b)[..|a|] == a;
    assert OccursAt(s, a, i);
    ContainsIffOccurs(s, a);
  }

  /** `in` is transitive: a substring of a substring of `s` is a substring of `s`. */
  lemma {:induction false} ContainsTrans(s: string, t: string, u: string)
    requires Contains(s, t) && Contains(t, u)
    ensures Contains(s, u)
  {
    ContainsIffOccurs(s, t);
    ContainsIffOccurs(t, u);
    var i :| OccursAt(s, t, i);
    var j :| OccursAt(t, u, j);
    forall m | 0 <= m < |u| ensures s[i + j + m] == u[m] {
      assert s[i + j + m] == s[i..i + |t|][j + m] == t[j + m] == t[j..j + |u|][m];
    }
    assert s[i + j..i + j + |u|] == u;
    assert OccursAt(s, u, i + j);
    ContainsIffOccurs(s, u);
  }

  /** `any(t in s for t in needles)` */
  predicate ContainsAny(s: string, needles: seq<string>)
    ensures ContainsAny(s, needles) <==> exists k :: 0 <= k < |needles| && Contains(s, needles[k])
  {
    needles != [] && (Contains(s, needles[0]) || ContainsAny(s, needles[1..]))
  }

  /** A string containing `big` contains every piece of `big`. */
  lemma ContainsPiece(s: string, big: string, small: string, at: nat)
    requires Contains(s, big) && OccursAt(big, small, at)
    ensures Contains(s, small)
  {
    ContainsIffOccurs(big, small);
    ContainsTrans(s, big, small);
  }

  /** A string containing `a + b` contains `b`. */
  lemma ContainsSuffixOfNeedle(s: string, a: string, b: string)
    requires Contains(s, a + b)
    ensures Contains(s, b)
  {
    assert (a + b)[|a|..|a| + |b|] == b;
    ContainsPiece(s, a + b, b, |a|);
  }

  /** A needle holding a character the haystack lacks never occurs. */
  lemma {:induction false} ContainsMissingChar(s: string, t: string, k: nat)
    requires k < |t| && forall i :: 0 <= i < |s| ==> s[i] != t[k]
    ensures !Contains(s, t)
  {
    ContainsIffOccurs(s, t);
    forall i | OccursAt(s, t, i) ensures s[i + k] == t[k] {
      assert s[i..i + |t|][k] == t[k];
    }
  }

  /** A needle longer than the haystack never occurs. */
  lemma {:induction false} ContainsTooLong(s: string, t: string)
    requires |t| > |s|
    ensures !Contains(s, t)
  {
    ContainsIffOccurs(s, t);
  }

  /** `re.search(a + '.*' + b, s)`: `a` occurs, and `b` occurs somewhere after it. */
  predicate ContainsThen(s: string, a: string, b: string)
    decreases |s|
  {
    (IsPrefix(a, s) && Contains(s[|a|..], b)) || (|s| > 0 && ContainsThen(s[1..], a, b))
  }

  // ---------------------------------------------------------------------
  // Character classes and case
  // ---------------------------------------------------------------------

  predicate IsDigit(c: char) { '0' <= c <= '9' }

  predicate AllDigits(s: string) {
    forall i :: 0 <= i < |s| ==> IsDigit(s[i])
  }

  /** Python's `str.isspace()` for one character. */
  predicate IsSpace(c: char) {
    c == ' ' || ('\t' <= c <= '\r') || ('\U{1c}' <= c <= '\U{1f}') || c == '\U{85}' || c == '\U{a0}'
    || c == '\U{1680}' || ('\U{2000}' <= c <= '\U{200a}') || c == '\U{2028}' || c == '\U{2029}'
    || c == '\U{202f}' || c == '\U{205f}' || c == '\U{3000}'
  }

  /** Python's `str.lower()` on one character, for ASCII and Latin-1 letters. */
  function LowerChar(c: char): (r: char)
    ensures !('A' <= r <= 'Z')
    ensures Folded(c) ==> Folded(r)
  {
    if 'A' <= c <= 'Z' then (c as int + 32) as char
    else if 'À' <= c <= 'Þ' && c != '×' then (c as int + 32) as char
    else c
  }

  function Lower(s: string): (r: string)
    ensures |r| == |s|
    ensures forall i :: 0 <= i < |s| ==> r[i] == LowerChar(s[i])
  {
    seq(|s|, i requires 0 <= i < |s| => LowerChar(s[i]))
  }

  /** A string without upper-case letters is its own lower-case form. */
  lemma LowerUnchanged(s: string)
    requires forall i :: 0 <= i < |s| ==> LowerChar(s[i]) == s[i]
    ensures Lower(s) == s
  {
  }

  lemma {:induction false} LowerAppend(a: string, b: string)
    ensures Lower(a + b) == Lower(a) + Lower(b)
  {
    assert |Lower(a + b)| == |Lower(a) + Lower(b)|;
    forall i | 0 <= i < |a + b| ensures Lower(a + b)[i] == (Lower(a) + Lower(b))[i] {
      if i < |a| { assert (a + b)[i] == a[i]; } else { assert (a + b)[i] == b[i - |a|]; }
    }
  }

  // ---------------------------------------------------------------------
  // strip, split
  // ---------------------------------------------------------------------

  function LStrip(s: string): (r: string)
    ensures |r| <= |s|
  {
    if |s| > 0 && IsSpace(s[0]) then LStrip(s[1..]) else s
  }

  function RStrip(s: string): (r: string)
    ensures |r| <= |s|
  {
    if |s| > 0 && IsSpace(s[|s| - 1]) then RStrip(s[..|s| - 1]) else s
  }

  /** Python's `str.strip()` */
  function Strip(s: string): (r: string)
    ensures |r| <= |s|
  {
    RStrip(LStrip(s))
  }

  /** `lstrip` drops leading whitespace only: what is left is a suffix, starting with a non-space, after nothing but spaces. */
  lemma {:induction false} LStripShape(s: string)
    ensures LStrip(s) == s[|s| - |LStrip(s)|..]
    ensures LStrip(s) == [] || !IsSpace(LStrip(s)[0])
    ensures forall i :: 0 <= i < |s| - |LStrip(s)| ==> IsSpace(s[i])
    decreases |s|
  {
    if |s| > 0 && IsSpace(s[0]) {
      LStripShape(s[1..]);
      assert s[1..][|s| - 1 - |LStrip(s)|..] == s[|s| - |LStrip(s)|..];
      forall i | 0 < i < |s| - |LStrip(s)| ensures IsSpace(s[i]) {
        assert s[1..][i - 1] == s[i];
      }
    }
  }

  /** `rstrip` drops trailing whitespace only: what is left is a prefix, ending in a non-space, before nothing but spaces. */
  lemma {:induction false} RStripShape(s: string)
    ensures RStrip(s) == s[..|RStrip(s)|]
    ensures RStrip(s) == [] || !IsSpace(RStrip(s)[|RStrip(s)| - 1])
    ensures forall i :: |RStrip(s)| <= i < |s| ==> IsSpace(s[i])
    decreases |s|
  {
    if |s| > 0 && IsSpace(s[|s| - 1]) {
      RStripShape(s[..|s| - 1]);
      assert s[..|s| - 1][..|RStrip(s)|] == s[..|RStrip(s)|];
    }
  }

  /** `strip` keeps a slice of the input that starts and ends with a non-space. */
  lemma StripShape(s: string) returns (k: nat)
    ensures k + |Strip(s)| <= |s| && Strip(s) == s[k..k + |Strip(s)|]
    ensures Strip(s) == [] || (!IsSpace(Strip(s)[0]) && !IsSpace(Strip(s)[|Strip(s)| - 1]))
  {
    var l := LStrip(s);
    LStripShape(s);
    RStripShape(l);
    k := |s| - |l|;
    var r := Strip(s);
    assert r == l[..|r|];
    if r != [] {
      assert r[0] == l[0];
    }
  }

  /** `s.strip()` is empty exactly when every character of `s` is whitespace. */
  lemma StripEmpty(s: string)
    ensures Strip(s) == [] <==> forall i :: 0 <= i < |s| ==> IsSpace(s[i])
  {
    var k := StripShape(s);
    var l := LStrip(s);
    LStripShape(s);
    RStripShape(l);
    if Strip(s) != [] {
      assert s[k] == Strip(s)[0];
    } else {
      forall i | 0 <= i < |s| ensures IsSpace(s[i]) {
        if i >= |s| - |l| {
          assert s[i] == l[i - (|s| - |l|)];
        }
      }
    }
  }

  /** Stripping twice is stripping once. */
  lemma StripIdempotent(s: string)
    ensures Strip(Strip(s)) == Strip(s)
  {
    var r := Strip(s);
    var _ := StripShape(s);
    assert LStrip(r) == r;
    assert RStrip(r) == r;
  }

  /** Python's `s.rstrip(c)` for a single character `c`. */
  function RStripChar(s: string, c: char): (r: string)
    ensures |r| <= |s| && r == s[..|r|]
    ensures r == [] || r[|r| - 1] != c
  {
    if |s| > 0 && s[|s| - 1] == c then RStripChar(s[..|s| - 1], c) else s
  }

  /** The longest run of non-space characters at the front of `s`. */
  function TakeWord(s: string): (r: string)
    ensures |r| <= |s| && r == s[..|r|]
    ensures |s| > 0 && !IsSpace(s[0]) ==> |r| >= 1
    ensures forall i :: 0 <= i < |r| ==> !IsSpace(r[i])
  {
    if |s| > 0 && !IsSpace(s[0]) then [s[0]] + TakeWord(s[1..]) else []
  }

  /** Python's `str.split()` with no argument: maximal runs of non-space characters. */
  function Words(s: string): (ws: seq<string>)
    ensures forall k :: 0 <= k < |ws| ==> ws[k] != []
    decreases |s|
  {
    var t := LStrip(s);
    if t == [] then []
    else
      LStripShape(s);
      var w := TakeWord(t);
      [w] + Words(t[|w|..])
  }

  /** Python's `s.split(c)` for a single character separator (keeps empty fields). */
  function SplitOn(s: string, c: char): (parts: seq<string>)
    ensures |parts| >= 1
    decreases |s|
  {
    if s == [] then [""]
    else if s[0] == c then [""] + SplitOn(s[1..], c)
    else
      var rest := SplitOn(s[1..], c);
      [[s[0]] + rest[0]] + rest[1..]
  }

  /** Python's `c.join(parts)` */
  function JoinWith(parts: seq<string>, c: char): string {
    if |parts| == 0 then ""
    else if |parts| == 1 then parts[0]
    else parts[0] + [c] + JoinWith(parts[1..], c)
  }

  // ---------------------------------------------------------------------
  // replace
  // ---------------------------------------------------------------------

  /** Python's `s.replace(pat, sub)`: left to right, non-overlapping. */
  function Replace(s: string, pat: string, sub: string): string
    requires pat != []
    decreases |s|
  {
    if IsPrefix(pat, s) then sub + Replace(s[|pat|..], pat, sub)
    else if s == [] then []
    else [s[0]] + Replace(s[1..], pat, sub)
  }

  /** Single-character `s.replace(c, t)`, character by character. */
  function ReplaceChar(s: string, c: char, t: string): (r: string)
    ensures t == [] ==> (forall i :: 0 <= i < |r| ==> r[i] != c)
    ensures t == [] ==> forall x :: x != c ==> (x in s <==> x in r)
  {
    if s == [] then []
    else (if s[0] == c then t else [s[0]]) + ReplaceChar(s[1..], c, t)
  }

  lemma {:induction false} ReplaceOneChar(s: string, c: char, t: string)
    ensures Replace(s, [c], t) == ReplaceChar(s, c, t)
    decreases |s|
  {
    if s != [] {
      ReplaceOneChar(s[1..], c, t);
      if s[0] == c {
        assert IsPrefix([c], s);
        assert s[|[c]|..] == s[1..];
      } else {
        assert !IsPrefix([c], s);
      }
    }
  }

  // ---------------------------------------------------------------------
  // unidecode (Latin-1 part)
  // ---------------------------------------------------------------------

  /** unidecode's transliteration of one character; characters outside the
      Latin-1 supplement are passed through unchanged in this model. */
  function FoldChar(c: char): string {
    if c == ' ' then " "
    else if c == 'ª' then "a"
    else if c == 'º' then "o"
    else if 'À' <= c <= 'Å' then "A"
    else if c == 'Æ' then "AE"
    else if c == 'Ç' then "C"
    else if 'È' <= c <= 'Ë' then "E"
    else if 'Ì' <= c <= 'Ï' then "I"
    else if c == 'Ð' then "D"
    else if c == 'Ñ' then "N"
    else if 'Ò' <= c <= 'Ö' || c == 'Ø' then "O"
    else if c == '×' then "x"
    else if 'Ù' <= c <= 'Ü' then "U"
    else if c == 'Ý' then "Y"
    else if c == 'Þ' then "Th"
    else if c == 'ß' then "ss"
    else if 'à' <= c <= 'å' then "a"
    else if c == 'æ' then "ae"
    else if c == 'ç' then "c"
    else if 'è' <= c <= 'ë' then "e"
    else if 'ì' <= c <= 'ï' then "i"
    else if c == 'ð' then "d"
    else if c == 'ñ' then "n"
    else if 'ò' <= c <= 'ö' || c == 'ø' then "o"
    else if c == '÷' then "/"
    else if 'ù' <= c <= 'ü' then "u"
    else if c == 'ý' || c == 'ÿ' then "y"
    else if c == 'þ' then "th"
    else [c]
  }

  /** A character unidecode never produces: a Latin-1 letter, an ordinal indicator or a no-break space. */
  predicate Folded(c: char) {
    !('À' <= c <= 'ÿ') && c != 'ª' && c != 'º' && c != '\U{a0}'
  }

  /** unidecode: every character of the result is `Folded`. */
  function Unidecode(s: string): (r: string)
    ensures forall i :: 0 <= i < |r| ==> Folded(r[i])
  {
    if s == [] then [] else FoldChar(s[0]) + Unidecode(s[1..])
  }

  // ---------------------------------------------------------------------
  // Decimal numbers
  // ---------------------------------------------------------------------

  function DigitChar(d: nat): char
    requires d < 10
  {
    ['0', '1', '2', '3', '4', '5', '6', '7', '8', '9'][d]
  }

  function DigitValue(c: char): nat
    requires IsDigit(c)
  {
    (c as int) - ('0' as int)
  }

  /** Python's `str(n)` for a natural number. */
  function NatToString(n: nat): (s: string)
    ensures |s| >= 1 && AllDigits(s)
  {
    if n < 10 then [DigitChar(n)] else NatToString(n / 10) + [DigitChar(n % 10)]
  }

  /** Python's `str(n)` for an integer. */
  function IntToString(n: int): string {
    if n < 0 then "-" + NatToString(-n) else NatToString(n)
  }

  /** Python's `int(s)` for a string of ASCII digits. */
  function ParseDigits(s: string): nat
    requires AllDigits(s)
  {
    if s == [] then 0 else 10 * ParseDigits(s[..|s| - 1]) + DigitValue(s[|s| - 1])
  }

  /** Reading back the decimal rendering of a number gives the number. */
  lemma {:induction false} ParseNatToString(n: nat)
    ensures ParseDigits(NatToString(n)) == n
  {
    var s := NatToString(n);
    if n >= 10 {
      ParseNatToString(n / 10);
      assert s[..|s| - 1] == NatToString(n / 10);
    }
  }

  /** Concatenation is associative. */
  lemma AppendAssoc<T>(a: seq<T>, b: seq<T>, c: seq<T>)
    ensures a + (b + c) == (a + b) + c
  {
  }

  /** A first hit at `k` in the tail, behind a head that misses, is a first hit at `k + 1`. */
  lemma FirstShift<T>(xs: seq<T>, k: nat, p: T -> bool)
    requires 0 < |xs| && k < |xs| - 1 && !p(xs[0])
    requires forall j :: 0 <= j < k ==> !p(xs[1..][j])
    ensures forall j :: 0 <= j < k + 1 ==> !p(xs[j])
  {
    forall j | 0 < j < k + 1 ensures !p(xs[j]) {
      assert xs[j] == xs[1..][j - 1];
    }
  }
}
