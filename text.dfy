/** The string operations the classifier relies on: Python's `str.lower`,
    `str.count`, `in`, `str.replace`, `" ".join` and `Path.suffix`. */
module Text {

  /** ASCII lower-casing of one character (Unicode case folding is not modelled). */
  function LowerChar(c: char): char
  {
    if 'A' <= c <= 'Z' then (c as int + 32) as char else c
  }

  predicate IsUpper(c: char)
  {
    'A' <= c <= 'Z'
  }

  /** `s.lower()` */
  function Lower(s: string): (r: string)
    ensures |r| == |s|
    ensures forall i :: 0 <= i < |s| ==> r[i] == LowerChar(s[i])
  {
    seq(|s|, i requires 0 <= i < |s| => LowerChar(s[i]))
  }

  lemma LowerIdempotent(s: string)
    ensures Lower(Lower(s)) == Lower(s)
    ensures forall i :: 0 <= i < |s| ==> !IsUpper(Lower(s)[i])
  {
  }

  /** A string without upper-case letters is its own lower-case form. */
  lemma LowerOfLowercase(s: string)
    requires forall i :: 0 <= i < |s| ==> !IsUpper(s[i])
    ensures Lower(s) == s
  {
  }

  /** `text.count(pat)`: the number of non-overlapping occurrences of `pat`
      found scanning left to right; an empty pattern occurs |text| + 1 times. */
  function Count(text: string, pat: string): nat
    decreases |text|
  {
    if |pat| == 0 then |text| + 1
    else if |text| < |pat| then 0
    else if text[..|pat|] == pat then 1 + Count(text[|pat|..], pat)
    else Count(text[1..], pat)
  }

  /** `pat` occurs in `text` starting at index `i`. */
  predicate OccursAt(text: string, pat: string, i: int)
  {
    0 <= i && i + |pat| <= |text| && text[i..i + |pat|] == pat
  }

  /** `pat in text` */
  predicate Contains(text: string, pat: string)
  {
    exists i | 0 <= i <= |text| - |pat| :: OccursAt(text, pat, i)
  }

  /** Occurrences never overlap, so they cannot outnumber |text| / |pat|. */
  lemma {:induction false} CountBound(text: string, pat: string)
    requires |pat| > 0
    ensures Count(text, pat) * |pat| <= |text|
    decreases |text|
  {
    if |text| < |pat| {
    } else if text[..|pat|] == pat {
      var rest := Count(text[|pat|..], pat);
      CountBound(text[|pat|..], pat);
      assert Count(text, pat) == rest + 1;
      MulSucc(rest, |pat|);
    } else {
      CountBound(text[1..], pat);
      assert Count(text, pat) == Count(text[1..], pat);
    }
  }

  lemma MulSucc(c: nat, m: nat)
    ensures (c + 1) * m == c * m + m
  {
  }

  /** A non-empty pattern is counted at least once exactly when it occurs:
      the link between `str.count` and `in`. */
  lemma {:induction false} CountPositiveIffContains(text: string, pat: string)
    requires |pat| > 0
    ensures Count(text, pat) > 0 <==> Contains(text, pat)
    decreases |text|
  {
    if |text| < |pat| {
    } else if text[..|pat|] == pat {
      assert OccursAt(text, pat, 0);
    } else {
      CountPositiveIffContains(text[1..], pat);
      if Contains(text, pat) {
        var i :| 0 <= i <= |text| - |pat| && OccursAt(text, pat, i);
        assert i != 0;
        assert text[1..][i - 1..i - 1 + |pat|] == text[i..i + |pat|];
        assert OccursAt(text[1..], pat, i - 1);
      }
      if Contains(text[1..], pat) {
        var i :| 0 <= i <= |text[1..]| - |pat| && OccursAt(text[1..], pat, i);
        assert text[1..][i..i + |pat|] == text[i + 1..i + 1 + |pat|];
        assert OccursAt(text, pat, i + 1);
      }
    }
  }

  /** The number of positions where `pat` occurs, overlapping ones included. */
  function Occurrences(text: string, pat: string): nat
    decreases |text|
  {
    if |pat| == 0 || |text| < |pat| then 0
    else (if text[..|pat|] == pat then 1 else 0) + Occurrences(text[1..], pat)
  }

  /** Dropping a prefix of the text never adds an occurrence. */
  lemma {:induction false} OccurrencesDropPrefix(text: string, pat: string, k: nat)
    requires k <= |text|
    ensures Occurrences(text[k..], pat) <= Occurrences(text, pat)
  {
    if k > 0 {
      OccurrencesDropPrefix(text, pat, k - 1);
      assert text[k - 1..][1..] == text[k..];
    }
  }

  /** Non-overlapping occurrences are some of the occurrences. */
  lemma {:induction false} CountAtMostOccurrences(text: string, pat: string)
    requires |pat| > 0
    ensures Count(text, pat) <= Occurrences(text, pat)
    decreases |text|
  {
    if |text| < |pat| {
    } else if text[..|pat|] == pat {
      CountAtMostOccurrences(text[|pat|..], pat);
      OccurrencesDropPrefix(text[1..], pat, |pat| - 1);
      assert text[1..][|pat| - 1..] == text[|pat|..];
    } else {
      CountAtMostOccurrences(text[1..], pat);
    }
  }

  /** No proper suffix of the pattern is also a prefix of it, so two of its
      occurrences can never overlap. */
  predicate NoSelfOverlap(pat: string)
  {
    forall d :: 0 < d < |pat| ==> pat[d..] != pat[..|pat| - d]
  }

  /** A pattern whose first character appears nowhere else cannot overlap itself. */
  lemma FirstCharUniqueNoOverlap(pat: string)
    requires |pat| > 0 && forall j :: 0 < j < |pat| ==> pat[j] != pat[0]
    ensures NoSelfOverlap(pat)
  {
    forall d | 0 < d < |pat|
      ensures pat[d..] != pat[..|pat| - d]
    {
      assert pat[d..][0] != pat[..|pat| - d][0];
    }
  }

  /** Inside an occurrence of a pattern that cannot overlap itself, no other
      occurrence starts. */
  lemma NoOccurrenceInside(text: string, pat: string, e: nat)
    requires NoSelfOverlap(pat) && |pat| <= |text| && text[..|pat|] == pat
    requires 0 < e < |pat| && e + |pat| <= |text|
    ensures text[e..e + |pat|] != pat
  {
    assert text[e..|pat|] == pat[e..];
    assert text[e..|pat|] == text[e..e + |pat|][..|pat| - e];
    assert pat[e..] != pat[..|pat| - e];
  }

  /** Right after an occurrence of a pattern that cannot overlap itself, the
      next positions inside it hold no occurrence. */
  lemma {:induction false} SkipInsideOccurrence(text: string, pat: string, d: nat)
    requires NoSelfOverlap(pat) && |pat| <= |text| && text[..|pat|] == pat
    requires 1 <= d <= |pat|
    ensures Occurrences(text[1..], pat) == Occurrences(text[d..], pat)
  {
    if d > 1 {
      SkipInsideOccurrence(text, pat, d - 1);
      var t := text[d - 1..];
      assert t[1..] == text[d..];
      if |pat| <= |t| {
        NoOccurrenceInside(text, pat, d - 1);
        assert t[..|pat|] == text[d - 1..d - 1 + |pat|];
      }
    }
  }

  /** For a pattern that cannot overlap itself the left-to-right count finds
      every occurrence. */
  lemma {:induction false} CountOfNoSelfOverlap(text: string, pat: string)
    requires |pat| > 0 && NoSelfOverlap(pat)
    ensures Count(text, pat) == Occurrences(text, pat)
    decreases |text|
  {
    if |text| < |pat| {
    } else if text[..|pat|] == pat {
      CountOfNoSelfOverlap(text[|pat|..], pat);
      SkipInsideOccurrence(text, pat, |pat|);
    } else {
      CountOfNoSelfOverlap(text[1..], pat);
    }
  }

  /** Every occurrence of `p + q` is an occurrence of `p`. */
  lemma {:induction false} OccurrencesOfExtension(text: string, p: string, q: string)
    requires |p| > 0
    ensures Occurrences(text, p + q) <= Occurrences(text, p)
    decreases |text|
  {
    if |text| >= |p + q| {
      OccurrencesOfExtension(text[1..], p, q);
      if text[..|p + q|] == p + q {
        assert text[..|p|] == text[..|p + q|][..|p|] == (p + q)[..|p|] == p;
      }
    }
  }

  /** A word that cannot overlap itself is counted at least as often as any
      longer word it begins. */
  lemma CountOfPrefixWord(text: string, p: string, q: string)
    requires |p| > 0 && NoSelfOverlap(p)
    ensures Count(text, p + q) <= Count(text, p)
  {
    CountAtMostOccurrences(text, p + q);
    OccurrencesOfExtension(text, p, q);
    CountOfNoSelfOverlap(text, p);
  }

  /** `s.replace(a, b)` for one-character `a` and `b`. */
  function ReplaceChar(s: string, a: char, b: char): (r: string)
    ensures |r| == |s|
    ensures forall i :: 0 <= i < |s| ==> r[i] == (if s[i] == a then b else s[i])
  {
    seq(|s|, i requires 0 <= i < |s| => if s[i] == a then b else s[i])
  }

  /** `sep.join(parts)` */
  function Join(sep: string, parts: seq<string>): string
  {
    if |parts| == 0 then ""
    else if |parts| == 1 then parts[0]
    else Join(sep, parts[..|parts| - 1]) + sep + parts[|parts| - 1]
  }

  /** Joined text is the pieces in order with exactly one separator between
      neighbours: splitting the piece list anywhere splits the text at one separator. */
  lemma {:induction false} JoinSplit(sep: string, parts: seq<string>, k: nat)
    requires 0 < k < |parts|
    ensures Join(sep, parts) == Join(sep, parts[..k]) + sep + Join(sep, parts[k..])
    decreases |parts|
  {
    var n := |parts|;
    if k == n - 1 {
      assert parts[k..] == [parts[n - 1]];
    } else {
      JoinSplit(sep, parts[..n - 1], k);
      assert parts[..n - 1][..k] == parts[..k];
      assert parts[..n - 1][k..] == parts[k..n - 1];
      assert parts[k..][..|parts[k..]| - 1] == parts[k..n - 1];
    }
  }

  /** The length of a joined text: all pieces plus one separator per gap. */
  lemma {:induction false} JoinLength(sep: string, parts: seq<string>)
    requires |parts| > 0
    ensures |Join(sep, parts)| == TotalLength(parts) + (|parts| - 1) * |sep|
    decreases |parts|
  {
    if |parts| > 1 {
      var init, last := parts[..|parts| - 1], parts[|parts| - 1];
      JoinLength(sep, init);
      assert init + [last] == parts;
      TotalLengthAppend(init, last);
      var gaps := |init| - 1;
      assert gaps * |sep| + |sep| == (gaps + 1) * |sep|;
    }
  }

  function TotalLength(parts: seq<string>): nat
  {
    if |parts| == 0 then 0 else TotalLength(parts[..|parts| - 1]) + |parts[|parts| - 1]|
  }

  lemma TotalLengthAppend(parts: seq<string>, p: string)
    ensures TotalLength(parts + [p]) == TotalLength(parts) + |p|
  {
    assert (parts + [p])[..|parts|] == parts;
  }

  /** `name.startswith(".")` */
  predicate StartsWithDot(name: string)
  {
    |name| > 0 && name[0] == '.'
  }

  /** Index of the last '.' in `name`, or -1. */
  function LastDot(name: string): (r: int)
    ensures -1 <= r < |name|
    ensures r >= 0 ==> name[r] == '.'
    ensures forall j :: r < j < |name| ==> name[j] != '.'
  {
    if |name| == 0 then -1
    else if name[|name| - 1] == '.' then |name| - 1
    else LastDot(name[..|name| - 1])
  }

  /** `PurePath(name).suffix`: from the last dot on, unless that dot is the
      first or the last character, in which case there is no suffix. */
  function Suffix(name: string): (r: string)
  {
    var i := LastDot(name);
    if 0 < i < |name| - 1 then name[i..] else ""
  }

  /** A suffix is empty or starts with its only dot, and is a tail of the name. */
  lemma SuffixShape(name: string)
    ensures Suffix(name) == "" || (Suffix(name)[0] == '.' && |Suffix(name)| >= 2
                                   && Suffix(name) == name[|name| - |Suffix(name)|..]
                                   && forall j :: 0 < j < |Suffix(name)| ==> Suffix(name)[j] != '.')
  {
  }

  /** The characters are all decimal digits. */
  predicate AllDigits(s: string)
  {
    forall i :: 0 <= i < |s| ==> '0' <= s[i] <= '9'
  }

  /** The number a string of decimal digits spells, most significant first. */
  function DigitsValue(s: string): nat
    requires AllDigits(s)
  {
    if |s| == 0 then 0 else 10 * DigitsValue(s[..|s| - 1]) + (s[|s| - 1] as int - '0' as int)
  }

  /** Decimal digits of a natural number, as `str` writes them: they spell
      the number, and only zero itself starts with the digit 0. */
  function NatToString(n: nat): (r: string)
    ensures |r| > 0 && AllDigits(r)
    ensures DigitsValue(r) == n
    ensures r[0] == '0' <==> n == 0
    ensures n == 0 ==> r == "0"
    decreases n
  {
    if n < 10 then [DigitChar(n)]
    else
      var r := NatToString(n / 10) + [DigitChar(n % 10)];
      assert r[..|r| - 1] == NatToString(n / 10);
      r
  }

  function DigitChar(d: nat): (c: char)
    requires d < 10
    ensures '0' <= c <= '9' && c as int - '0' as int == d
  {
    (48 + d) as char
  }

  /** `str(n)` for an integer. */
  function IntToString(n: int): (r: string)
    ensures |r| > 0
  {
    if n < 0 then "-" + NatToString(-n) else NatToString(n)
  }
}
