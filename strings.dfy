/**
 * The string operations the analyzer relies on: substring containment
 * (`k in text`), joining with a separator (`sep.join(parts)`), splitting on
 * a character (`text.split(c)`, the inverse used to read a joined excerpt
 * back) and decimal rendering of a count (`str(n)`).
 */
module Strings {

  /** `needle in haystack`: case-sensitive substring containment. */
  predicate IsSubstring(needle: string, haystack: string)
  {
    exists i: nat :: i <= |haystack| && OccursAt(needle, haystack, i)
  }

  /** `needle` occurs in `haystack` starting at position `i`. */
  predicate OccursAt(needle: string, haystack: string, i: nat)
  {
    i + |needle| <= |haystack| && haystack[i..i + |needle|] == needle
  }

  /** The empty string is contained in every string. */
  lemma EmptyIsSubstring(haystack: string)
    ensures IsSubstring("", haystack)
  {
    assert OccursAt("", haystack, 0);
  }

  /** A string that occurs inside `mid` also occurs inside `pre + mid + post`. */
  lemma SubstringWiden(needle: string, pre: string, mid: string, post: string)
    requires IsSubstring(needle, mid)
    ensures IsSubstring(needle, pre + mid + post)
  {
    var i: nat :| i <= |mid| && OccursAt(needle, mid, i);
    assert i + |needle| <= |mid| && mid[i..i + |needle|] == needle;
    var whole := pre + mid + post;
    var j := |pre| + i;
    assert whole[j..j + |needle|] == mid[i..i + |needle|];
    assert OccursAt(needle, whole, j);
  }

  /** A needle whose first character occurs at no possible start position is not contained. */
  lemma NotSubstringByFirstChar(needle: string, haystack: string)
    requires |needle| > 0
    requires forall i :: 0 <= i <= |haystack| - |needle| ==> haystack[i] != needle[0]
    ensures !IsSubstring(needle, haystack)
  {
    forall i: nat | i <= |haystack|
      ensures !OccursAt(needle, haystack, i)
    {
      if i + |needle| <= |haystack| {
        assert haystack[i..i + |needle|][0] == haystack[i];
      }
    }
  }

  /** A needle holding a character that the haystack lacks is not contained. */
  lemma NotSubstringByMissingChar(needle: string, haystack: string, j: nat)
    requires j < |needle|
    requires forall i :: 0 <= i < |haystack| ==> haystack[i] != needle[j]
    ensures !IsSubstring(needle, haystack)
  {
    forall i: nat | i <= |haystack|
      ensures !OccursAt(needle, haystack, i)
    {
      if i + |needle| <= |haystack| {
        assert haystack[i..i + |needle|][j] == haystack[i + j];
      }
    }
  }

  /** Every string contains itself. */
  lemma SubstringRefl(s: string)
    ensures IsSubstring(s, s)
  {
    assert s[0..|s|] == s;
    assert OccursAt(s, s, 0);
  }

  /** `sep.join(parts)`: empty for no parts, otherwise it begins with the first part. */
  function Join(sep: string, parts: seq<string>): (s: string)
    ensures |parts| == 0 ==> s == ""
    ensures |parts| > 0 ==> parts[0] <= s
    decreases |parts|
  {
    if |parts| == 0 then ""
    else if |parts| == 1 then parts[0]
    else parts[0] + sep + Join(sep, parts[1..])
  }

  /** Joining two non-empty lists is joining each and gluing them with one separator. */
  lemma {:induction false} JoinAppend(sep: string, xs: seq<string>, ys: seq<string>)
    requires |xs| > 0 && |ys| > 0
    ensures Join(sep, xs + ys) == Join(sep, xs) + sep + Join(sep, ys)
    decreases |xs|
  {
    if |xs| == 1 {
      assert (xs + ys)[1..] == ys;
    } else {
      assert (xs + ys)[1..] == xs[1..] + ys;
      JoinAppend(sep, xs[1..], ys);
    }
  }

  /** Every part of a join occurs in the joined string. */
  lemma {:induction false} JoinContainsParts(sep: string, parts: seq<string>, k: nat)
    requires k < |parts|
    ensures IsSubstring(parts[k], Join(sep, parts))
    decreases |parts|
  {
    if |parts| == 1 {
      SubstringRefl(parts[0]);
    } else if k == 0 {
      SubstringRefl(parts[0]);
      SubstringWiden(parts[0], "", parts[0], sep + Join(sep, parts[1..]));
      assert "" + parts[0] + (sep + Join(sep, parts[1..])) == Join(sep, parts);
    } else {
      JoinContainsParts(sep, parts[1..], k - 1);
      SubstringWiden(parts[k], parts[0] + sep, Join(sep, parts[1..]), "");
      assert parts[0] + sep + Join(sep, parts[1..]) + "" == Join(sep, parts);
    }
  }

  /** `text.split(sep)` for a one-character separator: never empty, as in Python. */
  function Split(text: string, sep: char): (pieces: seq<string>)
    ensures |pieces| >= 1
    decreases |text|
  {
    if |text| == 0 then [""]
    else
      var rest := Split(text[1..], sep);
      if text[0] == sep then [""] + rest
      else [[text[0]] + rest[0]] + rest[1..]
  }

  /** Splitting a separator-free prefix glues it onto the first piece. */
  lemma {:induction false} SplitFreePrefix(a: string, sep: char, t: string)
    requires sep !in a
    ensures Split(a + t, sep) == [a + Split(t, sep)[0]] + Split(t, sep)[1..]
    decreases |a|
  {
    if |a| > 0 {
      assert (a + t)[1..] == a[1..] + t;
      SplitFreePrefix(a[1..], sep, t);
      assert [a[0]] + (a[1..] + Split(t, sep)[0]) == a + Split(t, sep)[0];
    } else {
      var pieces := Split(t, sep);
      assert a + t == t;
      assert a + pieces[0] == pieces[0];
      assert [pieces[0]] + pieces[1..] == pieces;
    }
  }

  /**
   * Splitting undoes joining: when no part contains the separator,
   * `sep.join(parts).split(sep) == parts` for every non-empty list.
   */
  lemma {:induction false} SplitJoin(parts: seq<string>, sep: char)
    requires |parts| > 0
    requires forall k :: 0 <= k < |parts| ==> sep !in parts[k]
    ensures Split(Join([sep], parts), sep) == parts
    decreases |parts|
  {
    if |parts| == 1 {
      SplitFreePrefix(parts[0], sep, "");
      assert parts[0] + "" == parts[0];
    } else {
      var tail := Join([sep], parts[1..]);
      SplitJoin(parts[1..], sep);
      assert Split([sep] + tail, sep) == [""] + Split(tail, sep) by {
        assert ([sep] + tail)[1..] == tail;
      }
      SplitFreePrefix(parts[0], sep, [sep] + tail);
      assert parts[0] + [sep] + tail == parts[0] + ([sep] + tail);
      assert parts[0] + "" == parts[0];
    }
  }

  /** A decimal digit character. */
  predicate IsDigit(c: char)
  {
    '0' <= c <= '9'
  }

  function DigitChar(d: nat): (c: char)
    requires d < 10
    ensures IsDigit(c)
  {
    (('0' as int) + d) as char
  }

  /** `str(n)` for a non-negative integer: decimal digits, most significant first, no leading zero. */
  function NatToString(n: nat): (s: string)
    ensures |s| >= 1
    ensures forall k :: 0 <= k < |s| ==> IsDigit(s[k])
    ensures s[0] == '0' <==> n == 0
    ensures n < 10 ==> |s| == 1
    decreases n
  {
    if n < 10 then [DigitChar(n)]
    else NatToString(n / 10) + [DigitChar(n % 10)]
  }

  /** `int(s)` for a string of decimal digits. */
  function ParseDecimal(s: string): nat
    requires forall k :: 0 <= k < |s| ==> IsDigit(s[k])
    decreases |s|
  {
    if |s| == 0 then 0
    else ParseDecimal(s[..|s| - 1]) * 10 + DigitValue(s[|s| - 1])
  }

  function DigitValue(c: char): nat
    requires IsDigit(c)
  {
    (c as int) - ('0' as int)
  }

  /** Reading the decimal form of a count back gives the count. */
  lemma {:induction false} ParseNatToString(n: nat)
    ensures ParseDecimal(NatToString(n)) == n
    decreases n
  {
    var s := NatToString(n);
    if n >= 10 {
      ParseNatToString(n / 10);
      assert s[..|s| - 1] == NatToString(n / 10);
    }
  }
}
