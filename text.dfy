/**
 * The JavaScript string operations the handlers rely on, over `seq<char>`:
 * prefix tests, `substring`, `slice`, `trim`, `split`, `padStart`,
 * number-to-decimal conversion and ASCII upper-casing.
 */
module Text {

  predicate StartsWith(s: string, prefix: string)
  {
    |prefix| <= |s| && s[..|prefix|] == prefix
  }

  /** `s.substring(k)`: everything from index k on, or "" past the end. */
  function Substring(s: string, k: nat): (r: string)
    ensures k <= |s| ==> r == s[k..]
    ensures k >= |s| ==> r == ""
  {
    if k <= |s| then s[k..] else ""
  }

  /** `s.substring(0, n)`: at most the first n characters. */
  function Take(s: string, n: nat): (r: string)
    ensures |r| <= n && r <= s
    ensures |s| >= n ==> |r| == n
    ensures |s| < n ==> r == s
  {
    if n <= |s| then s[..n] else s
  }

  /** `s.slice(-n)` for n > 0: the last n characters, or all of s when it is shorter. */
  function TakeLast(s: string, n: nat): (r: string)
    ensures |r| <= n
    ensures |s| >= n ==> |r| == n && r == s[|s| - n..]
    ensures |s| < n ==> r == s
  {
    if n <= |s| then s[|s| - n..] else s
  }

  /**
   * What `trim()` strips and `\s` matches: the ECMAScript WhiteSpace set
   * (tab, vertical tab, form feed, space, no-break space, the byte order
   * mark and the space separators of category Zs) and the LineTerminator
   * set (line feed, carriage return, line and paragraph separators).
   */
  predicate IsSpace(c: char)
  {
    c == '\t' || c == '\n' || c == '\U{B}' || c == '\U{C}' || c == '\r' || c == ' '
    || c == '\U{A0}' || c == '\U{1680}' || ('\U{2000}' <= c <= '\U{200A}')
    || c == '\U{2028}' || c == '\U{2029}' || c == '\U{202F}' || c == '\U{205F}'
    || c == '\U{3000}' || c == '\U{FEFF}'
  }

  function TrimStart(s: string): (r: string)
    ensures |r| <= |s|
    ensures r == [] || !IsSpace(r[0])
    ensures forall i :: 0 <= i < |s| - |r| ==> IsSpace(s[i])
    ensures r == s[|s| - |r|..]
    decreases |s|
  {
    if |s| > 0 && IsSpace(s[0]) then TrimStart(s[1..]) else s
  }

  function TrimEnd(s: string): (r: string)
    ensures r <= s
    ensures r == [] || !IsSpace(r[|r| - 1])
    ensures forall i :: |r| <= i < |s| ==> IsSpace(s[i])
    decreases |s|
  {
    if |s| > 0 && IsSpace(s[|s| - 1]) then TrimEnd(s[..|s| - 1]) else s
  }

  /** `s.trim()`. */
  function Trim(s: string): (r: string)
    ensures r == [] || (!IsSpace(r[0]) && !IsSpace(r[|r| - 1]))
  {
    TrimEnd(TrimStart(s))
  }

  /** Trimming a string that already has no surrounding spaces leaves it alone. */
  lemma TrimNoop(s: string)
    requires s == [] || (!IsSpace(s[0]) && !IsSpace(s[|s| - 1]))
    ensures Trim(s) == s
  {
  }

  /** Concatenation of pieces with `sep` between consecutive ones (`pieces.join(sep)`). */
  function Join(pieces: seq<string>, sep: string): string
  {
    if |pieces| == 0 then ""
    else if |pieces| == 1 then pieces[0]
    else pieces[0] + sep + Join(pieces[1..], sep)
  }

  /** `s.split(c)` for a one-character separator: always at least one field. */
  function Split(s: string, c: char): (r: seq<string>)
    ensures |r| >= 1
    ensures forall i :: 0 <= i < |r| ==> c !in r[i]
    decreases |s|
  {
    if |s| == 0 then [""]
    else
      var rest := Split(s[1..], c);
      if s[0] == c then [""] + rest
      else [[s[0]] + rest[0]] + rest[1..]
  }

  /** Splitting on `c` and joining with `c` gives the original string back. */
  lemma {:induction false} SplitJoin(s: string, c: char)
    ensures Join(Split(s, c), [c]) == s
    decreases |s|
  {
    if |s| > 0 {
      var rest := Split(s[1..], c);
      SplitJoin(s[1..], c);
      if s[0] == c {
        assert Split(s, c) == [""] + rest;
      } else {
        assert Split(s, c) == [[s[0]] + rest[0]] + rest[1..];
        if |rest| == 1 {
        } else {
          assert rest == [rest[0]] + rest[1..];
          assert Join(rest, [c]) == rest[0] + [c] + Join(rest[1..], [c]);
        }
      }
    }
  }

  /** A string without the separator splits into itself. */
  lemma {:induction false} SplitNoSeparator(s: string, c: char)
    requires c !in s
    ensures Split(s, c) == [s]
    decreases |s|
  {
    if |s| > 0 {
      assert c !in s[1..];
      SplitNoSeparator(s[1..], c);
      assert [s[0]] + s[1..] == s;
    }
  }

  /** Splitting at the first separator: the text before it is the first field. */
  lemma {:induction false} SplitAtFirst(a: string, b: string, c: char)
    requires c !in a
    ensures Split(a + [c] + b, c) == [a] + Split(b, c)
    decreases |a|
  {
    var s := a + [c] + b;
    if |a| == 0 {
      assert s == [c] + b;
      assert s[1..] == b;
    } else {
      assert s[1..] == a[1..] + [c] + b;
      assert c !in a[1..];
      SplitAtFirst(a[1..], b, c);
      assert [a[0]] + a[1..] == a;
    }
  }

  /** Trimming only drops characters: every character of the result occurs in the input. */
  lemma TrimKeepsChars(s: string, x: char)
    requires x in Trim(s)
    ensures x in s
  {
    var t := TrimStart(s);
    assert TrimEnd(t) <= t;
    assert x in t;
    assert t == s[|s| - |t|..];
  }

  /** r is the slice of s at i, with only white space before and after it. */
  predicate SpacedSlice(s: string, r: string, i: nat)
  {
    i + |r| <= |s| && r == s[i..i + |r|]
    && (forall j :: 0 <= j < i ==> IsSpace(s[j]))
    && (forall j :: i + |r| <= j < |s| ==> IsSpace(s[j]))
  }

  /** The first n elements of the suffix from i are the slice from i of length n. */
  lemma PrefixOfSuffix<T>(s: seq<T>, i: nat, n: nat)
    requires i + n <= |s|
    ensures s[i..][..n] == s[i..i + n]
  {
  }

  /** The trimmed string is a slice of the input with only white space before and after it. */
  lemma {:induction false} TrimShape(s: string)
    ensures exists i :: SpacedSlice(s, Trim(s), i)
  {
    var t := TrimStart(s);
    var r := TrimEnd(t);
    var i := |s| - |t|;
    assert r == t[..|r|];
    PrefixOfSuffix(s, i, |r|);
    forall j | i + |r| <= j < |s|
      ensures IsSpace(s[j])
    {
      assert s[j] == t[j - i];
    }
    assert Trim(s) == r && SpacedSlice(s, r, i);
  }

  /** Leading spaces before a string with no surrounding spaces are all that trimming removes. */
  lemma {:induction false} TrimAfterSpaces(sp: string, x: string)
    requires forall i :: 0 <= i < |sp| ==> IsSpace(sp[i])
    requires x != [] && !IsSpace(x[0]) && !IsSpace(x[|x| - 1])
    ensures Trim(sp + x) == x
    decreases |sp|
  {
    if |sp| == 0 {
      assert sp + x == x;
    } else {
      assert (sp + x)[1..] == sp[1..] + x;
      TrimAfterSpaces(sp[1..], x);
    }
  }

  // ---------------------------------------------------------------------
  // Ordering

  /**
   * `a < b` on strings: character by character, a proper prefix first. The
   * default `sort()` compares UTF-16 code units, which order characters of
   * the Basic Multilingual Plane as this does.
   */
  predicate StringBefore(a: string, b: string)
    decreases |a|
  {
    |b| > 0 && (|a| == 0 || a[0] < b[0] || (a[0] == b[0] && StringBefore(a[1..], b[1..])))
  }

  /** No two strings each come before the other. */
  lemma {:induction false} StringBeforeAsymmetric(a: string, b: string)
    ensures !(StringBefore(a, b) && StringBefore(b, a))
    decreases |a|
  {
    if |a| > 0 && |b| > 0 && a[0] == b[0] {
      StringBeforeAsymmetric(a[1..], b[1..]);
    }
  }

  /** Of two different strings, one comes first. */
  lemma {:induction false} StringBeforeTotal(a: string, b: string)
    requires a != b
    ensures StringBefore(a, b) || StringBefore(b, a)
    decreases |a|
  {
    if |a| > 0 && |b| > 0 && a[0] == b[0] {
      assert a == [a[0]] + a[1..] && b == [b[0]] + b[1..];
      StringBeforeTotal(a[1..], b[1..]);
    }
  }

  /** No string comes before its predecessor. */
  predicate StringsSorted(ss: seq<string>)
  {
    forall i :: 0 < i < |ss| ==> !StringBefore(ss[i], ss[i - 1])
  }

  /** Every string comes before its successor. */
  predicate StringsAscending(ss: seq<string>)
  {
    forall i :: 0 < i < |ss| ==> StringBefore(ss[i - 1], ss[i])
  }

  /** Insert a string after every string it does not come before: the step of a stable sort. */
  function InsertString(t: string, s: seq<string>): (r: seq<string>)
    ensures |r| == |s| + 1
    ensures r[|r| - 1] == t || (|s| > 0 && r[|r| - 1] == s[|s| - 1])
  {
    if |s| == 0 then [t]
    else if !StringBefore(t, s[|s| - 1]) then s + [t]
    else InsertString(t, s[..|s| - 1]) + [s[|s| - 1]]
  }

  /** Inserting into a sorted list keeps it sorted. */
  lemma {:induction false} InsertStringSorted(t: string, s: seq<string>)
    requires StringsSorted(s)
    ensures StringsSorted(InsertString(t, s))
  {
    if |s| > 0 && StringBefore(t, s[|s| - 1]) {
      InsertStringSorted(t, s[..|s| - 1]);
      var front := InsertString(t, s[..|s| - 1]);
      StringBeforeAsymmetric(t, s[|s| - 1]);
      if |s| > 1 && front[|front| - 1] != t {
        assert !StringBefore(s[|s| - 1], s[|s| - 2]);
      }
    }
  }

  /** Inserting adds exactly the one string. */
  lemma {:induction false} InsertStringPerm(t: string, s: seq<string>)
    ensures multiset(InsertString(t, s)) == multiset(s) + multiset{t}
  {
    if |s| > 0 && StringBefore(t, s[|s| - 1]) {
      InsertStringPerm(t, s[..|s| - 1]);
      assert s == s[..|s| - 1] + [s[|s| - 1]];
    }
  }

  /** Inserting a new string into an ascending list keeps it ascending. */
  lemma {:induction false} InsertStringAscending(t: string, s: seq<string>)
    requires StringsAscending(s) && t !in s
    ensures StringsAscending(InsertString(t, s))
  {
    if |s| > 0 {
      var last := s[|s| - 1];
      if !StringBefore(t, last) {
        StringBeforeTotal(t, last);
      } else {
        assert t !in s[..|s| - 1];
        InsertStringAscending(t, s[..|s| - 1]);
        var front := InsertString(t, s[..|s| - 1]);
        if |s| > 1 && front[|front| - 1] != t {
          assert StringBefore(s[|s| - 2], last);
        }
      }
    }
  }

  /** `strings.sort()` with the default comparison: ascending, and stable. */
  function SortStrings(ss: seq<string>): (r: seq<string>)
    ensures |r| == |ss|
  {
    if |ss| == 0 then [] else InsertString(ss[|ss| - 1], SortStrings(ss[..|ss| - 1]))
  }

  /** The sorted list has no string before its predecessor. */
  lemma {:induction false} SortStringsSorted(ss: seq<string>)
    ensures StringsSorted(SortStrings(ss))
  {
    if |ss| > 0 {
      SortStringsSorted(ss[..|ss| - 1]);
      InsertStringSorted(ss[|ss| - 1], SortStrings(ss[..|ss| - 1]));
    }
  }

  /** Sorting keeps exactly the strings it is given. */
  lemma {:induction false} SortStringsPerm(ss: seq<string>)
    ensures multiset(SortStrings(ss)) == multiset(ss)
  {
    if |ss| > 0 {
      SortStringsPerm(ss[..|ss| - 1]);
      InsertStringPerm(ss[|ss| - 1], SortStrings(ss[..|ss| - 1]));
      assert ss == ss[..|ss| - 1] + [ss[|ss| - 1]];
    }
  }

  /** A string is in the sorted list exactly when it is in the input. */
  lemma SortStringsMembers(ss: seq<string>)
    ensures forall x :: x in SortStrings(ss) <==> x in ss
  {
    SortStringsPerm(ss);
    assert forall x :: x in SortStrings(ss) <==> x in multiset(SortStrings(ss));
  }

  /** Pairwise different strings sort into a strictly ascending list. */
  lemma {:induction false} SortStringsAscending(ss: seq<string>)
    requires forall i, j :: 0 <= i < j < |ss| ==> ss[i] != ss[j]
    ensures StringsAscending(SortStrings(ss))
  {
    if |ss| > 0 {
      var front := ss[..|ss| - 1];
      SortStringsAscending(front);
      SortStringsPerm(front);
      assert ss[|ss| - 1] !in multiset(SortStrings(front));
      InsertStringAscending(ss[|ss| - 1], SortStrings(front));
    }
  }

  // ---------------------------------------------------------------------
  // Decimal numbers

  predicate IsDigit(c: char)
  {
    '0' <= c <= '9'
  }

  predicate AllDigits(s: string)
  {
    forall i :: 0 <= i < |s| ==> IsDigit(s[i])
  }

  function DigitChar(d: nat): (c: char)
    requires d < 10
    ensures IsDigit(c)
  {
    ['0', '1', '2', '3', '4', '5', '6', '7', '8', '9'][d]
  }

  function DigitValue(c: char): nat
    requires IsDigit(c)
  {
    (c as int - '0' as int) as nat
  }

  /** `n.toString()` for a non-negative integer. */
  function NatToString(n: nat): (r: string)
    ensures |r| >= 1 && AllDigits(r)
    ensures n >= 10 ==> |r| >= 2
  {
    if n < 10 then [DigitChar(n)] else NatToString(n / 10) + [DigitChar(n % 10)]
  }

  /** The value of a digit string read in base 10; leading zeros add nothing. */
  function DecimalValue(s: string): nat
    requires AllDigits(s)
  {
    if |s| == 0 then 0 else 10 * DecimalValue(s[..|s| - 1]) + DigitValue(s[|s| - 1])
  }

  lemma DigitRoundTrip(d: nat)
    requires d < 10
    ensures DigitValue(DigitChar(d)) == d
  {
  }

  /** Reading back the decimal text of n gives n. */
  lemma {:induction false} NatToStringValue(n: nat)
    ensures DecimalValue(NatToString(n)) == n
  {
    DigitRoundTrip(n % 10);
    if n >= 10 {
      NatToStringValue(n / 10);
      var s := NatToString(n);
      assert s[..|s| - 1] == NatToString(n / 10);
    } else {
      DigitRoundTrip(n);
    }
  }

  function Repeat(c: char, k: nat): (r: string)
    ensures |r| == k
    ensures forall i :: 0 <= i < k ==> r[i] == c
  {
    if k == 0 then "" else [c] + Repeat(c, k - 1)
  }

  /** `s.padStart(width, c)`. */
  function PadStart(s: string, width: nat, c: char): (r: string)
    ensures |s| >= width ==> r == s
    ensures |s| < width ==> |r| == width && r == Repeat(c, width - |s|) + s
  {
    if |s| >= width then s else Repeat(c, width - |s|) + s
  }

  /** Leading zeros do not change the value of a digit string. */
  lemma {:induction false} LeadingZerosValue(k: nat, s: string)
    requires AllDigits(s)
    ensures AllDigits(Repeat('0', k) + s)
    ensures DecimalValue(Repeat('0', k) + s) == DecimalValue(s)
    decreases |s|
  {
    var t := Repeat('0', k) + s;
    assert AllDigits(t);
    if |s| == 0 {
      assert t == Repeat('0', k);
      ZerosValue(k);
    } else {
      assert t[..|t| - 1] == Repeat('0', k) + s[..|s| - 1];
      LeadingZerosValue(k, s[..|s| - 1]);
    }
  }

  lemma {:induction false} ZerosValue(k: nat)
    ensures AllDigits(Repeat('0', k))
    ensures DecimalValue(Repeat('0', k)) == 0
  {
    if k > 0 {
      var z := Repeat('0', k);
      assert z[..k - 1] == Repeat('0', k - 1);
      ZerosValue(k - 1);
    }
  }

  /** Zero-padding the decimal text of n still reads back as n, so distinct numbers pad to distinct strings. */
  lemma PaddedValue(n: nat, width: nat)
    ensures AllDigits(PadStart(NatToString(n), width, '0'))
    ensures DecimalValue(PadStart(NatToString(n), width, '0')) == n
  {
    var s := NatToString(n);
    NatToStringValue(n);
    if |s| < width {
      LeadingZerosValue(width - |s|, s);
    }
  }

  // ---------------------------------------------------------------------
  // Case

  /** ASCII upper-casing; characters outside a-z are kept. */
  function UpperChar(c: char): (r: char)
    ensures 'a' <= c <= 'z' ==> 'A' <= r <= 'Z'
    ensures !('a' <= c <= 'z') ==> r == c
  {
    if 'a' <= c <= 'z' then (c as int - 32) as char else c
  }

  function ToUpper(s: string): (r: string)
    ensures |r| == |s|
  {
    seq(|s|, i requires 0 <= i < |s| => UpperChar(s[i]))
  }

  /** Upper-casing keeps '_' and digits where they were. */
  lemma UpperKeepsUnderscore(s: string, i: nat)
    requires i < |s|
    ensures ToUpper(s)[i] == '_' <==> s[i] == '_'
    ensures IsDigit(s[i]) ==> ToUpper(s)[i] == s[i]
  {
  }
}
