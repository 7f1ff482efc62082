/**
 * The parts of Python's `str` semantics that the load testers and the XSS
 * tester rely on: `strip()`, `lower()`, `startswith()`, `split(sep)` with a
 * one-character separator, the substring test `sub in text`,
 * `replace(c, rep)` for a one-character pattern, and `int(text)` in base 10.
 */
module PyStr {
  import opened Wrappers

  /** `c.isspace()` in Python 3: the characters `str.strip()` removes. */
  predicate IsSpace(c: char)
  {
    c == ' ' || ('\t' <= c <= '\r') || ('\U{1C}' <= c <= '\U{1F}')
    || c == '\U{85}' || c == '\U{A0}' || c == '\U{1680}'
    || ('\U{2000}' <= c <= '\U{200A}') || c == '\U{2028}' || c == '\U{2029}'
    || c == '\U{202F}' || c == '\U{205F}' || c == '\U{3000}'
  }

  predicate AllSpace(s: string)
  {
    forall i :: 0 <= i < |s| ==> IsSpace(s[i])
  }

  /** `s.lstrip()` */
  function StripLeft(s: string): string
  {
    if |s| > 0 && IsSpace(s[0]) then StripLeft(s[1..]) else s
  }

  /** `s.rstrip()` */
  function StripRight(s: string): string
  {
    if |s| > 0 && IsSpace(s[|s| - 1]) then StripRight(s[..|s| - 1]) else s
  }

  /** `lstrip()` removes a white-space prefix and stops at the first other character. */
  lemma {:induction false} StripLeftFacts(s: string)
    ensures var r := StripLeft(s);
            |r| <= |s| && r == s[|s| - |r|..] && AllSpace(s[..|s| - |r|])
            && (r == [] || !IsSpace(r[0]))
  {
    if |s| > 0 && IsSpace(s[0]) {
      StripLeftFacts(s[1..]);
      var r := StripLeft(s);
      assert s[..|s| - |r|] == [s[0]] + s[1..][..|s| - 1 - |r|];
    }
  }

  /** `rstrip()` removes a white-space suffix and stops at the last other character. */
  lemma {:induction false} StripRightFacts(s: string)
    ensures var r := StripRight(s);
            |r| <= |s| && r == s[..|r|] && AllSpace(s[|r|..])
            && (r == [] || !IsSpace(r[|r| - 1]))
  {
    if |s| > 0 && IsSpace(s[|s| - 1]) {
      StripRightFacts(s[..|s| - 1]);
      var r := StripRight(s);
      assert s[|r|..] == s[..|s| - 1][|r|..] + [s[|s| - 1]];
    }
  }

  /**
   * `s.strip()`: the infix of `s` left once every leading and trailing
   * white-space character is removed.
   */
  function Strip(s: string): (r: string)
    ensures |r| <= |s|
    ensures r == [] || (!IsSpace(r[0]) && !IsSpace(r[|r| - 1]))
  {
    var l := StripLeft(s);
    StripLeftFacts(s);
    StripRightFacts(l);
    var r := StripRight(l);
    assert r != [] ==> r[0] == l[0];
    r
  }

  /**
   * What `strip()` removes is white space, from both ends only: `i` is
   * where the result starts in `s`.
   */
  lemma StripInfix(s: string) returns (i: nat)
    ensures i + |Strip(s)| <= |s| && s[i..i + |Strip(s)|] == Strip(s)
    ensures AllSpace(s[..i]) && AllSpace(s[i + |Strip(s)|..])
  {
    var l := StripLeft(s);
    StripLeftFacts(s);
    StripRightFacts(l);
    var r := StripRight(l);
    i := |s| - |l|;
    assert s[i..i + |r|] == r;
    assert s[i + |r|..] == l[|r|..];
  }

  /** Stripping removes nothing more the second time. */
  lemma StripIdempotent(s: string)
    ensures Strip(Strip(s)) == Strip(s)
  {
    var t := Strip(s);
    StripOfStripped(t);
  }

  /** A string without surrounding white space is its own `strip()`. */
  lemma StripOfStripped(s: string)
    requires s == [] || (!IsSpace(s[0]) && !IsSpace(s[|s| - 1]))
    ensures Strip(s) == s
  {
    assert StripLeft(s) == s;
    assert StripRight(s) == s;
  }

  /** `strip()` is empty exactly for the strings made of white space only. */
  lemma StripEmptyIff(s: string)
    ensures Strip(s) == [] <==> AllSpace(s)
  {
    var i := StripInfix(s);
  }

  function LowerChar(c: char): char
  {
    if 'A' <= c <= 'Z' then (c as int - 'A' as int + 'a' as int) as char else c
  }

  /** `s.lower()`, on the ASCII letters. */
  function Lower(s: string): (r: string)
    ensures |r| == |s|
    ensures forall i :: 0 <= i < |s| ==> r[i] == LowerChar(s[i])
  {
    seq(|s|, i requires 0 <= i < |s| => LowerChar(s[i]))
  }

  /** `s.startswith(p)` */
  predicate StartsWith(s: string, p: string)
  {
    |p| <= |s| && s[..|p|] == p
  }

  /** The position of the first `c` in `s`, as `s.index(c)`. */
  function IndexOf(s: string, c: char): (i: nat)
    requires c in s
    ensures i < |s| && s[i] == c && c !in s[..i]
  {
    if s[0] == c then 0
    else
      var j := IndexOf(s[1..], c);
      assert s[..j + 1] == [s[0]] + s[1..][..j];
      j + 1
  }

  /** `s.split(sep)`: the pieces between the separators, never an empty list. */
  function Split(s: string, sep: char): (parts: seq<string>)
    ensures |parts| >= 1
    ensures forall k :: 0 <= k < |parts| ==> sep !in parts[k]
    decreases |s|
  {
    if sep !in s then [s]
    else
      var i := IndexOf(s, sep);
      [s[..i]] + Split(s[i + 1..], sep)
  }

  /** `sep.join(parts)` */
  function Join(parts: seq<string>, sep: string): string
    requires |parts| >= 1
  {
    if |parts| == 1 then parts[0] else parts[0] + sep + Join(parts[1..], sep)
  }

  /** Joining the pieces of a split with the separator gives the string back. */
  lemma {:induction false} JoinSplit(s: string, sep: char)
    ensures Join(Split(s, sep), [sep]) == s
    decreases |s|
  {
    if sep in s {
      var i := IndexOf(s, sep);
      JoinSplit(s[i + 1..], sep);
      assert s == s[..i] + [sep] + s[i + 1..];
    }
  }

  lemma IndexOfAfterFree(a: string, sep: char, b: string)
    requires sep !in a
    ensures sep in a + [sep] + b && IndexOf(a + [sep] + b, sep) == |a|
  {
    var s := a + [sep] + b;
    assert s[|a|] == sep;
  }

  /** Splitting a join of separator-free pieces gives the pieces back. */
  lemma {:induction false} SplitJoin(parts: seq<string>, sep: char)
    requires |parts| >= 1
    requires forall k :: 0 <= k < |parts| ==> sep !in parts[k]
    ensures Split(Join(parts, [sep]), sep) == parts
  {
    if |parts| > 1 {
      SplitCons(parts[0], sep, Join(parts[1..], [sep]));
      SplitJoin(parts[1..], sep);
      assert parts == [parts[0]] + parts[1..];
    }
  }

  /** A separator-free piece before the first separator is the first part. */
  lemma SplitCons(a: string, sep: char, b: string)
    requires sep !in a
    ensures Split(a + [sep] + b, sep) == [a] + Split(b, sep)
  {
    var s := a + [sep] + b;
    IndexOfAfterFree(a, sep, b);
    assert s[..|a|] == a;
    assert s[|a| + 1..] == b;
  }

  /** The first piece of a split is everything before the first separator. */
  lemma SplitFirst(s: string, sep: char)
    ensures sep !in s ==> Split(s, sep) == [s]
    ensures sep in s ==> |Split(s, sep)| >= 2
                         && Split(s, sep)[0] == s[..IndexOf(s, sep)]
                         && Split(s, sep)[1] == Split(s[IndexOf(s, sep) + 1..], sep)[0]
  {
  }

  /** `sub` occurs in `text` starting at position `i`. */
  ghost predicate OccursAt(text: string, sub: string, i: int)
  {
    0 <= i && i + |sub| <= |text| && text[i..i + |sub|] == sub
  }

  lemma OccursShift(text: string, sub: string)
    requires |text| > 0
    ensures forall i :: 0 <= i ==> (OccursAt(text[1..], sub, i) <==> OccursAt(text, sub, i + 1))
  {
    forall i | 0 <= i ensures OccursAt(text[1..], sub, i) <==> OccursAt(text, sub, i + 1) {
      if 0 <= i && i + |sub| <= |text| - 1 {
        assert text[1..][i..i + |sub|] == text[i + 1..i + 1 + |sub|];
      }
    }
  }

  /** `sub in text` for strings: some position of `text` starts a copy of `sub`. */
  function Contains(text: string, sub: string): (r: bool)
    ensures r <==> exists i :: OccursAt(text, sub, i)
    decreases |text|
  {
    if |sub| <= |text| && text[..|sub|] == sub then
      assert OccursAt(text, sub, 0);
      true
    else if |text| == 0 then
      false
    else
      OccursShift(text, sub);
      var r := Contains(text[1..], sub);
      assert !OccursAt(text, sub, 0);
      assert r ==> exists i :: OccursAt(text, sub, i) by {
        if r {
          var i :| OccursAt(text[1..], sub, i);
          assert OccursAt(text, sub, i + 1);
        }
      }
      assert (exists i :: OccursAt(text, sub, i)) ==> r by {
        if i :| OccursAt(text, sub, i) {
          assert i != 0;
          assert OccursAt(text[1..], sub, i - 1);
        }
      }
      r
  }

  /** The number of occurrences of `c` in `s`. */
  function Count(s: string, c: char): nat
  {
    if s == [] then 0 else (if s[0] == c then 1 else 0) + Count(s[1..], c)
  }

  lemma {:induction false} CountAppend(a: string, b: string, c: char)
    ensures Count(a + b, c) == Count(a, c) + Count(b, c)
  {
    if a != [] {
      CountAppend(a[1..], b, c);
      assert (a + b)[1..] == a[1..] + b;
    } else {
      assert a + b == b;
    }
  }

  lemma {:induction false} CountAbsent(s: string, c: char)
    requires c !in s
    ensures Count(s, c) == 0
  {
    if s != [] {
      CountAbsent(s[1..], c);
    }
  }

  /** A split has one piece more than there are separators. */
  lemma {:induction false} SplitCount(s: string, sep: char)
    ensures |Split(s, sep)| == Count(s, sep) + 1
    decreases |s|
  {
    if sep !in s {
      CountAbsent(s, sep);
    } else {
      var i := IndexOf(s, sep);
      SplitCount(s[i + 1..], sep);
      assert s == s[..i] + ([sep] + s[i + 1..]);
      CountAppend(s[..i], [sep] + s[i + 1..], sep);
      CountAbsent(s[..i], sep);
      assert ([sep] + s[i + 1..])[1..] == s[i + 1..];
    }
  }

  /**
   * `s.replace(c, rep)` for a one-character pattern: every `c` becomes `rep`,
   * every other character stays.
   */
  function ReplaceChar(s: string, c: char, rep: string): (r: string)
    ensures c !in rep ==> c !in r
    ensures c !in s ==> r == s
    ensures |rep| >= 1 ==> |r| >= |s|
  {
    if s == [] then []
    else (if s[0] == c then rep else [s[0]]) + ReplaceChar(s[1..], c, rep)
  }

  /** Replacing in a concatenation replaces in each part. */
  lemma {:induction false} ReplaceCharAppend(a: string, b: string, c: char, rep: string)
    ensures ReplaceChar(a + b, c, rep) == ReplaceChar(a, c, rep) + ReplaceChar(b, c, rep)
  {
    if a == [] {
      assert a + b == b;
    } else {
      var h := if a[0] == c then rep else [a[0]];
      assert (a + b)[0] == a[0] && (a + b)[1..] == a[1..] + b;
      calc {
        ReplaceChar(a + b, c, rep);
        h + ReplaceChar(a[1..] + b, c, rep);
        { ReplaceCharAppend(a[1..], b, c, rep); }
        h + (ReplaceChar(a[1..], c, rep) + ReplaceChar(b, c, rep));
        (h + ReplaceChar(a[1..], c, rep)) + ReplaceChar(b, c, rep);
      }
    }
  }

  /** On one character, `replace` swaps in `rep` for `c` and keeps anything else. */
  lemma ReplaceCharOne(x: char, c: char, rep: string)
    ensures ReplaceChar([x], c, rep) == if x == c then rep else [x]
  {
    assert [x][1..] == [];
  }

  /** Replacing around the first `c`: what precedes it stays, it becomes `rep`. */
  lemma ReplaceCharAround(a: string, c: char, b: string, rep: string)
    requires c !in a
    ensures ReplaceChar(a + [c] + b, c, rep) == a + rep + ReplaceChar(b, c, rep)
  {
    calc {
      ReplaceChar(a + [c] + b, c, rep);
      { assert a + [c] + b == a + ([c] + b); ReplaceCharAppend(a, [c] + b, c, rep); }
      ReplaceChar(a, c, rep) + ReplaceChar([c] + b, c, rep);
      { ReplaceCharAppend([c], b, c, rep); ReplaceCharOne(c, c, rep); }
      a + (rep + ReplaceChar(b, c, rep));
    }
  }

  /** `s.replace(c, rep) == rep.join(s.split(c))`. */
  lemma {:induction false} ReplaceCharIsJoinSplit(s: string, c: char, rep: string)
    ensures ReplaceChar(s, c, rep) == Join(Split(s, c), rep)
    decreases |s|
  {
    if c in s {
      var i := IndexOf(s, c);
      var rest := s[i + 1..];
      assert s == s[..i] + [c] + rest;
      ReplaceCharAround(s[..i], c, rest, rep);
      SplitCons(s[..i], c, rest);
      ReplaceCharIsJoinSplit(rest, c, rep);
      var parts := Split(s, c);
      assert parts[1..] == Split(rest, c);
    }
  }

  predicate IsDigit(c: char)
  {
    '0' <= c <= '9'
  }

  predicate AllDigits(s: string)
  {
    forall i :: 0 <= i < |s| ==> IsDigit(s[i])
  }

  /**
   * The digits of a base-10 literal as `int()` accepts them: at least one
   * digit, single underscores allowed between digits.
   */
  predicate DigitGroups(d: string)
  {
    && |d| > 0 && IsDigit(d[0]) && IsDigit(d[|d| - 1])
    && DigitsOrUnderscores(d)
    && SingleUnderscores(d)
  }

  /** No two underscores stand next to each other in `d`. */
  predicate SingleUnderscores(d: string)
  {
    |d| < 2 || ((d[0] != '_' || d[1] != '_') && SingleUnderscores(d[1..]))
  }

  predicate DigitsOrUnderscores(d: string)
  {
    forall i :: 0 <= i < |d| ==> IsDigit(d[i]) || d[i] == '_'
  }

  /** The digits of `d` with the underscores taken out. */
  function DropUnderscores(d: string): (r: string)
    ensures DigitsOrUnderscores(d) ==> AllDigits(r)
    ensures '_' !in d ==> r == d
  {
    if d == [] then []
    else (if d[0] == '_' then [] else [d[0]]) + DropUnderscores(d[1..])
  }

  function DigitValue(c: char): nat
    requires IsDigit(c)
  {
    c as int - '0' as int
  }

  /** The number a string of decimal digits denotes. */
  function DecimalValue(ds: string): nat
    requires AllDigits(ds)
  {
    if ds == [] then 0
    else DecimalValue(ds[..|ds| - 1]) * 10 + DigitValue(ds[|ds| - 1])
  }

  /** The ASCII information separators U+001C..U+001F. */
  predicate IsSeparator(c: char)
  {
    '\U{1C}' <= c <= '\U{1F}'
  }

  /**
   * The white space `int()` skips around a number. CPython first turns
   * every non-ASCII white-space character into a blank and then skips
   * ASCII white space only, so the information separators, white space to
   * `isspace()`, stay in the text and make it unreadable.
   */
  predicate IntSpace(c: char)
  {
    IsSpace(c) && !IsSeparator(c)
  }

  /** The leading white space `int()` skips. */
  function IntStripLeft(s: string): string
  {
    if |s| > 0 && IntSpace(s[0]) then IntStripLeft(s[1..]) else s
  }

  /** The trailing white space `int()` skips. */
  function IntStripRight(s: string): string
  {
    if |s| > 0 && IntSpace(s[|s| - 1]) then IntStripRight(s[..|s| - 1]) else s
  }

  /** `int()` skips a prefix of its white space and stops at the first other character. */
  lemma {:induction false} IntStripLeftFacts(s: string)
    ensures var r := IntStripLeft(s);
            |r| <= |s| && r == s[|s| - |r|..]
            && (forall i :: 0 <= i < |s| - |r| ==> IntSpace(s[i]))
            && (r == [] || !IntSpace(r[0]))
  {
    if |s| > 0 && IntSpace(s[0]) {
      IntStripLeftFacts(s[1..]);
    }
  }

  /** `int()` skips a suffix of its white space and stops at the last other character. */
  lemma {:induction false} IntStripRightFacts(s: string)
    ensures var r := IntStripRight(s);
            |r| <= |s| && r == s[..|r|]
            && (forall i :: |r| <= i < |s| ==> IntSpace(s[i]))
            && (r == [] || !IntSpace(r[|r| - 1]))
  {
    if |s| > 0 && IntSpace(s[|s| - 1]) {
      IntStripRightFacts(s[..|s| - 1]);
    }
  }

  /**
   * `int(s)`: `None` where Python raises `ValueError`. Surrounding white
   * space other than the separators is ignored, one sign is allowed, the
   * rest must be digit groups.
   */
  function ParseInt(s: string): Option<int>
  {
    ParseStripped(IntStripRight(IntStripLeft(s)))
  }

  /** `int(t)` once the surrounding white space is gone. */
  function ParseStripped(t: string): Option<int>
  {
    var signed := |t| > 0 && (t[0] == '-' || t[0] == '+');
    var body := if signed then t[1..] else t;
    if DigitGroups(body) then
      var v: int := DecimalValue(DropUnderscores(body));
      Some(if signed && t[0] == '-' then -v else v)
    else None
  }

  function DigitChar(d: nat): (c: char)
    requires d < 10
    ensures IsDigit(c) && DigitValue(c) == d
  {
    ('0' as int + d) as char
  }

  /** `str(n)` for a natural number. */
  function NatToDecimal(n: nat): (s: string)
    ensures |s| > 0 && AllDigits(s)
  {
    if n < 10 then [DigitChar(n)] else NatToDecimal(n / 10) + [DigitChar(n % 10)]
  }

  /** `str(n)` */
  function IntToDecimal(n: int): string
  {
    if n < 0 then "-" + NatToDecimal(-n) else NatToDecimal(n)
  }

  lemma {:induction false} DecimalValueOfNat(n: nat)
    ensures DecimalValue(NatToDecimal(n)) == n
  {
    var s := NatToDecimal(n);
    if n >= 10 {
      DecimalValueOfNat(n / 10);
      assert s[..|s| - 1] == NatToDecimal(n / 10);
    }
  }

  /** A string of digits has no underscores to double. */
  lemma {:induction false} DigitsSingleUnderscores(ds: string)
    requires AllDigits(ds)
    ensures SingleUnderscores(ds)
  {
    if |ds| >= 2 {
      assert IsDigit(ds[0]);
      assert AllDigits(ds[1..]) by {
        forall i | 0 <= i < |ds| - 1 ensures IsDigit(ds[1..][i]) { assert ds[1..][i] == ds[i + 1]; }
      }
      DigitsSingleUnderscores(ds[1..]);
    }
  }

  lemma PlainDigitGroups(ds: string)
    requires |ds| > 0 && AllDigits(ds)
    ensures DigitGroups(ds) && DropUnderscores(ds) == ds
  {
    DigitsSingleUnderscores(ds);
  }

  lemma ParseDigits(ds: string)
    requires |ds| > 0 && AllDigits(ds)
    ensures ParseStripped(ds).Some? && ParseStripped(ds).value == DecimalValue(ds)
  {
    PlainDigitGroups(ds);
    assert IsDigit(ds[0]);
    assert !(ds[0] == '-' || ds[0] == '+');
    var v: int := DecimalValue(DropUnderscores(ds));
    assert ParseStripped(ds) == Some(v);
  }

  lemma ParseNegativeDigits(ds: string)
    requires |ds| > 0 && AllDigits(ds)
    ensures var t := "-" + ds;
            ParseStripped(t).Some? && ParseStripped(t).value == -(DecimalValue(ds) as int)
  {
    PlainDigitGroups(ds);
    var t := "-" + ds;
    assert t[0] == '-';
    assert t[1..] == ds;
    assert DigitGroups(t[1..]);
  }

  /** `str(n)` starts with a sign or a digit and ends with a digit. */
  lemma DecimalEnds(n: int)
    ensures var t := IntToDecimal(n);
            |t| > 0 && (t[0] == '-' || IsDigit(t[0])) && IsDigit(t[|t| - 1])
  {
    var ds := NatToDecimal(if n < 0 then -n else n);
    var t := IntToDecimal(n);
    assert IsDigit(ds[0]) && IsDigit(ds[|ds| - 1]);
    assert t[|t| - 1] == ds[|ds| - 1];
  }

  lemma StripDecimal(n: int)
    ensures Strip(IntToDecimal(n)) == IntToDecimal(n)
  {
    DecimalEnds(n);
    StripOfStripped(IntToDecimal(n));
  }

  lemma ParseStrippedDecimal(n: int)
    ensures ParseStripped(IntToDecimal(n)) == Some(n)
  {
    var m: nat := if n < 0 then -n else n;
    var ds := NatToDecimal(m);
    DecimalValueOfNat(m);
    if n < 0 {
      ParseNegativeDigits(ds);
    } else {
      ParseDigits(ds);
    }
  }

  /** `int(str(n)) == n`: the parser reads back every number it can print. */
  lemma ParseIntOfDecimal(n: int)
    ensures ParseInt(IntToDecimal(n)) == Some(n)
  {
    DecimalEnds(n);
    IntStripOfTrimmed(IntToDecimal(n));
    ParseStrippedDecimal(n);
  }

  /** `int()` skips nothing in a text that starts and ends with a sign or a digit. */
  lemma IntStripOfTrimmed(t: string)
    requires |t| > 0 && (t[0] == '-' || IsDigit(t[0])) && IsDigit(t[|t| - 1])
    ensures IntStripRight(IntStripLeft(t)) == t
  {
    assert !IntSpace(t[0]) && !IntSpace(t[|t| - 1]);
    assert IntStripLeft(t) == t;
  }

  /** Empty or blank text is not a number. */
  lemma ParseIntBlank(s: string)
    requires AllSpace(s)
    ensures ParseInt(s) == None
  {
    var l := IntStripLeft(s);
    var u := IntStripRight(l);
    IntStripLeftFacts(s);
    IntStripRightFacts(l);
    if u != [] {
      assert u[0] == s[|s| - |l|];
      assert !IsDigit(u[0]) && u[0] != '-' && u[0] != '+';
    }
  }

  /** Only signs, digits and underscores survive in a text `int()` reads. */
  lemma ParseStrippedChars(t: string, j: int)
    requires 0 <= j < |t| && ParseStripped(t).Some?
    ensures IsDigit(t[j]) || t[j] == '_' || t[j] == '-' || t[j] == '+'
  {
    if j > 0 && (t[0] == '-' || t[0] == '+') {
      assert t[j] == t[1..][j - 1];
    }
  }

  /** A separator anywhere in the text, even among the white space, makes `int()` fail. */
  lemma ParseIntSeparator(s: string, i: int)
    requires 0 <= i < |s| && IsSeparator(s[i])
    ensures ParseInt(s) == None
  {
    var l := IntStripLeft(s);
    var u := IntStripRight(l);
    IntStripLeftFacts(s);
    IntStripRightFacts(l);
    var k := i - (|s| - |l|);
    assert 0 <= k < |u| && u[k] == s[i];
    if ParseStripped(u).Some? {
      ParseStrippedChars(u, k);
    }
  }

  /** Without separators, `int()` skips exactly the white space `strip()` removes. */
  lemma {:induction false} IntStripLeftIsStripLeft(s: string)
    requires forall i :: 0 <= i < |s| ==> !IsSeparator(s[i])
    ensures IntStripLeft(s) == StripLeft(s)
  {
    if |s| > 0 && IsSpace(s[0]) {
      IntStripLeftIsStripLeft(s[1..]);
    }
  }

  lemma {:induction false} IntStripRightIsStripRight(s: string)
    requires forall i :: 0 <= i < |s| ==> !IsSeparator(s[i])
    ensures IntStripRight(s) == StripRight(s)
  {
    if |s| > 0 && IsSpace(s[|s| - 1]) {
      IntStripRightIsStripRight(s[..|s| - 1]);
    }
  }

  /** Without separators, `int(s)` reads what is left after `s.strip()`. */
  lemma ParseIntWithoutSeparators(s: string)
    requires forall i :: 0 <= i < |s| ==> !IsSeparator(s[i])
    ensures ParseInt(s) == ParseStripped(Strip(s))
  {
    IntStripLeftIsStripLeft(s);
    var l := StripLeft(s);
    StripLeftFacts(s);
    IntStripRightIsStripRight(l);
  }
}
