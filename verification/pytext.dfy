/**
 * The Python 2 string builtins that the ledger and the cluster manager lean on:
 * str.strip(), str.split(" "), int() on a str, str() of an int, the `in` test
 * on strings and posixpath.join of two components. Strings are sequences of
 * characters; no encoding is involved.
 */
module PyText {
  import opened Wrappers

  /** The characters Python 2's str.strip() and int() skip as whitespace. */
  predicate IsSpace(c: char) {
    c == ' ' || c == '\t' || c == '\n' || c == '\r' || c as int == 0x0B || c as int == 0x0C
  }

  /** str.lstrip(): the suffix left after dropping leading whitespace. */
  function TrimStart(s: string): (r: string)
    ensures |r| <= |s| && r == s[|s| - |r|..]
    ensures r == [] || !IsSpace(r[0])
    ensures forall i :: 0 <= i < |s| - |r| ==> IsSpace(s[i])
  {
    if s != [] && IsSpace(s[0]) then TrimStart(s[1..]) else s
  }

  /** str.rstrip(): the prefix left after dropping trailing whitespace. */
  function TrimEnd(s: string): (r: string)
    ensures |r| <= |s| && r == s[..|r|]
    ensures r == [] || !IsSpace(r[|r| - 1])
    ensures forall i :: |r| <= i < |s| ==> IsSpace(s[i])
  {
    if s != [] && IsSpace(s[|s| - 1]) then TrimEnd(s[..|s| - 1]) else s
  }

  /** str.strip() */
  function Strip(s: string): string {
    TrimEnd(TrimStart(s))
  }

  /** A line strips to "" exactly when every character of it is whitespace. */
  lemma StripEmptyIffBlank(s: string)
    ensures Strip(s) == [] <==> forall i :: 0 <= i < |s| ==> IsSpace(s[i])
  {
    var t := TrimStart(s);
    if Strip(s) == [] {
      assert t == [];
    }
    if forall i :: 0 <= i < |s| ==> IsSpace(s[i]) {
      assert t == [] || t[0] == s[|s| - |t|];
    }
  }

  /** Strip leaves alone a string that neither starts nor ends with whitespace. */
  lemma StripKeeps(s: string)
    requires s == [] || (!IsSpace(s[0]) && !IsSpace(s[|s| - 1]))
    ensures Strip(s) == s
  {
  }

  /** The number of times c occurs in s. */
  function Occurrences(s: string, c: char): nat {
    if s == [] then 0 else (if s[0] == c then 1 else 0) + Occurrences(s[1..], c)
  }

  /** str.split(sep) for a one-character separator: the fields between separators, empty ones included. */
  function Split(s: string, sep: char): (parts: seq<string>)
    ensures |parts| == Occurrences(s, sep) + 1
    ensures forall i :: 0 <= i < |parts| ==> sep !in parts[i]
  {
    if s == [] then [[]]
    else
      var rest := Split(s[1..], sep);
      if s[0] == sep then [[]] + rest
      else [[s[0]] + rest[0]] + rest[1..]
  }

  /** sep.join(parts) */
  function JoinWith(parts: seq<string>, sep: char): string {
    if parts == [] then []
    else if |parts| == 1 then parts[0]
    else parts[0] + [sep] + JoinWith(parts[1..], sep)
  }

  /** Splitting loses nothing: joining the fields with the separator gives the string back. */
  lemma {:induction false} SplitJoin(s: string, sep: char)
    ensures JoinWith(Split(s, sep), sep) == s
  {
    if s != [] {
      var rest := Split(s[1..], sep);
      SplitJoin(s[1..], sep);
      if s[0] == sep {
        assert Split(s, sep) == [[]] + rest;
        assert ([[]] + rest)[1..] == rest;
      } else {
        var parts := Split(s, sep);
        assert parts == [[s[0]] + rest[0]] + rest[1..];
        if |rest| == 1 {
          assert JoinWith(parts, sep) == [s[0]] + rest[0];
        } else {
          assert parts[1..] == rest[1..];
          assert JoinWith(rest, sep) == rest[0] + [sep] + JoinWith(rest[1..], sep);
        }
      }
    }
  }

  /** Joining fields that hold no separator and splitting again gives the fields back. */
  lemma {:induction false} JoinSplit(parts: seq<string>, sep: char)
    requires parts != []
    requires forall i :: 0 <= i < |parts| ==> sep !in parts[i]
    ensures Split(JoinWith(parts, sep), sep) == parts
  {
    if |parts| == 1 {
      NoSeparatorOneField(parts[0], sep);
    } else {
      JoinSplit(parts[1..], sep);
      SplitPrefix(parts[0], sep, JoinWith(parts[1..], sep));
      assert JoinWith(parts, sep) == parts[0] + ([sep] + JoinWith(parts[1..], sep));
    }
  }

  lemma {:induction false} NoSeparatorOneField(s: string, sep: char)
    requires sep !in s
    ensures Split(s, sep) == [s]
  {
    if s != [] {
      NoSeparatorOneField(s[1..], sep);
      assert [s[0]] + s[1..] == s;
    }
  }

  /** A separator-free field in front of a separator becomes the first field. */
  lemma {:induction false} SplitPrefix(p: string, sep: char, rest: string)
    requires sep !in p
    ensures Split(p + [sep] + rest, sep) == [p] + Split(rest, sep)
  {
    if p == [] {
      assert [] + [sep] + rest == [sep] + rest;
      assert ([sep] + rest)[1..] == rest;
    } else {
      var s := p + [sep] + rest;
      assert s[1..] == p[1..] + [sep] + rest;
      SplitPrefix(p[1..], sep, rest);
      assert [p[0]] + p[1..] == p;
    }
  }

  predicate IsDigit(c: char) {
    '0' <= c <= '9'
  }

  /** One or more decimal digits. */
  predicate AllDigits(s: string) {
    |s| > 0 && forall i :: 0 <= i < |s| ==> IsDigit(s[i])
  }

  /** The value of a string of decimal digits, most significant first. */
  function DigitsValue(ds: string): nat
    requires forall i :: 0 <= i < |ds| ==> IsDigit(ds[i])
  {
    if ds == [] then 0
    else
      assert IsDigit(ds[|ds| - 1]);
      DigitsValue(ds[..|ds| - 1]) * 10 + (ds[|ds| - 1] as int - '0' as int)
  }

  /**
   * int(s) on a str, base 10, as Python 2.7 reads it: surrounding whitespace,
   * an optional sign, whitespace again (PyOS_strtoul skips it after the sign
   * has been taken off), then one or more digits. None stands for the
   * ValueError Python raises.
   */
  function ParseInt(s: string): Option<int> {
    ParseStripped(Strip(s))
  }

  /** int() once the surrounding whitespace is gone. */
  function ParseStripped(t: string): Option<int> {
    if t != [] && (t[0] == '-' || t[0] == '+') then
      var u := TrimStart(t[1..]);
      if AllDigits(u) then
        var v: int := DigitsValue(u);
        Some(if t[0] == '-' then -v else v)
      else None
    else if AllDigits(t) then Some(DigitsValue(t))
    else None
  }

  /** A minus sign followed by whitespace and digits reads as the negative number: int("-\t5") == -5. */
  lemma SignThenSpaceParses(ws: string, ds: string)
    requires forall i :: 0 <= i < |ws| ==> IsSpace(ws[i])
    requires AllDigits(ds)
    ensures ParseInt("-" + ws + ds).Some? && ParseInt("-" + ws + ds).value + DigitsValue(ds) == 0
  {
    SignThenSpaceUnstripped(ws, ds);
    SignThenSpaceStripped(ws, ds);
  }

  /** A minus sign, whitespace and digits have nothing for strip() to remove. */
  lemma SignThenSpaceUnstripped(ws: string, ds: string)
    requires forall i :: 0 <= i < |ws| ==> IsSpace(ws[i])
    requires AllDigits(ds)
    ensures ParseInt("-" + ws + ds) == ParseStripped("-" + ws + ds)
  {
    var s := "-" + ws + ds;
    SignThenSpaceStripped(ws, ds);
    assert Strip(s) == s by {
      assert s[|s| - 1] == ds[|ds| - 1] && IsDigit(ds[|ds| - 1]);
      StripKeeps(s);
    }
    ParseUnstripped(s);
  }

  /** Once stripped, a minus sign, whitespace and digits read as the negative of the digits' value. */
  lemma SignThenSpaceStripped(ws: string, ds: string)
    requires forall i :: 0 <= i < |ws| ==> IsSpace(ws[i])
    requires AllDigits(ds)
    ensures ParseStripped("-" + ws + ds).Some? && ParseStripped("-" + ws + ds).value + DigitsValue(ds) == 0
  {
    var s := "-" + ws + ds;
    assert TrimStart(s[1..]) == ds by {
      assert s[1..] == ws + ds;
      SkipSpaces(ws, ds);
      assert IsDigit(ds[0]);
    }
  }


  /** A string without surrounding whitespace is read as it stands. */
  lemma ParseUnstripped(t: string)
    requires Strip(t) == t
    ensures ParseInt(t) == ParseStripped(t)
  {
  }

  /** Leading whitespace makes no difference to what str.lstrip() leaves. */
  lemma {:induction false} SkipSpaces(ws: string, r: string)
    requires forall i :: 0 <= i < |ws| ==> IsSpace(ws[i])
    ensures TrimStart(ws + r) == TrimStart(r)
    decreases |ws|
  {
    if ws != [] {
      var s := ws + r;
      assert s[0] == ws[0] && s[1..] == ws[1..] + r;
      assert TrimStart(s) == TrimStart(s[1..]);
      SkipSpaces(ws[1..], r);
    } else {
      assert ws + r == r;
    }
  }

  function DigitChar(d: nat): char
    requires d < 10
  {
    ('0' as int + d) as char
  }

  /** str(n) for n >= 0: decimal digits without leading zeros. */
  function ShowNat(n: nat): (s: string)
    ensures AllDigits(s)
    ensures DigitsValue(s) == n
    ensures s[0] != '0' || s == "0"
  {
    if n < 10 then [DigitChar(n)]
    else
      var s := ShowNat(n / 10) + [DigitChar(n % 10)];
      assert s[..|s| - 1] == ShowNat(n / 10);
      s
  }

  /** str(n) for any integer n. */
  function ShowInt(n: int): string {
    if n < 0 then "-" + ShowNat(-n) else ShowNat(n)
  }

  /** int(str(n)) == n: ShowInt and ParseInt are inverse. */
  lemma ShowIntParses(n: int)
    ensures ParseInt(ShowInt(n)) == Some(n)
  {
    if n < 0 {
      var d := ShowNat(-n);
      var none: string := [];
      assert ShowInt(n) == "-" + none + d;
      SignThenSpaceParses(none, d);
    } else {
      DigitsParse(ShowNat(n));
    }
  }

  /** Digits alone read as their value. */
  lemma DigitsParse(ds: string)
    requires AllDigits(ds)
    ensures ParseInt(ds) == Some(DigitsValue(ds))
  {
    assert IsDigit(ds[0]) && IsDigit(ds[|ds| - 1]);
    StripKeeps(ds);
  }



  /** The substring sub starts at position i of s. */
  predicate OccursAt(s: string, sub: string, i: int) {
    0 <= i && i + |sub| <= |s| && s[i..i + |sub|] == sub
  }

  /** Python's `sub in s` on strings. */
  function Contains(s: string, sub: string): (b: bool)
    ensures b <==> exists i :: OccursAt(s, sub, i)
  {
    if |sub| > |s| then false
    else if s[..|sub|] == sub then
      assert OccursAt(s, sub, 0);
      true
    else
      var b := Contains(s[1..], sub);
      assert forall i :: OccursAt(s[1..], sub, i) <==> OccursAt(s, sub, i + 1) by {
        forall i ensures OccursAt(s[1..], sub, i) <==> OccursAt(s, sub, i + 1) {
          if 0 <= i && i + |sub| <= |s| - 1 {
            assert s[1..][i..i + |sub|] == s[i + 1..i + 1 + |sub|];
          }
        }
      }
      assert (exists i :: OccursAt(s, sub, i)) ==> exists i :: OccursAt(s[1..], sub, i) by {
        if exists i :: OccursAt(s, sub, i) {
          var i :| OccursAt(s, sub, i);
          assert i != 0;
          assert OccursAt(s[1..], sub, i - 1);
        }
      }
      b
  }

  /** The path starts at the root. */
  predicate IsAbsolute(p: string) {
    p != [] && p[0] == '/'
  }

  /**
   * posixpath.join(a, b): b alone when b is absolute; otherwise a and b with a
   * single "/" between them unless a is empty or already ends in "/".
   */
  function PathJoin(a: string, b: string): string {
    if IsAbsolute(b) then b
    else if a == [] || a[|a| - 1] == '/' then a + b
    else a + "/" + b
  }

  /**
   * The joined path ends with b; an absolute b replaces a; a relative b keeps
   * a in front, followed by exactly one "/" when a does not already end in one.
   */
  lemma PathJoinParts(a: string, b: string)
    ensures var r := PathJoin(a, b);
      && |b| <= |r| && r[|r| - |b|..] == b
      && (IsAbsolute(b) ==> r == b)
      && (!IsAbsolute(b) ==> |a| <= |r| && r[..|a|] == a)
      && (!IsAbsolute(b) && a != [] && a[|a| - 1] != '/' ==> |r| == |a| + 1 + |b| && r[|a|] == '/')
      && (!IsAbsolute(b) && (a == [] || a[|a| - 1] == '/') ==> r == a + b)
  {
  }
}
