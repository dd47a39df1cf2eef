/**
 * The string primitives the Python code relies on: `str.find`, `str.rfind`,
 * slicing, `str.split` on one character, `str.join`, `startswith`, `"=" * n`
 * and the decimal rendering of integers in f-strings.
 */
module Text {

  /** Concatenation is associative; stated once so that loop proofs need not rediscover it. */
  lemma ConcatAssoc<T>(a: seq<T>, b: seq<T>, c: seq<T>)
    ensures (a + b) + c == a + (b + c)
  {
  }

  /** `s.find(c)`: the first index of `c` in `s`, or -1 when there is none. */
  function Find(s: string, c: char): (r: int)
    ensures -1 <= r < |s|
    ensures r == -1 <==> c !in s
    ensures r >= 0 ==> s[r] == c && c !in s[..r]
  {
    if |s| == 0 then -1
    else if s[0] == c then 0
    else
      var k := Find(s[1..], c);
      assert s[1..] == s[..|s|][1..];
      if k == -1 then -1
      else
        assert s[..k + 1] == [s[0]] + s[1..][..k];
        k + 1
  }

  /** `s.rfind(c)`: the last index of `c` in `s`, or -1 when there is none. */
  function RFind(s: string, c: char): (r: int)
    ensures -1 <= r < |s|
    ensures r == -1 <==> c !in s
    ensures r >= 0 ==> s[r] == c && c !in s[r + 1..]
  {
    if |s| == 0 then -1
    else if s[|s| - 1] == c then |s| - 1
    else
      var k := RFind(s[..|s| - 1], c);
      RFindExtend(s, c, k);
      k
  }

  /** A last character other than `c` leaves the last index of `c` where it was. */
  lemma RFindExtend(s: string, c: char, k: int)
    requires |s| > 0 && s[|s| - 1] != c
    requires -1 <= k < |s| - 1
    requires k == -1 <==> c !in s[..|s| - 1]
    requires k >= 0 ==> s[k] == c && c !in s[..|s| - 1][k + 1..]
    ensures k == -1 <==> c !in s
    ensures k >= 0 ==> c !in s[k + 1..]
  {
    var init := s[..|s| - 1];
    if c in s {
      var i :| 0 <= i < |s| && s[i] == c;
      assert init[i] == c;
    }
    if k >= 0 {
      forall j | k + 1 <= j < |s|
        ensures s[j] != c
      {
        if j < |s| - 1 {
          assert init[k + 1..][j - k - 1] == s[j];
        }
      }
    }
  }

  /** The length of Python's `s[:n]` for a sequence of length `len` (a negative `n` counts from the end). */
  function PyPrefixLength(len: nat, n: int): (m: nat)
    ensures m <= len
    ensures n >= 0 ==> m == if n < len then n else len
    ensures n < 0 ==> m == if len + n > 0 then len + n else 0
  {
    if n >= 0 then (if n < len then n else len)
    else if len + n > 0 then len + n else 0
  }

  /** Python's `s[:n]`. */
  function PyPrefix<T>(s: seq<T>, n: int): seq<T> {
    s[..PyPrefixLength(|s|, n)]
  }

  /** Python's `s[a:b]` for `0 <= a` and `b <= |s|`: empty when `b <= a`. */
  function PySlice(s: string, a: nat, b: nat): string
    requires b <= |s|
  {
    if a < b then s[a..b] else ""
  }

  function StartsWith(s: string, prefix: string): bool {
    |prefix| <= |s| && s[..|prefix|] == prefix
  }

  /** `c * n` for a one-character string `c`. */
  function Repeat(c: char, n: nat): (r: string)
    ensures |r| == n && forall i :: 0 <= i < n ==> r[i] == c
  {
    if n == 0 then "" else Repeat(c, n - 1) + [c]
  }

  /** `sep.join(parts)`. */
  function Join(parts: seq<string>, sep: string): string {
    if |parts| == 0 then ""
    else if |parts| == 1 then parts[0]
    else parts[0] + sep + Join(parts[1..], sep)
  }

  /** `s.split(sep)` for a one-character separator: never empty, and no piece holds `sep`. */
  function Split(s: string, sep: char): (r: seq<string>)
    ensures |r| >= 1
    ensures forall i :: 0 <= i < |r| ==> sep !in r[i]
    decreases |s|
  {
    var i := Find(s, sep);
    if i == -1 then [s] else [s[..i]] + Split(s[i + 1..], sep)
  }

  /** Joining the pieces of a split with the same separator gives back the string. */
  lemma {:induction false} JoinSplit(s: string, sep: char)
    ensures Join(Split(s, sep), [sep]) == s
    decreases |s|
  {
    var i := Find(s, sep);
    if i != -1 {
      var rest := Split(s[i + 1..], sep);
      JoinSplit(s[i + 1..], sep);
      var parts := [s[..i]] + rest;
      assert parts[0] == s[..i] && parts[1..] == rest;
      assert s == s[..i] + [sep] + s[i + 1..];
    }
  }

  /** The first separator of `a + [sep] + b` sits right after `a` when `a` holds none. */
  lemma FindAfterPiece(a: string, sep: char, b: string)
    requires sep !in a
    ensures Find(a + [sep] + b, sep) == |a|
  {
    var s := a + [sep] + b;
    var k := Find(s, sep);
    assert s[|a|] == sep;
    assert s[..|a|] == a;
  }

  /** Splitting the join of separator-free pieces gives back the pieces. */
  lemma {:induction false} SplitJoin(parts: seq<string>, sep: char)
    requires |parts| >= 1
    requires forall i :: 0 <= i < |parts| ==> sep !in parts[i]
    ensures Split(Join(parts, [sep]), sep) == parts
    decreases |parts|
  {
    var p0 := parts[0];
    if |parts| == 1 {
      assert Join(parts, [sep]) == p0;
      assert Find(p0, sep) == -1;
      assert Split(p0, sep) == [p0];
    } else {
      var rest := parts[1..];
      assert forall i :: 0 <= i < |rest| ==> rest[i] == parts[i + 1];
      var tail := Join(rest, [sep]);
      var s := p0 + [sep] + tail;
      assert Join(parts, [sep]) == s;
      FindAfterPiece(p0, sep, tail);
      assert s[..|p0|] == p0;
      assert s[|p0| + 1..] == tail;
      assert Split(s, sep) == [p0] + Split(tail, sep);
      SplitJoin(rest, sep);
      assert parts == [p0] + rest;
    }
  }

  function DigitChar(d: nat): (c: char)
    requires d < 10
    ensures '0' <= c <= '9'
  {
    ('0' as int + d) as char
  }

  function DigitValue(c: char): nat {
    if '0' <= c <= '9' then c as int - '0' as int else 0
  }

  /** The decimal digits of `n`, as `str(n)` prints them. */
  function NatToString(n: nat): (r: string)
    ensures |r| >= 1
    ensures forall i :: 0 <= i < |r| ==> '0' <= r[i] <= '9'
  {
    if n < 10 then [DigitChar(n)] else NatToString(n / 10) + [DigitChar(n % 10)]
  }

  /** `str(i)` for any integer. */
  function IntToString(i: int): string {
    if i < 0 then "-" + NatToString(-i) else NatToString(i)
  }

  /** The value of a string of decimal digits. */
  function ParseNat(s: string): nat {
    if |s| == 0 then 0 else 10 * ParseNat(s[..|s| - 1]) + DigitValue(s[|s| - 1])
  }

  /** Decimal rendering loses nothing: reading the digits back gives the number. */
  lemma {:induction false} ParseNatToString(n: nat)
    ensures ParseNat(NatToString(n)) == n
  {
    if n >= 10 {
      var s := NatToString(n);
      assert s[..|s| - 1] == NatToString(n / 10);
      ParseNatToString(n / 10);
    }
  }

  /** The line `"{n}. {rest}"`, as the numbered listings of the program print it. */
  function Numbered(n: nat, rest: string): string {
    NatToString(n) + ". " + rest
  }

  /** The number in front of the first '.' of a line (0 when there is no '.'). */
  function NumberOf(line: string): nat {
    var k := Find(line, '.');
    if k < 0 then 0 else ParseNat(line[..k])
  }

  /** A numbered line carries its number: reading it back gives `n`. */
  lemma NumberedRoundTrip(n: nat, rest: string)
    ensures NumberOf(Numbered(n, rest)) == n
  {
    var digits := NatToString(n);
    var line := Numbered(n, rest);
    assert line == digits + ['.'] + (" " + rest);
    assert '.' !in digits;
    FindAfterPiece(digits, '.', " " + rest);
    assert line[..|digits|] == digits;
    ParseNatToString(n);
  }

  /** The lines `"1. {items[0]}"`, `"2. {items[1]}"`, ... */
  function NumberedLines(items: seq<string>): (r: seq<string>)
    ensures |r| == |items|
  {
    seq(|items|, i requires 0 <= i < |items| => Numbered(i + 1, items[i]))
  }

  /** A numbered line holds a newline only where its text does. */
  lemma NumberedOneLine(n: nat, rest: string)
    requires '\n' !in rest
    ensures '\n' !in Numbered(n, rest)
  {
    var digits := NatToString(n);
    assert '\n' !in digits by {
      forall k | 0 <= k < |digits| ensures digits[k] != '\n' {
        assert '0' <= digits[k] <= '9';
      }
    }
    assert Numbered(n, rest) == digits + ". " + rest;
  }

  /**
   * A newline-joined numbered listing of newline-free items splits back into
   * one line per item, the `i`-th numbered `i + 1`.
   */
  lemma NumberedLinesSplit(items: seq<string>)
    requires |items| >= 1
    requires forall i :: 0 <= i < |items| ==> '\n' !in items[i]
    ensures Split(Join(NumberedLines(items), "\n"), '\n') == NumberedLines(items)
    ensures forall i :: 0 <= i < |items| ==> NumberOf(NumberedLines(items)[i]) == i + 1
  {
    var lines := NumberedLines(items);
    forall i | 0 <= i < |lines| ensures '\n' !in lines[i] {
      NumberedOneLine(i + 1, items[i]);
    }
    SplitJoin(lines, '\n');
    forall i | 0 <= i < |items| ensures NumberOf(lines[i]) == i + 1 {
      NumberedRoundTrip(i + 1, items[i]);
    }
  }

  /** The number of an indented item line `"  {n}. ..."` (0 for any other line). */
  function ItemNumber(line: string): nat {
    if StartsWith(line, "  ") then NumberOf(line[2..]) else 0
  }

  /** An indented numbered line reads back as its number. */
  lemma ItemNumberOf(n: nat, rest: string)
    ensures ItemNumber("  " + Numbered(n, rest)) == n
  {
    var line := "  " + Numbered(n, rest);
    assert line[..2] == "  ";
    assert line[2..] == Numbered(n, rest);
    NumberedRoundTrip(n, rest);
  }

  /** Joining three pieces. */
  lemma Join3(a: string, b: string, c: string, sep: string)
    ensures Join([a, b, c], sep) == a + sep + b + sep + c
  {
    var parts := [a, b, c];
    assert parts[1..] == [b, c];
    assert [b, c][1..] == [c];
    assert Join([b, c], sep) == b + sep + c;
    assert Join(parts, sep) == a + sep + (b + sep + c);
  }

  /** Indexing into the middle part of a three-part concatenation. */
  lemma MiddleIndex<T>(a: seq<T>, b: seq<T>, c: seq<T>, i: nat)
    requires i < |b|
    ensures (a + b + c)[|a| + i] == b[i]
  {
  }
}
