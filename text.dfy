/**
 * The parts of Go's `strings` and `fmt` packages the core relies on.
 *
 * A Go string is a sequence of bytes; here every element of a Dafny `string`
 * stands for one byte, so `|s|` is Go's `len(s)` and `s[..8]` is `s[:8]`.
 * Case mapping and white-space trimming are those of ASCII.
 */
module Text {

  /** Every element is a byte value. */
  predicate IsByteString(s: string) {
    forall i :: 0 <= i < |s| ==> s[i] < 256 as char
  }

  /** Every element is an ASCII byte. */
  predicate IsAscii(s: string) {
    forall i :: 0 <= i < |s| ==> s[i] < 128 as char
  }

  function LowerByte(c: char): char {
    if 'A' <= c <= 'Z' then (c as int + 32) as char else c
  }

  /** `strings.ToLower`, restricted to ASCII letters. */
  function ToLower(s: string): (r: string)
    ensures |r| == |s|
  {
    if s == [] then [] else [LowerByte(s[0])] + ToLower(s[1..])
  }

  /** ASCII white space as `unicode.IsSpace` sees it. */
  predicate IsSpace(c: char) {
    c == ' ' || c == '\t' || c == '\n' || c == '\r' || c == '\U{0B}' || c == '\U{0C}'
  }

  function TrimLeft(s: string): (r: string)
    ensures |r| <= |s| && r == s[|s| - |r|..]
    ensures r == [] || !IsSpace(r[0])
  {
    if s != [] && IsSpace(s[0]) then TrimLeft(s[1..]) else s
  }

  function TrimRight(s: string): (r: string)
    ensures |r| <= |s| && r == s[..|r|]
    ensures r == [] || !IsSpace(r[|r| - 1])
  {
    if s != [] && IsSpace(s[|s| - 1]) then TrimRight(s[..|s| - 1]) else s
  }

  /** `strings.TrimSpace`. */
  function TrimSpace(s: string): string {
    TrimRight(TrimLeft(s))
  }

  /** Trimming leaves a string alone when neither end is white space. */
  lemma TrimSpaceNoop(s: string)
    requires s == [] || (!IsSpace(s[0]) && !IsSpace(s[|s| - 1]))
    ensures TrimSpace(s) == s
  {
  }

  /** One space on each side of an unpadded string is trimmed away. */
  lemma TrimSpacePadded(s: string)
    requires s != [] && !IsSpace(s[0]) && !IsSpace(s[|s| - 1])
    ensures TrimSpace([' '] + s + [' ']) == s
  {
    var p := [' '] + s + [' '];
    assert p[1..] == s + [' '];
    assert TrimLeft(p) == s + [' '];
    assert (s + [' '])[..|s|] == s;
    assert TrimRight(s + [' ']) == TrimRight(s) == s;
  }

  /** Lower-casing keeps white space and is idempotent on each byte. */
  lemma LowerByteFacts(c: char)
    ensures IsSpace(LowerByte(c)) <==> IsSpace(c)
    ensures LowerByte(LowerByte(c)) == LowerByte(c)
  {
  }

  /** Lower-casing a prefix is a prefix of the lower-cased string. */
  lemma {:induction false} ToLowerPrefix(s: string, n: nat)
    requires n <= |s|
    ensures ToLower(s[..n]) == ToLower(s)[..n]
  {
    if n > 0 {
      assert s[..n][1..] == s[1..][..n - 1];
      ToLowerPrefix(s[1..], n - 1);
    }
  }

  /** `strings.ToLower` is idempotent. */
  lemma {:induction false} ToLowerIdempotent(s: string)
    ensures ToLower(ToLower(s)) == ToLower(s)
  {
    if s != [] {
      LowerByteFacts(s[0]);
      assert ToLower(s)[1..] == ToLower(s[1..]);
      ToLowerIdempotent(s[1..]);
    }
  }

  lemma {:induction false} TrimLeftToLower(s: string)
    ensures TrimLeft(ToLower(s)) == ToLower(TrimLeft(s))
  {
    if s != [] {
      LowerByteFacts(s[0]);
      assert ToLower(s)[1..] == ToLower(s[1..]);
      TrimLeftToLower(s[1..]);
    }
  }

  lemma {:induction false} TrimRightToLower(s: string)
    ensures TrimRight(ToLower(s)) == ToLower(TrimRight(s))
    decreases |s|
  {
    if s != [] {
      var n := |s| - 1;
      ToLowerPrefix(s, n);
      assert ToLower(s) == ToLower(s[..n] + [s[n]]) by { assert s == s[..n] + [s[n]]; }
      assert ToLower(s)[n] == LowerByte(s[n]) by {
        ToLowerLast(s);
      }
      LowerByteFacts(s[n]);
      TrimRightToLower(s[..n]);
    }
  }

  lemma {:induction false} ToLowerLast(s: string)
    requires s != []
    ensures ToLower(s)[|s| - 1] == LowerByte(s[|s| - 1])
  {
    if |s| > 1 {
      assert s[1..][|s| - 2] == s[|s| - 1];
      ToLowerLast(s[1..]);
    }
  }

  /** Trimming and lower-casing commute. */
  lemma TrimSpaceToLower(s: string)
    ensures TrimSpace(ToLower(s)) == ToLower(TrimSpace(s))
  {
    TrimLeftToLower(s);
    TrimRightToLower(TrimLeft(s));
  }

  /** Lower-casing leaves a string without upper-case letters alone. */
  lemma {:induction false} ToLowerNoop(s: string)
    requires forall c :: c in s ==> !('A' <= c <= 'Z')
    ensures ToLower(s) == s
  {
    if s != [] {
      assert s[0] in s;
      assert forall c :: c in s[1..] ==> c in s;
      ToLowerNoop(s[1..]);
    }
  }

  /** `strings.TrimPrefix`. */
  function TrimPrefix(s: string, prefix: string): (r: string)
    ensures |r| <= |s|
    ensures prefix <= s ==> s == prefix + r
    ensures !(prefix <= s) ==> r == s
  {
    if prefix <= s then s[|prefix|..] else s
  }

  predicate HasSuffix(s: string, suffix: string) {
    |suffix| <= |s| && s[|s| - |suffix|..] == suffix
  }

  /** `strings.TrimSuffix`. */
  function TrimSuffix(s: string, suffix: string): (r: string)
    ensures |r| <= |s|
    ensures HasSuffix(s, suffix) ==> s == r + suffix
    ensures !HasSuffix(s, suffix) ==> r == s
  {
    if HasSuffix(s, suffix) then s[..|s| - |suffix|] else s
  }

  /** Index of the first `c` in `s`, or -1. */
  function IndexOf(s: string, c: char): (k: int)
    ensures -1 <= k < |s|
    ensures k == -1 <==> c !in s
    ensures k >= 0 ==> s[k] == c
  {
    if s == [] then -1
    else if s[0] == c then 0
    else var k := IndexOf(s[1..], c); if k == -1 then -1 else k + 1
  }

  /** No earlier element is `c`: the index found is the first one. */
  lemma {:induction false} IndexOfIsFirst(s: string, c: char)
    ensures c !in s[..if IndexOf(s, c) == -1 then |s| else IndexOf(s, c)]
  {
    if s != [] && s[0] != c {
      IndexOfIsFirst(s[1..], c);
      var k := IndexOf(s[1..], c);
      var n := if k == -1 then |s| - 1 else k;
      assert s[..n + 1] == [s[0]] + s[1..][..n];
    }
  }

  /** `strings.Replace(s, [c], [d], 1)` for single-byte `c` and `d`. */
  function ReplaceFirst(s: string, c: char, d: char): string {
    var k := IndexOf(s, c);
    if k == -1 then s else s[k := d]
  }

  /** Number of occurrences of `c` in `s`. */
  function Count(s: string, c: char): nat {
    if s == [] then 0 else (if s[0] == c then 1 else 0) + Count(s[1..], c)
  }

  /** `strings.Split(s, "/")`. */
  function Split(s: string, sep: char): (parts: seq<string>)
    ensures |parts| >= 1
    decreases |s|
  {
    var k := IndexOf(s, sep);
    if k == -1 then [s] else [s[..k]] + Split(s[k + 1..], sep)
  }

  /** What follows the last `sep`, or all of `s` when there is none. */
  function LastSegment(s: string, sep: char): string
    decreases |s|
  {
    var k := IndexOf(s, sep);
    if k == -1 then s else LastSegment(s[k + 1..], sep)
  }

  /** The inverse of `Split`: the parts glued back together with `sep`. */
  function Join(parts: seq<string>, sep: char): string
    requires |parts| >= 1
  {
    if |parts| == 1 then parts[0] else parts[0] + [sep] + Join(parts[1..], sep)
  }

  lemma {:induction false} CountAppend(a: string, b: string, c: char)
    ensures Count(a + b, c) == Count(a, c) + Count(b, c)
  {
    if a == [] {
      assert a + b == b;
    } else {
      assert (a + b)[0] == a[0] && (a + b)[1..] == a[1..] + b;
      CountAppend(a[1..], b, c);
    }
  }

  lemma {:induction false} CountAbsent(s: string, c: char)
    requires c !in s
    ensures Count(s, c) == 0
  {
    if s != [] {
      assert c !in s[1..];
      CountAbsent(s[1..], c);
    }
  }

  /** Splitting and joining again gives back the string, and no part holds the separator. */
  lemma {:induction false} SplitJoin(s: string, sep: char)
    ensures Join(Split(s, sep), sep) == s
    ensures forall i :: 0 <= i < |Split(s, sep)| ==> sep !in Split(s, sep)[i]
    decreases |s|
  {
    var k := IndexOf(s, sep);
    if k != -1 {
      SplitJoin(s[k + 1..], sep);
      assert s == s[..k] + [sep] + s[k + 1..];
      IndexOfIsFirst(s, sep);
    }
  }

  /** There is one more part than there are separators. */
  lemma {:induction false} SplitCount(s: string, sep: char)
    ensures |Split(s, sep)| == Count(s, sep) + 1
    decreases |s|
  {
    var k := IndexOf(s, sep);
    if k == -1 {
      CountAbsent(s, sep);
    } else {
      SplitCount(s[k + 1..], sep);
      assert s == s[..k] + ([sep] + s[k + 1..]);
      CountAppend(s[..k], [sep] + s[k + 1..], sep);
      CountAppend([sep], s[k + 1..], sep);
      IndexOfIsFirst(s, sep);
      CountAbsent(s[..k], sep);
    }
  }

  /** A string with exactly one separator splits into the text before and after it. */
  lemma TwoParts(s: string, sep: char)
    requires Count(s, sep) == 1
    ensures var k := IndexOf(s, sep);
      0 <= k && Split(s, sep) == [s[..k], s[k + 1..]] && sep !in s[k + 1..]
  {
    SplitCount(s, sep);
    var k := IndexOf(s, sep);
    SplitJoin(s, sep);
    assert k != -1;
    assert Split(s, sep) == [s[..k]] + Split(s[k + 1..], sep);
  }

  lemma SplitStep(s: string, sep: char)
    requires sep in s
    ensures Split(s, sep) == [s[..IndexOf(s, sep)]] + Split(s[IndexOf(s, sep) + 1..], sep)
  {
  }

  lemma LastOfAppend(a: seq<string>, b: seq<string>)
    requires |b| >= 1
    ensures (a + b)[|a + b| - 1] == b[|b| - 1]
  {
  }

  /** `LastSegment` is the last element of `Split`. */
  lemma {:induction false} LastSegmentIsLastPart(s: string, sep: char)
    ensures LastSegment(s, sep) == Split(s, sep)[|Split(s, sep)| - 1]
    decreases |s|
  {
    var k := IndexOf(s, sep);
    if k != -1 {
      var rest := s[k + 1..];
      assert Split(s, sep) == [s[..k]] + Split(rest, sep);
      assert LastSegment(s, sep) == LastSegment(rest, sep);
      LastOfAppend([s[..k]], Split(rest, sep));
      LastSegmentIsLastPart(rest, sep);
    }
  }

  /** The last segment is a suffix without separators, all of the string
      when it holds none. */
  lemma LastSegmentIsSuffix(s: string, sep: char)
    ensures var t := LastSegment(s, sep); |t| <= |s| && t == s[|s| - |t|..] && sep !in t
    ensures sep !in s ==> LastSegment(s, sep) == s
  {
    LastSegmentSuffix(s, sep);
    LastSegmentHasNoSeparator(s, sep);
  }

  lemma {:induction false} LastSegmentSuffix(s: string, sep: char)
    ensures var t := LastSegment(s, sep); |t| <= |s| && t == s[|s| - |t|..]
    decreases |s|
  {
    var k := IndexOf(s, sep);
    if k != -1 {
      var rest := s[k + 1..];
      LastSegmentSuffix(rest, sep);
      var t := LastSegment(rest, sep);
      assert LastSegment(s, sep) == t;
      var j := |rest| - |t|;
      assert k + 1 + j == |s| - |t|;
      assert rest[j..] == s[k + 1 + j..];
    }
  }

  lemma {:induction false} LastSegmentHasNoSeparator(s: string, sep: char)
    ensures sep !in LastSegment(s, sep)
    decreases |s|
  {
    var k := IndexOf(s, sep);
    if k != -1 {
      LastSegmentHasNoSeparator(s[k + 1..], sep);
    }
  }

  /** The last segment is all of the string when it holds no separator, and
      otherwise is preceded by one. */
  lemma {:induction false} LastSegmentIsTail(s: string, sep: char)
    ensures var t := LastSegment(s, sep); |t| == |s| <==> sep !in s
    ensures var t := LastSegment(s, sep); |t| < |s| ==> s[|s| - |t| - 1] == sep
    decreases |s|
  {
    var k := IndexOf(s, sep);
    if k != -1 {
      var rest := s[k + 1..];
      LastSegmentIsTail(rest, sep);
      LastSegmentIsSuffix(rest, sep);
      var t := LastSegment(rest, sep);
      assert LastSegment(s, sep) == t;
      assert |t| < |s|;
      if |t| < |rest| {
        assert s[|s| - |t| - 1] == rest[|rest| - |t| - 1];
      } else {
        assert |s| - |t| - 1 == k;
      }
    }
  }

  /** Concatenation of a sequence of lines or pieces. */
  function Concat(pieces: seq<string>): string {
    if pieces == [] then "" else pieces[0] + Concat(pieces[1..])
  }

  function DigitChar(d: nat): char
    requires d < 10
  {
    ('0' as int + d) as char
  }

  /** Decimal rendering of a natural number, as `%d` prints it. */
  function NatToString(n: nat): (r: string)
    ensures |r| >= 1
    decreases n
  {
    if n < 10 then [DigitChar(n)] else NatToString(n / 10) + [DigitChar(n % 10)]
  }

  /** Decimal rendering of an integer, as `%d` prints it. */
  function IntToString(i: int): (r: string)
    ensures |r| >= 1
  {
    if i < 0 then "-" + NatToString(-i) else NatToString(i)
  }
}
