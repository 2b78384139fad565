/**
 * GitHub Actions annotations (internal/github/annotations.go): the title and
 * status texts, the escaping of workflow-command messages, the hand-written
 * `replaceAll`, and what the three public writers emit.
 *
 * A writer's output is returned as a value: the `::error` line it prints and
 * the pieces of the job summary it appends to the file named by
 * GITHUB_STEP_SUMMARY. Emoji are written as the UTF-8 bytes of the literals.
 */
module Annotations {
  import opened Wrappers
  import opened Text
  import opened Json
  import Detector

  const Hourglass: string := "\U{E2}\U{8F}\U{B3}"                     // U+23F3
  const CheckMark: string := "\U{E2}\U{9C}\U{85}"                     // U+2705
  const CrossMark: string := "\U{E2}\U{9D}\U{8C}"                     // U+274C
  const NoEntry: string := "\U{F0}\U{9F}\U{9A}\U{AB}"                 // U+1F6AB
  const PauseSign: string := "\U{E2}\U{8F}\U{B8}\U{EF}\U{B8}\U{8F}"   // U+23F8 U+FE0F
  const WarningSign: string := "\U{E2}\U{9A}\U{A0}\U{EF}\U{B8}\U{8F}" // U+26A0 U+FE0F
  const Lock: string := "\U{F0}\U{9F}\U{94}\U{92}"                    // U+1F512
  const Rocket: string := "\U{F0}\U{9F}\U{9A}\U{80}"                  // U+1F680
  const RightArrow: string := "\U{E2}\U{86}\U{92}"                    // U+2192

  // ---------------------------------------------------------------------------
  // Titles and statuses.

  /** `formatTitle`: the title of the `::error` annotation for a rejection. */
  function FormatTitle(statusCode: int, errorCode: string, ruleName: string): (t: string)
    ensures (statusCode == 423 || statusCode == 428) && ruleName != "" ==> HasSuffix(t, ruleName)
    ensures statusCode == 428 ==> errorCode <= t
    ensures statusCode != 428 ==> t != "" && t[0] == 'D'
  {
    if statusCode == 409 then "Deployment Conflict"
    else if statusCode == 423 then
      (if ruleName != "" then "Deployment Blocked: " + ruleName else "Deployment Blocked by Schedule")
    else if statusCode == 428 then
      (if ruleName != "" then errorCode + ": " + ruleName else errorCode)
    else "Deployment Rejected"
  }

  /** The title vectors of the package's tests for 409 and 423. */
  lemma ConflictAndScheduleTitles()
    ensures FormatTitle(409, "DEPLOYMENT_IN_PROGRESS", "") == "Deployment Conflict"
    ensures FormatTitle(423, "NO_DEPLOY_WINDOW", "No Deploy Fridays") == "Deployment Blocked: No Deploy Fridays"
    ensures FormatTitle(423, "NO_DEPLOY_WINDOW", "") == "Deployment Blocked by Schedule"
  {
  }

  /** The title vectors of the package's tests for 428. */
  lemma PreconditionTitles()
    ensures FormatTitle(428, "FLOW_VIOLATION", "Staging First") == "FLOW_VIOLATION: Staging First"
    ensures FormatTitle(428, "INSUFFICIENT_SOAK_TIME", "") == "INSUFFICIENT_SOAK_TIME"
  {
  }

  /** Only 409, 423 and 428 have titles of their own; the error code and the
      rule name matter to 428 and 423 only. */
  lemma TitleDependsOnStatus(statusCode: int, c1: string, r1: string, c2: string, r2: string)
    ensures statusCode != 423 && statusCode != 428 ==> FormatTitle(statusCode, c1, r1) == FormatTitle(statusCode, c2, r2)
    ensures statusCode == 423 ==> FormatTitle(statusCode, c1, r1) == FormatTitle(statusCode, c2, r1)
    ensures statusCode != 409 && statusCode != 423 && statusCode != 428 ==> FormatTitle(statusCode, c1, r1) == "Deployment Rejected"
  {
  }

  /** The statuses `formatStatus` decorates. */
  predicate IsKnownStatus(status: string) {
    status in {"started", "in_progress", "completed", "success", "failed", "aborted", "cancelled", "pending"}
  }

  /** `formatStatus`: an emoji and a space in front of a known status. */
  function FormatStatus(status: string): (r: string)
    ensures HasSuffix(r, status)
    ensures IsKnownStatus(status) <==> |r| > |status|
    ensures IsKnownStatus(status) ==> r[|r| - |status| - 1] == ' ' && r[0] > 127 as char
    ensures !IsKnownStatus(status) ==> r == status
  {
    if status == "started" || status == "in_progress" then Hourglass + " " + status
    else if status == "completed" || status == "success" then CheckMark + " " + status
    else if status == "failed" then CrossMark + " " + status
    else if status == "aborted" || status == "cancelled" then NoEntry + " " + status
    else if status == "pending" then PauseSign + " " + status
    else status
  }

  // ---------------------------------------------------------------------------
  // `replaceAll`.

  /** Left-to-right, non-overlapping replacement of `old` by `new`, each other
      byte copied as it is. */
  function Replaced(s: string, oldText: string, newText: string): string
    requires |oldText| > 0
    decreases |s|
  {
    if s == [] then []
    else if |oldText| <= |s| && s[..|oldText|] == oldText then newText + Replaced(s[|oldText|..], oldText, newText)
    else [s[0]] + Replaced(s[1..], oldText, newText)
  }

  /** Go's `string(b)` for a byte `b`: the UTF-8 encoding of the code point with
      that value, so bytes from 0x80 on become two bytes. */
  function RuneBytes(c: char): (r: string)
    ensures c < 128 as char ==> r == [c]
    ensures c >= 128 as char ==>
      |r| == 2 && r != [c] && 0x80 <= r[1] as int < 0xC0 &&
      (r[0] as int - 0xC0) * 64 + (r[1] as int - 0x80) == c as int
  {
    if c < 128 as char then [c]
    else [(0xC0 + (c as int) / 64) as char, (0x80 + (c as int) % 64) as char]
  }

  /** The replacement `replaceAll` performs as written: a byte that does not
      start a match goes through `string(s[i])`. */
  function ReplacedAsWritten(s: string, oldText: string, newText: string): string
    requires |oldText| > 0
    decreases |s|
  {
    if s == [] then []
    else if |oldText| <= |s| && s[..|oldText|] == oldText then newText + ReplacedAsWritten(s[|oldText|..], oldText, newText)
    else RuneBytes(s[0]) + ReplacedAsWritten(s[1..], oldText, newText)
  }

  /** One step of the loop: the rest of the text from `i` is a match followed by
      what comes after it, or one byte followed by the text after that byte. */
  lemma ReplacedAsWrittenStep(s: string, i: nat, done: string, oldText: string, newText: string)
    requires |oldText| > 0 && i < |s|
    requires ReplacedAsWritten(s, oldText, newText) == done + ReplacedAsWritten(s[i..], oldText, newText)
    ensures i + |oldText| <= |s| && s[i..i + |oldText|] == oldText ==>
      ReplacedAsWritten(s, oldText, newText) == (done + newText) + ReplacedAsWritten(s[i + |oldText|..], oldText, newText)
    ensures !(i + |oldText| <= |s| && s[i..i + |oldText|] == oldText) ==>
      ReplacedAsWritten(s, oldText, newText) == (done + RuneBytes(s[i])) + ReplacedAsWritten(s[i + 1..], oldText, newText)
  {
    assert s[i..][1..] == s[i + 1..];
    if i + |oldText| <= |s| && s[i..i + |oldText|] == oldText {
      assert s[i..][..|oldText|] == s[i..i + |oldText|];
      assert s[i..][|oldText|..] == s[i + |oldText|..];
      var rest := ReplacedAsWritten(s[i + |oldText|..], oldText, newText);
      assert done + (newText + rest) == (done + newText) + rest;
    } else {
      assert |oldText| <= |s[i..]| ==> s[i..][..|oldText|] == s[i..i + |oldText|];
      var rest := ReplacedAsWritten(s[i + 1..], oldText, newText);
      assert done + (RuneBytes(s[i]) + rest) == (done + RuneBytes(s[i])) + rest;
    }
  }

  /** `replaceAll` as written. `old` must be non-empty: with "" the index never
      moves past 0. */
  method ReplaceAllAsWritten(s: string, oldText: string, newText: string) returns (result: string)
    requires |oldText| > 0
    ensures result == ReplacedAsWritten(s, oldText, newText)
  {
    result := "";
    var i := 0;
    while i < |s|
      invariant 0 <= i <= |s|
      invariant ReplacedAsWritten(s, oldText, newText) == result + ReplacedAsWritten(s[i..], oldText, newText)
    {
      ReplacedAsWrittenStep(s, i, result, oldText, newText);
      if i + |oldText| <= |s| && s[i..i + |oldText|] == oldText {
        result := result + newText;
        i := i + |oldText| - 1;
      } else {
        result := result + RuneBytes(s[i]);
      }
      i := i + 1;
    }
  }

  /** One step of the loop: the rest of the text from `i` is a match followed by
      what comes after it, or one byte followed by the text after that byte. */
  lemma ReplacedStep(s: string, i: nat, done: string, oldText: string, newText: string)
    requires |oldText| > 0 && i < |s|
    requires Replaced(s, oldText, newText) == done + Replaced(s[i..], oldText, newText)
    ensures i + |oldText| <= |s| && s[i..i + |oldText|] == oldText ==>
      Replaced(s, oldText, newText) == (done + newText) + Replaced(s[i + |oldText|..], oldText, newText)
    ensures !(i + |oldText| <= |s| && s[i..i + |oldText|] == oldText) ==>
      Replaced(s, oldText, newText) == (done + [s[i]]) + Replaced(s[i + 1..], oldText, newText)
  {
    assert s[i..][1..] == s[i + 1..];
    if i + |oldText| <= |s| && s[i..i + |oldText|] == oldText {
      assert s[i..][..|oldText|] == s[i..i + |oldText|];
      assert s[i..][|oldText|..] == s[i + |oldText|..];
      var rest := Replaced(s[i + |oldText|..], oldText, newText);
      assert done + (newText + rest) == (done + newText) + rest;
    } else {
      assert |oldText| <= |s[i..]| ==> s[i..][..|oldText|] == s[i..i + |oldText|];
      var rest := Replaced(s[i + 1..], oldText, newText);
      assert done + ([s[i]] + rest) == (done + [s[i]]) + rest;
    }
  }

  /** `replaceAll` with each unmatched byte appended as a byte. */
  method ReplaceAll(s: string, oldText: string, newText: string) returns (result: string)
    requires |oldText| > 0
    ensures result == Replaced(s, oldText, newText)
  {
    result := "";
    var i := 0;
    while i < |s|
      invariant 0 <= i <= |s|
      invariant Replaced(s, oldText, newText) == result + Replaced(s[i..], oldText, newText)
    {
      ReplacedStep(s, i, result, oldText, newText);
      if i + |oldText| <= |s| && s[i..i + |oldText|] == oldText {
        result := result + newText;
        i := i + |oldText| - 1;
      } else {
        result := result + [s[i]];
      }
      i := i + 1;
    }
  }

  /** The two agree on ASCII text. */
  lemma {:induction false} AsWrittenAgreesOnAscii(s: string, oldText: string, newText: string)
    requires |oldText| > 0 && IsAscii(s)
    ensures ReplacedAsWritten(s, oldText, newText) == Replaced(s, oldText, newText)
    decreases |s|
  {
    if s != [] {
      if |oldText| <= |s| && s[..|oldText|] == oldText {
        AsWrittenAgreesOnAscii(s[|oldText|..], oldText, newText);
      } else {
        AsWrittenAgreesOnAscii(s[1..], oldText, newText);
      }
    }
  }

  /** "é" (the bytes C3 A9) comes out of `replaceAll(s, "%", "%25")` as written
      as the four bytes C3 83 C2 A9, which read as "Ã©"; the corrected loop
      leaves it untouched. */
  lemma AsWrittenMangles()
    ensures ReplacedAsWritten("\U{C3}\U{A9}", "%", "%25") == "\U{C3}\U{83}\U{C2}\U{A9}"
    ensures Replaced("\U{C3}\U{A9}", "%", "%25") == "\U{C3}\U{A9}"
  {
    var s := "\U{C3}\U{A9}";
    assert s[..1] != "%" && s[1..][..1] != "%";
    assert s[1..][1..] == [];
    assert RuneBytes(s[0]) == "\U{C3}\U{83}";
    assert RuneBytes(s[1]) == "\U{C2}\U{A9}";
  }

  /** `t` occurs in `s` at index `k`. */
  predicate OccursAt(s: string, t: string, k: nat) {
    k + |t| <= |s| && s[k..k + |t|] == t
  }

  /** An occurrence in the tail is an occurrence one position further on. */
  lemma NoMatchInTail(s: string, t: string)
    requires s != []
    requires forall k: nat :: !OccursAt(s, t, k)
    ensures forall k: nat :: !OccursAt(s[1..], t, k)
  {
    forall k: nat
      ensures !OccursAt(s[1..], t, k)
    {
      assert !OccursAt(s, t, k + 1);
      if k + |t| <= |s[1..]| {
        assert s[1..][k..k + |t|] == s[k + 1..k + 1 + |t|];
      }
    }
  }

  /** Without an occurrence of `old` the text is returned unchanged. */
  lemma {:induction false} ReplacedWithoutMatch(s: string, oldText: string, newText: string)
    requires |oldText| > 0
    requires forall k: nat :: !OccursAt(s, oldText, k)
    ensures Replaced(s, oldText, newText) == s
    decreases |s|
  {
    if s != [] {
      assert !(|oldText| <= |s| && s[..|oldText|] == oldText) by {
        assert !OccursAt(s, oldText, 0);
        if |oldText| <= |s| {
          assert s[..|oldText|] == s[0..0 + |oldText|];
        }
      }
      NoMatchInTail(s, oldText);
      ReplacedWithoutMatch(s[1..], oldText, newText);
      assert Replaced(s, oldText, newText) == [s[0]] + Replaced(s[1..], oldText, newText);
      assert [s[0]] + s[1..] == s;
    }
  }

  // ---------------------------------------------------------------------------
  // Escaping of workflow-command messages.

  /** Replacement of one byte, byte by byte. */
  function ReplaceChar(s: string, c: char, newText: string): string {
    if s == [] then [] else (if s[0] == c then newText else [s[0]]) + ReplaceChar(s[1..], c, newText)
  }

  lemma {:induction false} ReplacedOneChar(s: string, c: char, newText: string)
    ensures Replaced(s, [c], newText) == ReplaceChar(s, c, newText)
  {
    if s != [] {
      assert s[..1] == [c] <==> s[0] == c;
      ReplacedOneChar(s[1..], c, newText);
    }
  }

  lemma {:induction false} ReplaceCharAppend(a: string, b: string, c: char, newText: string)
    ensures ReplaceChar(a + b, c, newText) == ReplaceChar(a, c, newText) + ReplaceChar(b, c, newText)
  {
    if a == [] {
      assert a + b == b;
    } else {
      assert (a + b)[0] == a[0] && (a + b)[1..] == a[1..] + b;
      ReplaceCharAppend(a[1..], b, c, newText);
    }
  }

  lemma {:induction false} ReplaceCharAbsent(s: string, c: char, newText: string)
    requires c !in s
    ensures ReplaceChar(s, c, newText) == s
  {
    if s != [] {
      ReplaceCharAbsent(s[1..], c, newText);
    }
  }

  /** The escape of a single byte. */
  function EscapeChar(c: char): string {
    if c == '%' then "%25" else if c == '\r' then "%0D" else if c == '\n' then "%0A" else [c]
  }

  /** Escaping, byte by byte: no CR or LF is left, and text without `%`, CR or
      LF is its own escape. */
  function Escaped(s: string): (r: string)
    ensures '\r' !in r && '\n' !in r
    ensures '%' !in s && '\r' !in s && '\n' !in s ==> r == s
    ensures |r| >= |s|
  {
    if s == [] then [] else EscapeChar(s[0]) + Escaped(s[1..])
  }

  /** The three passes of `escapeWorkflowCommand`: `%` first, then CR, then LF. */
  function ThreePasses(s: string): string {
    ReplaceChar(ReplaceChar(ReplaceChar(s, '%', "%25"), '\r', "%0D"), '\n', "%0A")
  }

  lemma ThreePassesAppend(a: string, b: string)
    ensures ThreePasses(a + b) == ThreePasses(a) + ThreePasses(b)
  {
    ReplaceCharAppend(a, b, '%', "%25");
    var a1, b1 := ReplaceChar(a, '%', "%25"), ReplaceChar(b, '%', "%25");
    ReplaceCharAppend(a1, b1, '\r', "%0D");
    var a2, b2 := ReplaceChar(a1, '\r', "%0D"), ReplaceChar(b1, '\r', "%0D");
    ReplaceCharAppend(a2, b2, '\n', "%0A");
  }

  lemma ReplaceCharOne(c: char, d: char, newText: string)
    ensures ReplaceChar([c], d, newText) == if c == d then newText else [c]
  {
    assert [c][1..] == [];
    var h := if c == d then newText else [c];
    assert h + [] == h;
  }

  lemma ThreePassesOneByte(c: char)
    ensures ThreePasses([c]) == EscapeChar(c)
  {
    ReplaceCharOne(c, '%', "%25");
    if c == '%' {
      ReplaceCharAbsent("%25", '\r', "%0D");
      ReplaceCharAbsent("%25", '\n', "%0A");
    } else {
      ReplaceCharOne(c, '\r', "%0D");
      if c == '\r' {
        ReplaceCharAbsent("%0D", '\n', "%0A");
      } else {
        ReplaceCharOne(c, '\n', "%0A");
      }
    }
  }

  /** The three passes amount to escaping each byte once. */
  lemma {:induction false} ThreePassesEscapeEachByte(s: string)
    ensures ThreePasses(s) == Escaped(s)
  {
    if s != [] {
      assert s == [s[0]] + s[1..];
      ThreePassesAppend([s[0]], s[1..]);
      ThreePassesOneByte(s[0]);
      ThreePassesEscapeEachByte(s[1..]);
    }
  }

  /** `escapeWorkflowCommand` over the corrected loop; on ASCII text it is the
      escape as written. */
  method EscapeWorkflowCommand(s: string) returns (r: string)
    ensures r == Escaped(s)
    ensures IsAscii(s) ==> r == EscapedAsWritten(s)
  {
    r := ReplaceAll(s, "%", "%25");
    ReplacedOneChar(s, '%', "%25");
    var r1 := r;
    r := ReplaceAll(r, "\r", "%0D");
    ReplacedOneChar(r1, '\r', "%0D");
    var r2 := r;
    r := ReplaceAll(r, "\n", "%0A");
    ReplacedOneChar(r2, '\n', "%0A");
    ThreePassesEscapeEachByte(s);
    if IsAscii(s) {
      EscapedAsWrittenOnAscii(s);
    }
  }

  /** The three passes of `escapeWorkflowCommand` over the loop as written. */
  function EscapedAsWritten(s: string): string {
    ReplacedAsWritten(ReplacedAsWritten(ReplacedAsWritten(s, "%", "%25"), "\r", "%0D"), "\n", "%0A")
  }

  /** Replacing in ASCII text by ASCII text gives ASCII text. */
  lemma {:induction false} ReplacedKeepsAscii(s: string, oldText: string, newText: string)
    requires |oldText| > 0 && IsAscii(s) && IsAscii(newText)
    ensures IsAscii(Replaced(s, oldText, newText))
    decreases |s|
  {
    if s != [] {
      if |oldText| <= |s| && s[..|oldText|] == oldText {
        ReplacedKeepsAscii(s[|oldText|..], oldText, newText);
        var rest := Replaced(s[|oldText|..], oldText, newText);
        assert forall i :: 0 <= i < |newText + rest| ==>
          (newText + rest)[i] == if i < |newText| then newText[i] else rest[i - |newText|];
      } else {
        ReplacedKeepsAscii(s[1..], oldText, newText);
      }
    }
  }

  /** On ASCII text the escape as written is the byte-wise escape. */
  lemma EscapedAsWrittenOnAscii(s: string)
    requires IsAscii(s)
    ensures EscapedAsWritten(s) == Escaped(s)
  {
    AsWrittenAgreesOnAscii(s, "%", "%25");
    var r1 := Replaced(s, "%", "%25");
    ReplacedKeepsAscii(s, "%", "%25");
    AsWrittenAgreesOnAscii(r1, "\r", "%0D");
    var r2 := Replaced(r1, "\r", "%0D");
    ReplacedKeepsAscii(r1, "\r", "%0D");
    AsWrittenAgreesOnAscii(r2, "\n", "%0A");
    ReplacedOneChar(s, '%', "%25");
    ReplacedOneChar(r1, '\r', "%0D");
    ReplacedOneChar(r2, '\n', "%0A");
    ThreePassesEscapeEachByte(s);
  }

  /** Each byte through `string(b)`, as the loop as written copies text that
      holds no match. */
  function Reencoded(s: string): string {
    if s == [] then [] else RuneBytes(s[0]) + Reencoded(s[1..])
  }

  /** Without the byte being replaced, the loop as written re-encodes every byte. */
  lemma {:induction false} AsWrittenReencodes(s: string, c: char, newText: string)
    requires c !in s
    ensures ReplacedAsWritten(s, [c], newText) == Reencoded(s)
  {
    if s != [] {
      assert s[..1] == [s[0]] != [c];
      AsWrittenReencodes(s[1..], c, newText);
    }
  }

  lemma {:induction false} ReencodedAppend(a: string, b: string)
    ensures Reencoded(a + b) == Reencoded(a) + Reencoded(b)
  {
    if a == [] {
      assert a + b == b;
    } else {
      assert (a + b)[0] == a[0] && (a + b)[1..] == a[1..] + b;
      ReencodedAppend(a[1..], b);
      var x, y, z := RuneBytes(a[0]), Reencoded(a[1..]), Reencoded(b);
      assert x + (y + z) == (x + y) + z;
    }
  }

  lemma ReencodedPair(x: char, y: char)
    ensures Reencoded([x, y]) == RuneBytes(x) + RuneBytes(y)
  {
    assert [x, y][1..] == [y];
    assert [y][1..] == [];
    assert Reencoded([y]) == RuneBytes(y) + [];
    assert RuneBytes(y) + [] == RuneBytes(y);
  }

  lemma ReencodedQuad(w: char, x: char, y: char, z: char)
    ensures Reencoded([w, x, y, z]) == RuneBytes(w) + RuneBytes(x) + RuneBytes(y) + RuneBytes(z)
  {
    assert [w, x, y, z] == [w, x] + [y, z];
    ReencodedAppend([w, x], [y, z]);
    ReencodedPair(w, x);
    ReencodedPair(y, z);
  }

  /** `string(b)` of the bytes the passes below meet. */
  lemma HighRuneBytes()
    ensures RuneBytes('\U{C3}') == "\U{C3}\U{83}" && RuneBytes('\U{C2}') == "\U{C3}\U{82}"
    ensures RuneBytes('\U{83}') == "\U{C2}\U{83}" && RuneBytes('\U{82}') == "\U{C2}\U{82}"
    ensures RuneBytes('\U{A9}') == "\U{C2}\U{A9}"
  {
  }

  /** The second pass turns the four bytes of the first into eight. */
  lemma SecondPassMangles()
    ensures ReplacedAsWritten("\U{C3}\U{83}\U{C2}\U{A9}", "\r", "%0D") ==
      "\U{C3}\U{83}\U{C2}\U{83}" + "\U{C3}\U{82}\U{C2}\U{A9}"
  {
    AsWrittenReencodes("\U{C3}\U{83}\U{C2}\U{A9}", '\r', "%0D");
    ReencodedQuad('\U{C3}', '\U{83}', '\U{C2}', '\U{A9}');
    HighRuneBytes();
  }

  /** The third pass turns each half of those eight bytes into eight. */
  lemma ThirdPassMangles()
    ensures ReplacedAsWritten("\U{C3}\U{83}\U{C2}\U{83}" + "\U{C3}\U{82}\U{C2}\U{A9}", "\n", "%0A") ==
      "\U{C3}\U{83}\U{C2}\U{83}\U{C3}\U{82}\U{C2}\U{83}" + "\U{C3}\U{83}\U{C2}\U{82}\U{C3}\U{82}\U{C2}\U{A9}"
  {
    var a := "\U{C3}\U{83}\U{C2}\U{83}";
    var b := "\U{C3}\U{82}\U{C2}\U{A9}";
    AsWrittenReencodes(a + b, '\n', "%0A");
    ReencodedAppend(a, b);
    ReencodedQuad('\U{C3}', '\U{83}', '\U{C2}', '\U{83}');
    ReencodedQuad('\U{C3}', '\U{82}', '\U{C2}', '\U{A9}');
    HighRuneBytes();
  }

  /** Every pass of the escape as written re-encodes "é" (C3 A9) once more, so
      the two bytes come out as sixteen; the byte-wise escape keeps them. */
  lemma EscapeAsWrittenMangles()
    ensures EscapedAsWritten("\U{C3}\U{A9}") ==
      "\U{C3}\U{83}\U{C2}\U{83}\U{C3}\U{82}\U{C2}\U{83}\U{C3}\U{83}\U{C2}\U{82}\U{C3}\U{82}\U{C2}\U{A9}"
    ensures |EscapedAsWritten("\U{C3}\U{A9}")| == 16
    ensures Escaped("\U{C3}\U{A9}") == "\U{C3}\U{A9}"
  {
    AsWrittenMangles();
    SecondPassMangles();
    ThirdPassMangles();
    assert "\U{C3}\U{83}\U{C2}\U{83}\U{C3}\U{82}\U{C2}\U{83}" + "\U{C3}\U{83}\U{C2}\U{82}\U{C3}\U{82}\U{C2}\U{A9}"
      == "\U{C3}\U{83}\U{C2}\U{83}\U{C3}\U{82}\U{C2}\U{83}\U{C3}\U{83}\U{C2}\U{82}\U{C3}\U{82}\U{C2}\U{A9}";
  }

  /** `escapeWorkflowCommand` as written: three passes of the loop as written. */
  method EscapeWorkflowCommandAsWritten(s: string) returns (r: string)
    ensures r == EscapedAsWritten(s)
    ensures IsAscii(s) ==> r == Escaped(s)
  {
    r := ReplaceAllAsWritten(s, "%", "%25");
    r := ReplaceAllAsWritten(r, "\r", "%0D");
    r := ReplaceAllAsWritten(r, "\n", "%0A");
    if IsAscii(s) {
      EscapedAsWrittenOnAscii(s);
    }
  }

  /** How a runner reads an escaped message back. */
  function Unescaped(t: string): string
    decreases |t|
  {
    if t == [] then []
    else if |t| >= 3 && t[..3] == "%25" then "%" + Unescaped(t[3..])
    else if |t| >= 3 && t[..3] == "%0D" then "\r" + Unescaped(t[3..])
    else if |t| >= 3 && t[..3] == "%0A" then "\n" + Unescaped(t[3..])
    else [t[0]] + Unescaped(t[1..])
  }

  /** Reading back one escaped special byte. */
  lemma UnescapeSpecial(c: char, rest: string)
    requires c == '%' || c == '\r' || c == '\n'
    ensures Unescaped(EscapeChar(c) + rest) == [c] + Unescaped(rest)
  {
    var t := EscapeChar(c) + rest;
    assert t[..3] == EscapeChar(c) && t[3..] == rest;
  }

  /** Reading back one plain byte. */
  lemma UnescapePlain(c: char, rest: string)
    requires c != '%' && c != '\r' && c != '\n'
    ensures Unescaped(EscapeChar(c) + rest) == [c] + Unescaped(rest)
  {
    var t := [c] + rest;
    assert t[0] == c && t[1..] == rest;
    assert |t| >= 3 ==> t[..3][0] == c;
  }

  /** Escaping loses nothing: reading the escape back gives the message. */
  lemma {:induction false} EscapeRoundTrip(s: string)
    ensures Unescaped(Escaped(s)) == s
  {
    if s != [] {
      var rest := Escaped(s[1..]);
      assert Escaped(s) == EscapeChar(s[0]) + rest;
      if s[0] == '%' || s[0] == '\r' || s[0] == '\n' {
        UnescapeSpecial(s[0], rest);
      } else {
        UnescapePlain(s[0], rest);
      }
      EscapeRoundTrip(s[1..]);
      assert [s[0]] + s[1..] == s;
    }
  }

  lemma {:induction false} EscapedAppend(a: string, b: string)
    ensures Escaped(a + b) == Escaped(a) + Escaped(b)
  {
    if a == [] {
      assert a + b == b;
    } else {
      assert (a + b)[0] == a[0] && (a + b)[1..] == a[1..] + b;
      EscapedAppend(a[1..], b);
      var x, y, z := EscapeChar(a[0]), Escaped(a[1..]), Escaped(b);
      assert x + (y + z) == (x + y) + z;
    }
  }

  /** One special byte between plain text is the only thing that changes; this
      covers the single-character vectors of the package's tests
      ("100% complete", "line1\nline2", "line1\rline2"). */
  lemma EscapeAroundSpecial(a: string, c: char, b: string)
    requires '%' !in a && '\r' !in a && '\n' !in a
    requires '%' !in b && '\r' !in b && '\n' !in b
    requires c == '%' || c == '\r' || c == '\n'
    ensures Escaped(a + [c] + b) == a + EscapeChar(c) + b
  {
    EscapedAppend(a + [c], b);
    EscapedAppend(a, [c]);
    assert Escaped([c]) == EscapeChar(c) by {
      assert [c][1..] == [];
    }
  }

  // ---------------------------------------------------------------------------
  // The writers.

  /** The summary lines whose text depends on no input. */
  datatype Boilerplate =
    | RejectedHeading | ConflictHeading | ScheduleHeading | PreconditionHeading
    | SuccessHeading | Blank | ActionRequired
    | WaitForCurrent | RetryThis | RetryAfterWindow | SkipChecksHint
    | DeployRequiredFirst | ThenRetry | WaitForSoak | ObtainApproval | ResolveIssue
    | PossibleCauses
    | InvalidKeyCause | ValidationCause | UnavailableCause | RateLimitCause
    | ConnectivityCause | DnsCause | UnreachableCause | TimeoutCause | SeeMessageCause
    | GenericActionRequired | VerifyKey | CheckNetwork | ReviewMessage | ContactSupport

  function BoilerplateText(b: Boilerplate): string {
    match b
    case RejectedHeading => "## " + CrossMark + " Versioner Deployment Rejected\n\n"
    case ConflictHeading => "### " + WarningSign + " Deployment Conflict\n\n"
    case ScheduleHeading => "### " + Lock + " Deployment Blocked by Schedule\n\n"
    case PreconditionHeading => "### " + CrossMark + " Deployment Precondition Failed\n\n"
    case SuccessHeading => "## " + Rocket + " Versioner Summary\n\n"
    case Blank => "\n"
    case ActionRequired => "**Action Required:**\n"
    case WaitForCurrent => "- Wait for the current deployment to complete\n"
    case RetryThis => "- Retry this deployment\n"
    case RetryAfterWindow => "- Retry automatically after the no-deploy window\n"
    case SkipChecksHint => "- Or use `--skip-preflight-checks` for emergencies\n"
    case DeployRequiredFirst => "- Deploy to required environments first\n"
    case ThenRetry => "- Then retry this deployment\n"
    case WaitForSoak => "- Wait for the soak time requirement to be met\n"
    case ObtainApproval => "- Obtain required approval via Versioner UI\n"
    case ResolveIssue => "- Resolve the issue described above\n"
    case PossibleCauses => "**Possible Causes:**\n"
    case InvalidKeyCause => "- Invalid API key or authentication failure\n"
    case ValidationCause => "- Validation error (check required fields)\n"
    case UnavailableCause => "- API service unavailable\n"
    case RateLimitCause => "- Rate limiting or quota exceeded\n"
    case ConnectivityCause => "- Network connectivity issues\n"
    case DnsCause => "- DNS resolution failure\n"
    case UnreachableCause => "- API endpoint unreachable\n"
    case TimeoutCause => "- Timeout or connection refused\n"
    case SeeMessageCause => "- Check error message above for details\n"
    case GenericActionRequired => "\n**Action Required:**\n"
    case VerifyKey => "- Verify your `VERSIONER_API_KEY` is set correctly\n"
    case CheckNetwork => "- Check network connectivity to Versioner API\n"
    case ReviewMessage => "- Review error message for specific guidance\n"
    case ContactSupport => "- Contact support if issue persists\n"
  }

  /** The labels of the "- **<label>:** <value>" lines. */
  datatype Label = ActionLabel | EnvironmentLabel | StatusLabel | VersionLabel | ShaLabel
                 | ErrorCodeLabel | RuleLabel | MessageLabel | RetryAfterLabel

  function LabelText(l: Label): string {
    match l
    case ActionLabel => "Action"
    case EnvironmentLabel => "Environment"
    case StatusLabel => "Status"
    case VersionLabel => "Version"
    case ShaLabel => "Git SHA"
    case ErrorCodeLabel => "Error Code"
    case RuleLabel => "Rule"
    case MessageLabel => "Message"
    case RetryAfterLabel => "Retry After"
  }

  /** One `+=` of a job summary; `Render` gives its text. */
  datatype Piece =
    | Text(line: Boilerplate)
    | Field(name: Label, value: string)      // "- **<label>:** <value>"
    | CodeField(name: Label, value: string)  // "- **<label>:** `<value>`"
    | WaitUntil(when: string)                 // "- Wait until `<when>`"
    | CanDeployAt(when: string)               // "- Can deploy at: `<when>`"
    | FailedHeading(action: string)           // "## <cross mark> Versioner <action> Failed"
    | ErrorTypeHeading(errorType: string)     // "### <errorType>"
    | ErrorLine(message: string)              // "**Error:** <message>"
    | ViewLink(url: string)                   // the "View in Versioner" link
    | DetailsBlock(json: string)              // the fenced JSON of the details

  function Render(p: Piece): string {
    match p
    case Text(line) => BoilerplateText(line)
    case Field(name, value) => "- **" + LabelText(name) + ":** " + value + "\n"
    case CodeField(name, value) => "- **" + LabelText(name) + ":** `" + value + "`\n"
    case WaitUntil(when) => "- Wait until `" + when + "`\n"
    case CanDeployAt(when) => "- Can deploy at: `" + when + "`\n"
    case FailedHeading(action) => "## " + CrossMark + " Versioner " + action + " Failed\n\n"
    case ErrorTypeHeading(errorType) => "### " + errorType + "\n\n"
    case ErrorLine(message) => "**Error:** " + message + "\n\n"
    case ViewLink(url) => "\n[View in Versioner " + RightArrow + "](" + url + ")\n"
    case DetailsBlock(json) => "\n**Details:**\n" + "```json\n" + json + "\n```\n"
  }

  /** The text appended to the summary file. */
  function SummaryText(pieces: seq<Piece>): string {
    if pieces == [] then "" else Render(pieces[0]) + SummaryText(pieces[1..])
  }

  predicate HasLabel(pieces: seq<Piece>, l: Label) {
    exists p :: p in pieces && (p.Field? || p.CodeField?) && p.name == l
  }

  predicate HasLink(pieces: seq<Piece>) {
    exists p :: p in pieces && p.ViewLink?
  }

  predicate HasDetails(pieces: seq<Piece>) {
    exists p :: p in pieces && p.DetailsBlock?
  }

  /** Pieces with no label, no link and no details: headings and fixed lines. */
  predicate Plain(pieces: seq<Piece>) {
    forall p :: p in pieces ==> !(p.Field? || p.CodeField? || p.ViewLink? || p.DetailsBlock?)
  }

  lemma PlainHasNothing(ps: seq<Piece>)
    requires Plain(ps)
    ensures forall l :: !HasLabel(ps, l)
    ensures !HasLink(ps) && !HasDetails(ps)
  {
  }

  lemma PiecesAppend(a: seq<Piece>, b: seq<Piece>)
    ensures forall l :: HasLabel(a + b, l) <==> HasLabel(a, l) || HasLabel(b, l)
    ensures HasLink(a + b) <==> HasLink(a) || HasLink(b)
    ensures HasDetails(a + b) <==> HasDetails(a) || HasDetails(b)
    ensures Plain(a + b) <==> Plain(a) && Plain(b)
  {
  }

  /** What a writer emits: the line printed to standard output and the pieces
      appended to the summary file. */
  datatype Emission = Emission(command: Option<string>, summary: Option<seq<Piece>>)

  predicate InActions(env: Detector.Env) {
    Detector.Getenv(env, "GITHUB_ACTIONS") == "true"
  }

  predicate HasSummaryFile(env: Detector.Env) {
    Detector.Getenv(env, "GITHUB_STEP_SUMMARY") != ""
  }

  /** The subheadings naming the kind of rejection. */
  predicate IsStatusHeading(p: Piece) {
    p == Text(ConflictHeading) || p == Text(ScheduleHeading) || p == Text(PreconditionHeading)
  }

  /** The lines of the "Action Required" guidance. */
  predicate IsGuidance(p: Piece) {
    p.WaitUntil? || p.CanDeployAt? ||
    (p.Text? &&
     (p.line == WaitForCurrent || p.line == RetryThis || p.line == RetryAfterWindow ||
      p.line == SkipChecksHint || p.line == DeployRequiredFirst || p.line == ThenRetry ||
      p.line == WaitForSoak || p.line == ObtainApproval || p.line == ResolveIssue))
  }

  /** No piece is a line of guidance. */
  predicate NoGuidance(ps: seq<Piece>) {
    forall p :: p in ps ==> !IsGuidance(p)
  }

  /** Every piece is a line of guidance. */
  predicate OnlyGuidance(ps: seq<Piece>) {
    forall p :: p in ps ==> IsGuidance(p)
  }

  /** No piece is a status subheading. */
  predicate NoStatusHeading(ps: seq<Piece>) {
    forall p :: p in ps ==> !IsStatusHeading(p)
  }

  /** The guidance `writeJobSummary` gives: a wait-until line exactly for a 423
      with a retry time, a can-deploy-at line exactly for an insufficient soak
      time with one, the emergency hint for a 423 and for the 428 codes other
      than a flow violation or a missing approval, and no guidance at all for
      other statuses. */
  predicate GuidesFor(ps: seq<Piece>, statusCode: int, errorCode: string, retryAfter: string) {
    (statusCode == 423 && retryAfter != "" ==> WaitUntil(retryAfter) in ps) &&
    (forall p :: p in ps && p.WaitUntil? ==> statusCode == 423 && retryAfter != "" && p.when == retryAfter) &&
    (statusCode == 428 && errorCode == "INSUFFICIENT_SOAK_TIME" && retryAfter != "" ==>
      CanDeployAt(retryAfter) in ps) &&
    (forall p :: p in ps && p.CanDeployAt? ==>
      statusCode == 428 && errorCode == "INSUFFICIENT_SOAK_TIME" && retryAfter != "" && p.when == retryAfter) &&
    (Text(SkipChecksHint) in ps <==>
      statusCode == 423 ||
      (statusCode == 428 && errorCode != "FLOW_VIOLATION" &&
       errorCode != "QUALITY_APPROVAL_REQUIRED" && errorCode != "APPROVAL_REQUIRED")) &&
    (statusCode != 409 && statusCode != 423 && statusCode != 428 ==> NoGuidance(ps))
  }

  /** The status subheading: 409 "Deployment Conflict", 423 "Blocked by
      Schedule", 428 "Precondition Failed", and none for another status. */
  predicate NamesStatus(ps: seq<Piece>, statusCode: int) {
    (Text(ConflictHeading) in ps <==> statusCode == 409) &&
    (Text(ScheduleHeading) in ps <==> statusCode == 423) &&
    (Text(PreconditionHeading) in ps <==> statusCode == 428)
  }

  /** The key information: the error code and the message, the rule and the
      retry time exactly when they are known, and the details exactly when
      there are any. */
  predicate StatesKeyFacts(
    ps: seq<Piece>, errorCode: string, message: string, ruleName: string, retryAfter: string,
    details: map<string, Value>, render: map<string, Value> -> string)
  {
    CodeField(ErrorCodeLabel, errorCode) in ps && Field(MessageLabel, message) in ps &&
    (HasLabel(ps, RuleLabel) <==> ruleName != "") && (ruleName != "" ==> Field(RuleLabel, ruleName) in ps) &&
    (HasLabel(ps, RetryAfterLabel) <==> retryAfter != "") &&
    (retryAfter != "" ==> CodeField(RetryAfterLabel, retryAfter) in ps) &&
    (HasDetails(ps) <==> |details| > 0) && (|details| > 0 ==> DetailsBlock(render(details)) in ps)
  }

  /** The job summary of a preflight rejection: the rejection heading first,
      the subheading of its status, the key information and the guidance. */
  predicate DescribesRejection(
    ps: seq<Piece>, statusCode: int, errorCode: string, message: string, ruleName: string, retryAfter: string,
    details: map<string, Value>, render: map<string, Value> -> string)
  {
    ps != [] && ps[0] == Text(RejectedHeading) &&
    NamesStatus(ps, statusCode) &&
    StatesKeyFacts(ps, errorCode, message, ruleName, retryAfter, details, render) &&
    GuidesFor(ps, statusCode, errorCode, retryAfter)
  }

  /** The key-information lines: only labelled fields, with the error code and
      the message, and the rule and the retry time exactly when they are
      known. */
  predicate KeyLines(ps: seq<Piece>, errorCode: string, message: string, ruleName: string, retryAfter: string) {
    CodeField(ErrorCodeLabel, errorCode) in ps && Field(MessageLabel, message) in ps &&
    (HasLabel(ps, RuleLabel) <==> ruleName != "") && (ruleName != "" ==> Field(RuleLabel, ruleName) in ps) &&
    (HasLabel(ps, RetryAfterLabel) <==> retryAfter != "") &&
    (retryAfter != "" ==> CodeField(RetryAfterLabel, retryAfter) in ps) &&
    (forall p :: p in ps ==> p.Field? || p.CodeField?)
  }

  /** The key information survives the lines around it, which carry no label
      and no details. */
  lemma KeyFactsAssembled(
    head: seq<Piece>, key: seq<Piece>, rest: seq<Piece>, tail: seq<Piece>,
    errorCode: string, message: string, ruleName: string, retryAfter: string,
    details: map<string, Value>, render: map<string, Value> -> string)
    requires Plain(head) && Plain(rest)
    requires KeyLines(key, errorCode, message, ruleName, retryAfter)
    requires tail == if |details| > 0 then [DetailsBlock(render(details))] else []
    ensures StatesKeyFacts(head + key + rest + tail, errorCode, message, ruleName, retryAfter, details, render)
  {
    PlainHasNothing(head);
    PlainHasNothing(rest);
    assert !HasDetails(key);
    assert |details| > 0 ==> DetailsBlock(render(details)) in tail;
    assert forall l :: !HasLabel(tail, l);
    PiecesAppend(head, key);
    PiecesAppend(head + key, rest);
    PiecesAppend(head + key + rest, tail);
  }

  /** The subheadings come only from the heading lines. */
  lemma HeadingsAssembled(
    head: seq<Piece>, key: seq<Piece>, middle: seq<Piece>, guidance: seq<Piece>, tail: seq<Piece>, statusCode: int)
    requires NamesStatus(head, statusCode)
    requires forall p :: p in key ==> p.Field? || p.CodeField?
    requires middle == [Text(Blank), Text(ActionRequired)]
    requires OnlyGuidance(guidance)
    requires forall p :: p in tail ==> p.DetailsBlock?
    ensures NamesStatus(head + key + middle + guidance + tail, statusCode)
  {
    assert !IsGuidance(Text(ConflictHeading)) && !IsGuidance(Text(ScheduleHeading)) &&
           !IsGuidance(Text(PreconditionHeading));
  }

  /** The guidance comes only from the guidance lines. */
  lemma GuidanceAssembled(
    head: seq<Piece>, key: seq<Piece>, middle: seq<Piece>, guidance: seq<Piece>, tail: seq<Piece>,
    statusCode: int, errorCode: string, retryAfter: string)
    requires NoGuidance(head)
    requires forall p :: p in key ==> p.Field? || p.CodeField?
    requires middle == [Text(Blank), Text(ActionRequired)]
    requires OnlyGuidance(guidance) && GuidesFor(guidance, statusCode, errorCode, retryAfter)
    requires forall p :: p in tail ==> p.DetailsBlock?
    ensures GuidesFor(head + key + middle + guidance + tail, statusCode, errorCode, retryAfter)
  {
    var ps := head + key + middle + guidance + tail;
    assert NoGuidance(key) && NoGuidance(middle) && NoGuidance(tail);
    assert forall p :: IsGuidance(p) ==> (p in ps <==> p in guidance);
    assert IsGuidance(Text(SkipChecksHint));
  }

  /** The rejection summary assembled from its five parts describes the
      rejection. */
  lemma RejectionAssembled(
    head: seq<Piece>, key: seq<Piece>, guidance: seq<Piece>,
    statusCode: int, errorCode: string, message: string, ruleName: string, retryAfter: string,
    details: map<string, Value>, render: map<string, Value> -> string)
    requires head != [] && head[0] == Text(RejectedHeading)
    requires NamesStatus(head, statusCode) && Plain(head) && NoGuidance(head)
    requires KeyLines(key, errorCode, message, ruleName, retryAfter)
    requires Plain(guidance) && OnlyGuidance(guidance) && GuidesFor(guidance, statusCode, errorCode, retryAfter)
    ensures DescribesRejection(
              head + key + [Text(Blank), Text(ActionRequired)] + guidance +
              (if |details| > 0 then [DetailsBlock(render(details))] else []),
              statusCode, errorCode, message, ruleName, retryAfter, details, render)
  {
    var middle := [Text(Blank), Text(ActionRequired)];
    var tail := if |details| > 0 then [DetailsBlock(render(details))] else [];
    assert Plain(middle);
    assert forall p :: p in tail ==> p.DetailsBlock?;
    assert Plain(middle + guidance) by {
      PiecesAppend(middle, guidance);
    }
    assert head + key + middle + guidance + tail == head + key + (middle + guidance) + tail;
    KeyFactsAssembled(head, key, middle + guidance, tail, errorCode, message, ruleName, retryAfter, details, render);
    HeadingsAssembled(head, key, middle, guidance, tail, statusCode);
    GuidanceAssembled(head, key, middle, guidance, tail, statusCode, errorCode, retryAfter);
  }

  /** `writeWorkflowCommand`. */
  method WriteWorkflowCommand(statusCode: int, errorCode: string, message: string, ruleName: string)
    returns (line: string)
    ensures line == "::error title=" + FormatTitle(statusCode, errorCode, ruleName) + "::" + Escaped(message) + "\n"
    ensures IsAscii(message) ==>
      line == "::error title=" + FormatTitle(statusCode, errorCode, ruleName) + "::" + EscapedAsWritten(message) + "\n"
  {
    var title := FormatTitle(statusCode, errorCode, ruleName);
    var escapedMessage := EscapeWorkflowCommand(message);
    line := "::error title=" + title + "::" + escapedMessage + "\n";
  }

  /** The key-information lines of `writeJobSummary`: the rule and the retry
      time appear exactly when they are known. */
  method KeyInformation(errorCode: string, message: string, ruleName: string, retryAfter: string)
    returns (ps: seq<Piece>)
    ensures KeyLines(ps, errorCode, message, ruleName, retryAfter)
  {
    ps := [CodeField(ErrorCodeLabel, errorCode)];
    if ruleName != "" {
      ps := ps + [Field(RuleLabel, ruleName)];
    }
    ps := ps + [Field(MessageLabel, message)];
    if retryAfter != "" {
      ps := ps + [CodeField(RetryAfterLabel, retryAfter)];
    }
  }

  /** The "Action Required" lines of `writeJobSummary`, by status and error code:
      a wait-until line exactly for a 423 with a retry time, a can-deploy-at
      line exactly for an insufficient soak time with one, the emergency hint
      exactly where the source gives it, and nothing for other statuses. */
  method Guidance(statusCode: int, errorCode: string, retryAfter: string) returns (ps: seq<Piece>)
    ensures Plain(ps) && OnlyGuidance(ps)
    ensures GuidesFor(ps, statusCode, errorCode, retryAfter)
    ensures statusCode != 409 && statusCode != 423 && statusCode != 428 ==> ps == []
  {
    ps := [];
    if statusCode == 409 {
      ps := ps + [Text(WaitForCurrent), Text(RetryThis)];
    } else if statusCode == 423 {
      if retryAfter != "" {
        ps := ps + [WaitUntil(retryAfter), Text(RetryAfterWindow)];
      }
      ps := ps + [Text(SkipChecksHint)];
    } else if statusCode == 428 {
      if errorCode == "FLOW_VIOLATION" {
        ps := ps + [Text(DeployRequiredFirst), Text(ThenRetry)];
      } else if errorCode == "INSUFFICIENT_SOAK_TIME" {
        ps := ps + [Text(WaitForSoak)];
        if retryAfter != "" {
          ps := ps + [CanDeployAt(retryAfter)];
        }
        ps := ps + [Text(SkipChecksHint)];
      } else if errorCode == "QUALITY_APPROVAL_REQUIRED" || errorCode == "APPROVAL_REQUIRED" {
        ps := ps + [Text(ObtainApproval), Text(ThenRetry)];
      } else {
        ps := ps + [Text(ResolveIssue), Text(ThenRetry), Text(SkipChecksHint)];
      }
    }
  }

  /** The heading lines of `writeJobSummary`: the rejection heading, then the
      subheading of the status. */
  method StatusHeading(statusCode: int) returns (head: seq<Piece>)
    ensures head != [] && head[0] == Text(RejectedHeading)
    ensures NamesStatus(head, statusCode)
    ensures Plain(head) && NoGuidance(head)
  {
    head := [Text(RejectedHeading)];
    if statusCode == 409 {
      head := head + [Text(ConflictHeading)];
    } else if statusCode == 423 {
      head := head + [Text(ScheduleHeading)];
    } else if statusCode == 428 {
      head := head + [Text(PreconditionHeading)];
    }
  }

  /** `writeJobSummary`, with `render` for `json.MarshalIndent` of the details
      (a marshalling error renders as ""). */
  method WriteJobSummary(
    env: Detector.Env, statusCode: int, errorCode: string, message: string, ruleName: string,
    retryAfter: string, details: map<string, Value>, render: map<string, Value> -> string)
    returns (summary: Option<seq<Piece>>)
    ensures summary.Some? <==> HasSummaryFile(env)
    ensures summary.Some? ==> DescribesRejection(summary.value, statusCode, errorCode, message, ruleName, retryAfter, details, render)
  {
    if !HasSummaryFile(env) {
      return None;
    }
    var ps := RejectionSummary(statusCode, errorCode, message, ruleName, retryAfter, details, render);
    return Some(ps);
  }

  /** The pieces `writeJobSummary` appends, in order: the headings, the key
      information, the required action with its guidance, and the details. */
  method RejectionSummary(
    statusCode: int, errorCode: string, message: string, ruleName: string,
    retryAfter: string, details: map<string, Value>, render: map<string, Value> -> string)
    returns (ps: seq<Piece>)
    ensures DescribesRejection(ps, statusCode, errorCode, message, ruleName, retryAfter, details, render)
  {
    var head := StatusHeading(statusCode);
    var key := KeyInformation(errorCode, message, ruleName, retryAfter);
    var guidance := Guidance(statusCode, errorCode, retryAfter);
    var tail := if |details| > 0 then [DetailsBlock(render(details))] else [];
    ps := head + key + [Text(Blank), Text(ActionRequired)] + guidance + tail;
    RejectionAssembled(head, key, guidance, statusCode, errorCode, message, ruleName, retryAfter, details, render);
  }

  /** `WriteErrorAnnotation`: nothing outside GitHub Actions; inside, the
      `::error` line always, and the job summary when there is a summary file. */
  method WriteErrorAnnotation(
    env: Detector.Env, statusCode: int, errorCode: string, message: string, ruleName: string,
    retryAfter: string, details: map<string, Value>, render: map<string, Value> -> string)
    returns (e: Emission)
    ensures !InActions(env) ==> e == Emission(None, None)
    ensures InActions(env) ==>
      e.command == Some("::error title=" + FormatTitle(statusCode, errorCode, ruleName) + "::" + Escaped(message) + "\n")
    ensures InActions(env) && IsAscii(message) ==>
      e.command == Some("::error title=" + FormatTitle(statusCode, errorCode, ruleName) + "::" + EscapedAsWritten(message) + "\n")
    ensures e.summary.Some? <==> InActions(env) && HasSummaryFile(env)
    ensures e.summary.Some? ==> DescribesRejection(e.summary.value, statusCode, errorCode, message, ruleName, retryAfter, details, render)
  {
    if !InActions(env) {
      return Emission(None, None);
    }
    var line := WriteWorkflowCommand(statusCode, errorCode, message, ruleName);
    var summary := WriteJobSummary(env, statusCode, errorCode, message, ruleName, retryAfter, details, render);
    return Emission(Some(line), summary);
  }

  /** The target of the "View in Versioner" link, or "" when there is none. */
  method ViewURL(action: string, uiURL: string, resourceID: string) returns (url: string)
    ensures url != "" <==> uiURL != "" && resourceID != "" && (action == "Deployment" || action == "Build")
    ensures url != "" && action == "Deployment" ==> url == uiURL + "/manage/deployments?view=" + resourceID
    ensures url != "" && action == "Build" ==> url == uiURL + "/manage/versions?view=" + resourceID
  {
    url := "";
    if uiURL != "" && resourceID != "" {
      if action == "Deployment" {
        url := uiURL + "/manage/deployments?view=" + resourceID;
      } else if action == "Build" {
        url := uiURL + "/manage/versions?view=" + resourceID;
      }
    }
  }

  /** The success summary names the action, the decorated status and the
      version, the environment and the SHA exactly when known, and links to
      the resource exactly when `ViewURL` gives a target. */
  predicate DescribesSuccess(
    ps: seq<Piece>, action: string, environment: string, status: string, version: string,
    scmSha: string, viewURL: string)
  {
    ps != [] && ps[0] == Text(SuccessHeading) &&
    Field(ActionLabel, action) in ps && Field(StatusLabel, FormatStatus(status)) in ps &&
    CodeField(VersionLabel, version) in ps &&
    (HasLabel(ps, EnvironmentLabel) <==> environment != "") &&
    (environment != "" ==> Field(EnvironmentLabel, environment) in ps) &&
    (HasLabel(ps, ShaLabel) <==> scmSha != "") && (scmSha != "" ==> CodeField(ShaLabel, scmSha) in ps) &&
    (HasLink(ps) <==> viewURL != "") && (viewURL != "" ==> ViewLink(viewURL) in ps)
  }

  /** The fields of the success summary, in the order `WriteSuccessSummary`
      writes them. */
  method SuccessFields(action: string, environment: string, statusText: string, version: string, scmSha: string)
    returns (ps: seq<Piece>)
    ensures forall p :: p in ps ==> p.Field? || p.CodeField?
    ensures Field(ActionLabel, action) in ps && Field(StatusLabel, statusText) in ps
    ensures CodeField(VersionLabel, version) in ps
    ensures (HasLabel(ps, EnvironmentLabel) <==> environment != "")
    ensures environment != "" ==> Field(EnvironmentLabel, environment) in ps
    ensures (HasLabel(ps, ShaLabel) <==> scmSha != "") && (scmSha != "" ==> CodeField(ShaLabel, scmSha) in ps)
  {
    ps := [Field(ActionLabel, action)];
    if environment != "" {
      ps := ps + [Field(EnvironmentLabel, environment)];
    }
    ps := ps + [Field(StatusLabel, statusText), CodeField(VersionLabel, version)];
    if scmSha != "" {
      ps := ps + [CodeField(ShaLabel, scmSha)];
    }
  }

  /** `WriteSuccessSummary`: nothing outside GitHub Actions or without a summary
      file; otherwise a summary that `DescribesSuccess`. */
  method WriteSuccessSummary(
    env: Detector.Env, action: string, environment: string, status: string, version: string,
    scmSha: string, uiURL: string, resourceID: string)
    returns (summary: Option<seq<Piece>>, ghost viewURL: string)
    ensures summary.Some? <==> InActions(env) && HasSummaryFile(env)
    ensures viewURL != "" <==> uiURL != "" && resourceID != "" && (action == "Deployment" || action == "Build")
    ensures viewURL != "" && action == "Deployment" ==> viewURL == uiURL + "/manage/deployments?view=" + resourceID
    ensures viewURL != "" && action == "Build" ==> viewURL == uiURL + "/manage/versions?view=" + resourceID
    ensures summary.Some? ==> DescribesSuccess(summary.value, action, environment, status, version, scmSha, viewURL)
  {
    var url := ViewURL(action, uiURL, resourceID);
    viewURL := url;
    if !InActions(env) || !HasSummaryFile(env) {
      return None, viewURL;
    }
    var head := [Text(SuccessHeading)];
    assert Plain(head);
    var fields := SuccessFields(action, environment, FormatStatus(status), version, scmSha);
    var link := if url != "" then [ViewLink(url)] else [];
    assert url != "" ==> ViewLink(url) in link;
    assert !HasLink(fields);
    assert forall l :: !HasLabel(link, l);
    assert HasLink(link) <==> url != "";
    PiecesAppend(head, fields);
    PiecesAppend(head + fields, link);
    var ps := head + fields + link;
    return Some(ps), viewURL;
  }

  /** The "Possible Causes" lines of `WriteGenericErrorAnnotation`. */
  function PossibleCausesOf(errorType: string): (ps: seq<Piece>)
    ensures ps != [] && forall p :: p in ps ==> p.Text?
    ensures errorType == "API Error" ==> Text(InvalidKeyCause) in ps && Text(RateLimitCause) in ps
    ensures errorType == "Network Error" ==> Text(ConnectivityCause) in ps && Text(TimeoutCause) in ps
    ensures Text(SeeMessageCause) in ps <==> errorType != "API Error" && errorType != "Network Error"
  {
    if errorType == "API Error" then
      [Text(InvalidKeyCause), Text(ValidationCause), Text(UnavailableCause), Text(RateLimitCause)]
    else if errorType == "Network Error" then
      [Text(ConnectivityCause), Text(DnsCause), Text(UnreachableCause), Text(TimeoutCause)]
    else [Text(SeeMessageCause)]
  }

  /** The job summary of `WriteGenericErrorAnnotation`: the headings and the
      error, the causes for the error type, and the fixed steps to take. */
  function GenericSummary(action: string, errorType: string, errorMessage: string): (ps: seq<Piece>)
    ensures |ps| > 3 && ps[0] == FailedHeading(action) && ps[1] == ErrorTypeHeading(errorType)
    ensures ps[2] == ErrorLine(errorMessage) && ps[3] == Text(PossibleCauses)
    ensures forall p :: p in PossibleCausesOf(errorType) ==> p in ps
    ensures Text(VerifyKey) in ps && Text(ContactSupport) in ps
    ensures forall l :: !HasLabel(ps, l)
  {
    var causes := PossibleCausesOf(errorType);
    var steps := [Text(GenericActionRequired), Text(VerifyKey), Text(CheckNetwork), Text(ReviewMessage), Text(ContactSupport)];
    assert Text(VerifyKey) in steps && Text(ContactSupport) in steps;
    var head := [FailedHeading(action), ErrorTypeHeading(errorType), ErrorLine(errorMessage), Text(PossibleCauses)];
    var ps := head + causes + steps;
    assert forall p :: p in causes ==> p in ps;
    assert forall p :: p in steps ==> p.Text?;
    assert Plain(head) && Plain(causes) && Plain(steps);
    PiecesAppend(head, causes);
    PiecesAppend(head + causes, steps);
    PlainHasNothing(ps);
    ps
  }

  /** `WriteGenericErrorAnnotation`: unlike `WriteErrorAnnotation` it emits
      nothing at all without a summary file. */
  method WriteGenericErrorAnnotation(env: Detector.Env, action: string, errorType: string, errorMessage: string)
    returns (e: Emission)
    ensures e.command.Some? <==> InActions(env) && HasSummaryFile(env)
    ensures e.summary.Some? <==> e.command.Some?
    ensures e.command.Some? ==>
      e.command.value == "::error title=" + ("Versioner " + action + " Failed") + "::" + Escaped(errorMessage) + "\n"
    ensures e.command.Some? && IsAscii(errorMessage) ==>
      e.command.value == "::error title=" + ("Versioner " + action + " Failed") + "::" + EscapedAsWritten(errorMessage) + "\n"
    ensures e.summary.Some? ==> e.summary.value == GenericSummary(action, errorType, errorMessage)
  {
    if !InActions(env) || !HasSummaryFile(env) {
      return Emission(None, None);
    }
    var title := "Versioner " + action + " Failed";
    var escapedMessage := EscapeWorkflowCommand(errorMessage);
    var line := "::error title=" + title + "::" + escapedMessage + "\n";
    var ps := GenericSummary(action, errorType, errorMessage);
    return Emission(Some(line), Some(ps));
  }
}
