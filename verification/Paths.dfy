/** How resource paths and index paths are written into the fixed buffers that the SDK keeps for them. */
module Paths {
  import opened Basics
  import opened Decimal
  import opened Scanner
  import opened ScannerFacts
  import opened Api
  import opened Fields
  import opened Walk
  import opened Placement
  import opened Lifecycle

  lemma OverlaidTwice(buffer: string, at: nat, a: string, b: string)
    requires at + |a| + |b| <= |buffer|
    ensures Overlaid(Overlaid(buffer, at, a), at + |a|, b) == Overlaid(buffer, at, a + b)
  {
  }

  /** A terminated text without NULs is the C string at the buffer's start. */
  lemma TextAtStart(buffer: string, text: string)
    requires |text| < |buffer| && NUL !in text
    ensures CString(Overlaid(buffer, 0, text + [NUL]), 0) == text
  {
    var t := Overlaid(buffer, 0, text + [NUL]);
    assert t[..|text|] == text;
    CStringIsText(t, 0, |text|);
  }

  /** Copies the characters of a text, without a terminator. */
  method CopyText(buffer: array<char>, at: nat, text: string)
    requires at + |text| <= buffer.Length
    modifies buffer
    ensures buffer[..] == Overlaid(old(buffer[..]), at, text)
  {
    var k := 0;
    while k < |text|
      invariant 0 <= k <= |text|
      invariant buffer[..] == Overlaid(old(buffer[..]), at, text[..k])
    {
      OverlaidTwice(old(buffer[..]), at, text[..k], [text[k]]);
      assert text[..k] + [text[k]] == text[..k + 1];
      buffer[at + k] := text[k];
      k := k + 1;
    }
    assert text[..k] == text;
  }

  /** Writes the parts one after the other, without a terminator. */
  method CopyParts(buffer: array<char>, parts: seq<string>) returns (length: nat)
    requires |Joined(parts)| <= buffer.Length
    modifies buffer
    ensures length == |Joined(parts)| && buffer[..] == Overlaid(old(buffer[..]), 0, Joined(parts))
  {
    ghost var done := "";
    var k := 0;
    length := 0;
    while k < |parts|
      invariant 0 <= k <= |parts| && length == |done|
      invariant done + Joined(parts[k..]) == Joined(parts)
      invariant buffer[..] == Overlaid(old(buffer[..]), 0, done)
    {
      assert parts[k..][1..] == parts[k + 1..];
      assert done + Joined(parts[k..]) == (done + parts[k]) + Joined(parts[k + 1..]);
      OverlaidTwice(old(buffer[..]), 0, done, parts[k]);
      CopyText(buffer, length, parts[k]);
      done, length, k := done + parts[k], length + |parts[k]|, k + 1;
    }
    assert parts[k..] == [] && done + "" == done;
  }

  /** The sum of the parts' lengths, as the guards compute it. */
  function SumOfLengths(parts: seq<string>): nat {
    if parts == [] then 0 else |parts[0]| + SumOfLengths(parts[1..])
  }

  lemma {:induction false} SumIsLength(parts: seq<string>)
    ensures SumOfLengths(parts) == |Joined(parts)|
  {
    if parts != [] {
      SumIsLength(parts[1..]);
    }
  }

  /**
   The path builders: a path is refused exactly when its parts together are not shorter than the buffer, and
   then nothing is written; otherwise exactly the concatenation and its terminator are.
   */
  method WritePath(buffer: array<char>, parts: seq<string>) returns (ok: bool)
    modifies buffer
    ensures ok <==> |Joined(parts)| < buffer.Length
    ensures buffer[..] == if ok then Overlaid(old(buffer[..]), 0, Joined(parts) + [NUL]) else old(buffer[..])
    ensures ok && NUL !in Joined(parts) ==> CString(buffer[..], 0) == Joined(parts)
  {
    SumIsLength(parts);
    ok := SumOfLengths(parts) < buffer.Length;
    if ok {
      var length := CopyParts(buffer, parts);
      OverlaidTwice(old(buffer[..]), 0, Joined(parts), [NUL]);
      buffer[length] := NUL;
      assert buffer[..] == Overlaid(old(buffer[..]), 0, Joined(parts) + [NUL]);
      if NUL !in Joined(parts) {
        TextAtStart(old(buffer[..]), Joined(parts));
      }
    }
  }

  lemma JoinedOfThree(a: string, b: string, c: string)
    ensures Joined([a, b, c]) == a + b + c
  {
    assert [a, b, c][1..] == [b, c] && [b, c][1..] == [c] && [c][1..] == [];
    assert Joined([c]) == c + "" && Joined([b, c]) == b + Joined([c]);
    assert a + (b + c) == a + b + c;
  }

  lemma JoinedOfFive(a: string, b: string, c: string, d: string, e: string)
    ensures Joined([a, b, c, d, e]) == a + b + c + d + e
  {
    JoinedOfThree(c, d, e);
    assert [a, b, c, d, e][1..] == [b, c, d, e] && [b, c, d, e][1..] == [c, d, e];
    assert Joined([b, c, d, e]) == b + Joined([c, d, e]);
    assert a + (b + (c + d + e)) == a + b + c + d + e;
  }

  /** The path of the state, of an onboarding, or of a property of the thing, as a C string. */
  method SetStatePath(buffer: array<char>, appId: string, authorId: string) returns (ok: bool)
    modifies buffer
    ensures ok <==> |StatePath(appId, authorId)| < buffer.Length
    ensures !ok ==> buffer[..] == old(buffer[..])
    ensures ok && NUL !in appId && NUL !in authorId ==> CString(buffer[..], 0) == StatePath(appId, authorId)
  {
    JoinedOfFive(THING_IF_APP_PATH, appId, TARGET_PART, authorId, STATES_PART);
    ok := WritePath(buffer, [THING_IF_APP_PATH, appId, TARGET_PART, authorId, STATES_PART]);
  }

  method SetOnboardPath(buffer: array<char>, appId: string) returns (ok: bool)
    modifies buffer
    ensures ok <==> |THING_IF_APP_PATH + appId + ONBOARDING_PATH| < buffer.Length
    ensures !ok ==> buffer[..] == old(buffer[..])
    ensures ok && NUL !in appId ==> CString(buffer[..], 0) == THING_IF_APP_PATH + appId + ONBOARDING_PATH
  {
    JoinedOfThree(THING_IF_APP_PATH, appId, ONBOARDING_PATH);
    ok := WritePath(buffer, [THING_IF_APP_PATH, appId, ONBOARDING_PATH]);
  }

  method SetThingPath(buffer: array<char>, appId: string, authorId: string, part: string) returns (ok: bool)
    requires NUL !in part
    modifies buffer
    ensures ok <==> |PropertyPath(appId, authorId, part)| < buffer.Length
    ensures !ok ==> buffer[..] == old(buffer[..])
    ensures ok && NUL !in appId && NUL !in authorId ==>
              CString(buffer[..], 0) == PropertyPath(appId, authorId, part)
  {
    JoinedOfFive(THING_IF_APP_PATH, appId, THINGS_PART, authorId, part);
    ok := WritePath(buffer, [THING_IF_APP_PATH, appId, THINGS_PART, authorId, part]);
  }

  // ---- The path of a command's results. ----

  /**
   The guard of the results path counts one character too few: an accepted path has at most as many
   characters as the buffer, and fits it with its terminator exactly when the sum is not the largest accepted.
   */
  lemma ResultsPathFits(appId: string, authorId: string, command: string)
    ensures var sum, path := ResultsPathSum(appId, authorId, command), ResultsPath(appId, authorId, command);
            && |path| == sum + 1
            && (sum < PATH_SIZE <==> |path| <= PATH_SIZE)
            && (|path| + 1 <= PATH_SIZE <==> sum <= PATH_SIZE - 2)
            && (sum < PATH_SIZE ==> (|path| < PATH_SIZE <==> sum != PATH_SIZE - 1))
  {
  }

  function ResultsParts(appId: string, authorId: string, command: string): seq<string> {
    [THING_IF_APP_PATH, appId, TARGET_PART, authorId, COMMAND_PART, command, RESULTS_PART]
  }

  lemma JoinedResults(appId: string, authorId: string, command: string)
    ensures Joined(ResultsParts(appId, authorId, command)) == ResultsPath(appId, authorId, command)
  {
    var a, b := THING_IF_APP_PATH + appId, TARGET_PART + authorId;
    var parts := ResultsParts(appId, authorId, command);
    JoinedOfFive(parts[2], parts[3], parts[4], parts[5], parts[6]);
    assert parts[1..][1..] == [parts[2], parts[3], parts[4], parts[5], parts[6]];
    assert Joined(parts) == parts[0] + (parts[1] + Joined(parts[1..][1..]));
    var rest := TARGET_PART + authorId + COMMAND_PART + command + RESULTS_PART;
    assert parts[0] + (parts[1] + rest)
        == THING_IF_APP_PATH + appId + TARGET_PART + authorId + COMMAND_PART + command + RESULTS_PART;
  }

  /** An accepted path whose terminator has no place in the buffer. */
  lemma ResultsPathOneShort()
    ensures var appId := seq(200, _ => 'a');
            var sum, path := ResultsPathSum(appId, "t", "c"), ResultsPath(appId, "t", "c");
            sum == PATH_SIZE - 1 && sum < PATH_SIZE && |path| == PATH_SIZE
  {
    assert |THING_IF_APP_PATH| == 14 && |TARGET_PART| == 15 && |COMMAND_PART| == 10 && |RESULTS_PART| == 15;
  }

  /**
   The results path, part by part, into a buffer of 256 characters; `memory` is the buffer and what lies behind it.
   In every accepted case the path and its terminator are written, and the place behind the buffer is written exactly
   when the sum is the largest accepted.
   */
  method WriteResultsPath(memory: array<char>, appId: string, authorId: string, command: string) returns (ok: bool)
    requires memory.Length > PATH_SIZE
    modifies memory
    ensures ok <==> ResultsPathSum(appId, authorId, command) < PATH_SIZE
    ensures var path := ResultsPath(appId, authorId, command);
            if ok then |path| < memory.Length && memory[..] == Overlaid(old(memory[..]), 0, path + [NUL])
            else memory[..] == old(memory[..])
    ensures ResultsPathSum(appId, authorId, command) != PATH_SIZE - 1 ==>
              memory[PATH_SIZE..] == old(memory[PATH_SIZE..])
    ensures ResultsPathSum(appId, authorId, command) == PATH_SIZE - 1 ==>
              memory[PATH_SIZE] == NUL && memory[PATH_SIZE + 1..] == old(memory[PATH_SIZE + 1..])
    ensures ok && NUL !in ResultsPath(appId, authorId, command) ==>
              CString(memory[..], 0) == ResultsPath(appId, authorId, command)
  {
    hide ResultsPath, ResultsPathSum, Joined, CString;
    ResultsPathFits(appId, authorId, command);
    ok := ResultsPathSum(appId, authorId, command) < PATH_SIZE;
    if ok {
      JoinedResults(appId, authorId, command);
      ghost var path := ResultsPath(appId, authorId, command);
      ghost var was := memory[..];
      var length := CopyParts(memory, ResultsParts(appId, authorId, command));
      OverlaidTwice(was, 0, path, [NUL]);
      memory[length] := NUL;
      assert memory[..] == Overlaid(was, 0, path + [NUL]);
      BehindText(was, memory[..], path + [NUL]);
      if NUL !in path {
        TextAtStart(was, path);
      }
    }
  }

  lemma BehindText(was: string, now: string, text: string)
    requires |text| <= |was| && now == Overlaid(was, 0, text)
    ensures forall n :: |text| <= n <= |was| ==> now[n..] == was[n..]
    ensures text != [] ==> now[|text| - 1] == text[|text| - 1]
  {
    forall n | |text| <= n <= |was| ensures now[n..] == was[n..] {
    }
  }

  // ---- Index paths. ----

  /**
   Every index that the walk of a list asks for, the last of which is one past the list's end, has a path that fits,
   terminated, a buffer of four characters more than the digits of the payload's length.
   */
  lemma IndicesFit(s: string, lo: nat, hi: nat, limit: nat, list: Option<Tree>, k: nat)
    requires Holds(s, lo, hi, limit, list)
    requires k == 0 || ItemAt(list, k - 1).Found?
    ensures k <= hi - lo && |IndexPath(k)| + 1 <= |Digits(|s|)| + 4
  {
    hide Value, IndexPath, Digits;
    if k > 0 {
      IndexPathRoundTrip(k - 1);
      DocumentReads(s, lo, hi);
      ArrayNests(s, hi, list.value.start);
    }
    IndexPathWidth(k, |s|);
  }
}
