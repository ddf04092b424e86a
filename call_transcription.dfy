/**
 * The transcript parser of components/calls/CallTranscription.tsx: the
 * transcript is trimmed, split into lines and stripped of blank lines; then
 * a reduce groups the lines into messages, a line starting with `Agent:` or
 * `Client:` opening a message and any other line continuing the last one.
 *
 * `Messages` is the pipeline as a function (`KeptLines` then the reduce
 * `FoldFrom`, one `Step` per line); `ParseTranscript` runs the reduce as a
 * loop over the kept lines, proved to compute `Messages`.
 */
module CallTranscription {
  import opened JsString
  import opened AiAgent

  datatype Message = Message(role: string, content: string)

  /** `transcript.trim().split('\n').filter(line => line.trim())`. */
  function KeptLines(transcript: string): (lines: seq<string>) {
    NonBlank(Split(Trim(transcript), '\n'))
  }

  function NonBlank(lines: seq<string>): (kept: seq<string>)
    ensures |kept| <= |lines|
  {
    if |lines| == 0 then []
    else
      var rest := NonBlank(lines[1..]);
      if Trim(lines[0]) != "" then [lines[0]] + rest else rest
  }

  /** The prefix test runs on the untrimmed line. */
  predicate IsSpeakerLine(line: string) {
    StartsWith(line, "Agent:") || StartsWith(line, "Client:")
  }

  /** `const [role, ...contentParts] = line.split(':')`, content rejoined on ':' and trimmed. */
  function NewMessage(line: string): (m: Message) {
    var parts := Split(line, ':');
    Message(parts[0], Trim(Join(parts[1..], ':')))
  }

  /** One step of the reduce. */
  function Step(acc: seq<Message>, line: string): (acc': seq<Message>) {
    if IsSpeakerLine(line) then acc + [NewMessage(line)]
    else if |acc| > 0 && Trim(line) != "" then
      acc[|acc| - 1 := acc[|acc| - 1].(content := acc[|acc| - 1].content + "\n" + Trim(line))]
    else acc
  }

  /** The reduce over `lines`, starting from `acc`. */
  function FoldFrom(acc: seq<Message>, lines: seq<string>): (ms: seq<Message>)
    decreases |lines|
  {
    if |lines| == 0 then acc else FoldFrom(Step(acc, lines[0]), lines[1..])
  }

  /**
   * The messages the component shows for a transcript: one per speaker
   * line, in the order of the lines, each with role `Agent` or `Client`.
   */
  function Messages(transcript: string): (ms: seq<Message>)
    ensures Roles(ms) == SpeakerRoles(KeptLines(transcript))
    ensures forall i :: 0 <= i < |ms| ==> ms[i].role == "Agent" || ms[i].role == "Client"
  {
    GroupedFollowSpeakerLines(KeptLines(transcript));
    FoldFrom([], KeptLines(transcript))
  }

  /** `lines.reduce(callback, [])`: the loop over the kept lines. */
  method GroupLines(lines: seq<string>) returns (messages: seq<Message>)
    ensures messages == FoldFrom([], lines)
  {
    messages := [];
    var i := 0;
    while i < |lines|
      invariant 0 <= i <= |lines|
      invariant FoldFrom(messages, lines[i..]) == FoldFrom([], lines)
    {
      FoldFromUnrolls(messages, lines, i);
      messages := Step(messages, lines[i]);
      i := i + 1;
    }
    assert lines[i..] == [];
  }

  lemma FoldFromUnrolls(acc: seq<Message>, lines: seq<string>, i: nat)
    requires i < |lines|
    ensures FoldFrom(acc, lines[i..]) == FoldFrom(Step(acc, lines[i]), lines[i + 1..])
  {
    assert lines[i..][1..] == lines[i + 1..];
  }

  /** The component's parsing: the line pipeline, then the reduce. */
  method ParseTranscript(transcript: string) returns (messages: seq<Message>)
    ensures messages == Messages(transcript)
  {
    var lines := KeptLines(transcript);
    messages := GroupLines(lines);
  }

  // ---------------------------------------------------------------------------
  // Roles, count and order

  function SpeakerRole(line: string): string {
    if StartsWith(line, "Agent:") then "Agent" else "Client"
  }

  /** The roles of the speaker lines, in order. */
  function SpeakerRoles(lines: seq<string>): seq<string> {
    if |lines| == 0 then []
    else (if IsSpeakerLine(lines[0]) then [SpeakerRole(lines[0])] else []) + SpeakerRoles(lines[1..])
  }

  function Roles(messages: seq<Message>): seq<string> {
    seq(|messages|, i requires 0 <= i < |messages| => messages[i].role)
  }

  /** Everything after the first ':' becomes the content, later colons included, trimmed. */
  lemma NewMessageSplitsAtFirstColon(role: string, rest: string)
    requires ':' !in role
    ensures NewMessage(role + ":" + rest) == Message(role, Trim(rest))
  {
    SplitAtFirst(role, ':', rest);
    assert role + ":" + rest == role + [':'] + rest;
  }

  /** A speaker line opens a message whose role is the speaker's name: `Agent` or `Client`. */
  lemma SpeakerLineRole(line: string)
    requires IsSpeakerLine(line)
    ensures NewMessage(line).role == SpeakerRole(line)
    ensures NewMessage(line).content == Trim(line[|SpeakerRole(line)| + 1..])
  {
    var name := SpeakerRole(line);
    var rest := line[|name| + 1..];
    assert line == name + ":" + rest;
    NewMessageSplitsAtFirstColon(name, rest);
  }

  lemma StepRoles(acc: seq<Message>, line: string)
    ensures Roles(Step(acc, line)) == Roles(acc) + (if IsSpeakerLine(line) then [SpeakerRole(line)] else [])
  {
    if IsSpeakerLine(line) {
      SpeakerStepRoles(acc, line);
    } else {
      OtherStepRoles(acc, line);
    }
  }

  lemma SpeakerStepRoles(acc: seq<Message>, line: string)
    requires IsSpeakerLine(line)
    ensures Roles(Step(acc, line)) == Roles(acc) + [SpeakerRole(line)]
  {
    var m := NewMessage(line);
    SpeakerLineRole(line);
    assert Step(acc, line) == acc + [m];
    RolesSnoc(acc, m);
  }

  lemma RolesSnoc(acc: seq<Message>, m: Message)
    ensures Roles(acc + [m]) == Roles(acc) + [m.role]
  {
  }

  lemma OtherStepRoles(acc: seq<Message>, line: string)
    requires !IsSpeakerLine(line)
    ensures Roles(Step(acc, line)) == Roles(acc)
  {
    if |acc| > 0 && Trim(line) != "" {
      var last := acc[|acc| - 1];
      ExtendKeepsRoles(acc, last.(content := last.content + "\n" + Trim(line)));
    }
  }

  lemma ExtendKeepsRoles(acc: seq<Message>, m: Message)
    requires |acc| > 0 && m.role == acc[|acc| - 1].role
    ensures Roles(acc[|acc| - 1 := m]) == Roles(acc)
  {
  }

  /**
   * The reduce adds exactly one message per speaker line, with that line's
   * role, in input order; messages already there keep their roles.
   */
  lemma {:induction false} FoldRoles(acc: seq<Message>, lines: seq<string>)
    ensures Roles(FoldFrom(acc, lines)) == Roles(acc) + SpeakerRoles(lines)
    decreases |lines|
  {
    if |lines| > 0 {
      StepRoles(acc, lines[0]);
      FoldRoles(Step(acc, lines[0]), lines[1..]);
    }
  }

  /**
   * Grouping lines gives one message per speaker line, in the order of the
   * lines, and every message has role `Agent` or `Client`.
   */
  lemma GroupedFollowSpeakerLines(lines: seq<string>)
    ensures Roles(FoldFrom([], lines)) == SpeakerRoles(lines)
    ensures |FoldFrom([], lines)| == |SpeakerRoles(lines)|
    ensures forall i :: 0 <= i < |FoldFrom([], lines)| ==>
              FoldFrom([], lines)[i].role == "Agent" || FoldFrom([], lines)[i].role == "Client"
  {
    var ms := FoldFrom([], lines);
    FoldRoles([], lines);
    var roles := SpeakerRoles(lines);
    assert Roles(ms) == roles;
    assert |ms| == |roles|;
    SpeakerRolesAreNames(lines);
    forall i | 0 <= i < |ms| ensures ms[i].role == "Agent" || ms[i].role == "Client" {
      assert Roles(ms)[i] == ms[i].role;
      assert roles[i] in roles;
    }
  }

  lemma {:induction false} SpeakerRolesAreNames(lines: seq<string>)
    ensures forall r :: r in SpeakerRoles(lines) ==> r == "Agent" || r == "Client"
  {
    if |lines| > 0 {
      SpeakerRolesAreNames(lines[1..]);
    }
  }

  // ---------------------------------------------------------------------------
  // Lines that do not open a message

  /** Lines before the first speaker line find no message to continue and are dropped. */
  lemma {:induction false} LeadingLinesAreDropped(prefix: seq<string>, rest: seq<string>)
    requires forall i :: 0 <= i < |prefix| ==> !IsSpeakerLine(prefix[i])
    ensures FoldFrom([], prefix + rest) == FoldFrom([], rest)
    decreases |prefix|
  {
    if |prefix| > 0 {
      assert (prefix + rest)[0] == prefix[0];
      assert (prefix + rest)[1..] == prefix[1..] + rest;
      assert Step([], prefix[0]) == [];
      assert FoldFrom([], prefix + rest) == FoldFrom([], prefix[1..] + rest);
      LeadingLinesAreDropped(prefix[1..], rest);
    } else {
      assert prefix + rest == rest;
    }
  }

  /**
   * A line that does not start with a speaker name, such as an indented
   * `  Agent: x`, never opens a message: it is appended, trimmed, to the last
   * message after a newline.
   */
  lemma ContinuationLine(acc: seq<Message>, line: string)
    requires |acc| > 0 && !IsSpeakerLine(line) && Trim(line) != ""
    ensures |Step(acc, line)| == |acc|
    ensures Step(acc, line)[..|acc| - 1] == acc[..|acc| - 1]
    ensures Step(acc, line)[|acc| - 1] == acc[|acc| - 1].(content := acc[|acc| - 1].content + "\n" + Trim(line))
  {
  }

  /** Indentation hides a speaker name from the prefix test. */
  lemma IndentedSpeakerIsNotSpeaker(c: char, line: string)
    requires IsWhitespace(c)
    ensures !IsSpeakerLine([c] + line)
  {
    assert ([c] + line)[0] == c;
  }

  // ---------------------------------------------------------------------------
  // Reading back a flattened history

  /** The messages speaker lines open, one per line. */
  function Opened(lines: seq<string>): (ms: seq<Message>)
    ensures |ms| == |lines|
  {
    if |lines| == 0 then [] else [NewMessage(lines[0])] + Opened(lines[1..])
  }

  lemma {:induction false} OpenedReadsEachLine(lines: seq<string>)
    ensures forall i :: 0 <= i < |lines| ==> Opened(lines)[i] == NewMessage(lines[i])
    decreases |lines|
  {
    if |lines| > 0 {
      var tail := lines[1..];
      OpenedReadsEachLine(tail);
      var o := Opened(lines);
      assert o == [NewMessage(lines[0])] + Opened(tail);
      forall i | 0 <= i < |lines| ensures o[i] == NewMessage(lines[i]) {
        if i > 0 {
          assert o[i] == Opened(tail)[i - 1];
          assert tail[i - 1] == lines[i];
        }
      }
    }
  }

  /** Lines that are all speaker lines each open one message, as `NewMessage` reads them. */
  lemma {:induction false} FoldSpeakerLines(acc: seq<Message>, lines: seq<string>)
    requires forall i :: 0 <= i < |lines| ==> IsSpeakerLine(lines[i])
    ensures FoldFrom(acc, lines) == acc + Opened(lines)
    decreases |lines|
  {
    if |lines| > 0 {
      var m := NewMessage(lines[0]);
      var acc' := acc + [m];
      assert Step(acc, lines[0]) == acc';
      FoldSpeakerLines(acc', lines[1..]);
      var o := Opened(lines[1..]);
      assert Opened(lines) == [m] + o;
      AppendAssociates(acc, [m], o);
    }
  }

  /** The filter drops exactly the blank lines: what it keeps is never blank. */
  lemma {:induction false} NonBlankDropsBlank(lines: seq<string>)
    ensures forall i :: 0 <= i < |NonBlank(lines)| ==> Trim(NonBlank(lines)[i]) != ""
    decreases |lines|
  {
    if |lines| > 0 {
      var rest := NonBlank(lines[1..]);
      NonBlankDropsBlank(lines[1..]);
      if Trim(lines[0]) != "" {
        var kept := [lines[0]] + rest;
        forall i | 0 <= i < |kept| ensures Trim(kept[i]) != "" {
          if i > 0 {
            assert kept[i] == rest[i - 1];
          }
        }
      }
    }
  }

  /** Speaker lines are never blank, so the filter keeps a run of them whole. */
  lemma {:induction false} SpeakerLinesAreKept(lines: seq<string>)
    requires forall i :: 0 <= i < |lines| ==> IsSpeakerLine(lines[i])
    ensures NonBlank(lines) == lines
    decreases |lines|
  {
    if |lines| > 0 {
      var rest := lines[1..];
      assert forall i :: 0 <= i < |rest| ==> IsSpeakerLine(rest[i]) by {
        forall i | 0 <= i < |rest| ensures IsSpeakerLine(rest[i]) {
          assert rest[i] == lines[i + 1];
        }
      }
      SpeakerLinesAreKept(rest);
      SpeakerLineIsNotBlank(lines[0]);
      assert lines == [lines[0]] + rest;
    }
  }


  /** The name of a speaker line never contains a colon or a newline, and starts with a letter. */
  lemma SpeakerLabelShape(r: Role)
    ensures ':' !in SpeakerLabel(r) && '\n' !in SpeakerLabel(r)
    ensures |SpeakerLabel(r)| > 0 && !IsWhitespace(SpeakerLabel(r)[0])
  {
  }

  /** A line opened by `Agent:` or `Client:` is a speaker line of that name. */
  lemma NamedLineIsSpeakerLine(name: string, rest: string)
    requires name == "Agent" || name == "Client"
    ensures IsSpeakerLine(name + ":" + rest) && SpeakerRole(name + ":" + rest) == name
  {
    var line := name + ":" + rest;
    assert line[..|name| + 1] == name + ":";
    assert line[0] == name[0];
  }

  /** Trailing whitespace after a colon is trimmed from the text after the colon alone. */
  lemma TrimEndAfterColon(head: string, rest: string)
    ensures TrimEnd(head + ":" + rest) == head + ":" + TrimEnd(rest)
  {
    TrimEndAppend(head + ":", rest);
    if TrimEnd(rest) == [] {
      assert TrimEnd(head + ":") == head + ":";
      assert head + ":" + TrimEnd(rest) == head + ":";
    }
  }

  /** A summary line read back as a message gives its speaker name and its trimmed content. */
  lemma SummaryLineOpens(t: Turn)
    ensures IsSpeakerLine(SummaryLine(t))
    ensures NewMessage(SummaryLine(t)) == Message(SpeakerLabel(t.role), Trim(t.content))
  {
    var name := SpeakerLabel(t.role);
    var rest := " " + t.content;
    SpeakerLabelShape(t.role);
    assert SummaryLine(t) == name + ":" + rest;
    NamedLineIsSpeakerLine(name, rest);
    NewMessageSplitsAtFirstColon(name, rest);
    TrimIgnoresLeadingWhitespace(' ', t.content);
  }

  /** The same once trailing whitespace is removed from the line, as `trim` does to the last line. */
  lemma TrimmedSummaryLineOpens(t: Turn)
    ensures IsSpeakerLine(TrimEnd(SummaryLine(t)))
    ensures NewMessage(TrimEnd(SummaryLine(t))) == Message(SpeakerLabel(t.role), Trim(t.content))
  {
    var name := SpeakerLabel(t.role);
    var rest := " " + t.content;
    SpeakerLabelShape(t.role);
    assert SummaryLine(t) == name + ":" + rest;
    TrimEndAfterColon(name, rest);
    NamedLineIsSpeakerLine(name, TrimEnd(rest));
    NewMessageSplitsAtFirstColon(name, TrimEnd(rest));
    TrimOfTrimEnd(rest);
    TrimIgnoresLeadingWhitespace(' ', t.content);
  }

  /** The summary line of a turn, read back as a message, gives its speaker name and its trimmed content. */
  lemma SummaryLineReadBack(t: Turn)
    ensures IsSpeakerLine(SummaryLine(t))
    ensures NewMessage(SummaryLine(t)) == Message(SpeakerLabel(t.role), Trim(t.content))
    ensures NewMessage(TrimEnd(SummaryLine(t))) == Message(SpeakerLabel(t.role), Trim(t.content))
    ensures IsSpeakerLine(TrimEnd(SummaryLine(t)))
  {
    SummaryLineOpens(t);
    TrimmedSummaryLineOpens(t);
  }

  /** The flattened history with the trailing whitespace of its last line removed. */
  function TrimmedLines(history: seq<Turn>): seq<string>
    requires |history| > 0
  {
    var lines := SummaryLines(history);
    lines[..|lines| - 1] + [TrimEnd(lines[|lines| - 1])]
  }

  /** Trimming the end of a joined text only trims its last piece, when that piece is not blank. */
  lemma TrimEndOfJoin(init: seq<string>, last: string)
    requires |init| > 0 && TrimEnd(last) != []
    ensures TrimEnd(Join(init + [last], '\n')) == Join(init + [TrimEnd(last)], '\n')
  {
    JoinSnoc(init, last, '\n');
    JoinSnoc(init, TrimEnd(last), '\n');
    TrimEndAppend(Join(init, '\n') + ['\n'], last);
  }

  /**
   * `trim` on joined lines whose first character is not whitespace and whose
   * last line is not blank trims the end of the last line and nothing else.
   */
  lemma TrimOfJoinedLines(lines: seq<string>)
    requires |lines| > 0 && |lines[0]| > 0 && !IsWhitespace(lines[0][0])
    requires TrimEnd(lines[|lines| - 1]) != []
    ensures Trim(Join(lines, '\n')) == Join(lines[..|lines| - 1] + [TrimEnd(lines[|lines| - 1])], '\n')
  {
    var n := |lines|;
    var last := lines[n - 1];
    var init := lines[..n - 1];
    var trimmed := init + [TrimEnd(last)];
    if n == 1 {
      assert trimmed == [TrimEnd(last)];
      assert TrimEnd(last)[0] == last[0];
    } else {
      assert lines == init + [last];
      TrimEndOfJoin(init, last);
      JoinStartsWithFirst(trimmed, '\n');
      assert trimmed[0] == lines[0];
      assert Join(trimmed, '\n')[0] == lines[0][0];
    }
  }

  /** `trim` on a flattened history trims the end of its last line and nothing else. */
  lemma TrimFlattenedJoin(history: seq<Turn>)
    requires |history| > 0
    ensures Trim(FlattenHistory(history)) == Join(TrimmedLines(history), '\n')
  {
    var lines := SummaryLines(history);
    SummaryLinesEnds(history);
    TrimOfJoinedLines(lines);
  }

  /** The summary lines start with a speaker's name and end with a line that is not blank. */
  lemma SummaryLinesEnds(history: seq<Turn>)
    requires |history| > 0
    ensures var lines := SummaryLines(history);
      && |lines| == |history| && |lines[0]| > 0 && !IsWhitespace(lines[0][0])
      && TrimEnd(lines[|lines| - 1]) != []
  {
    var lines := SummaryLines(history);
    SpeakerLabelShape(history[0].role);
    assert lines[0] == SummaryLine(history[0]);
    assert lines[0][0] == SpeakerLabel(history[0].role)[0];
    var n := |lines|;
    assert lines[n - 1] == SummaryLine(history[n - 1]);
    TrimmedSummaryLineOpens(history[n - 1]);
    assert TrimEnd(lines[n - 1]) != [] by {
      assert IsSpeakerLine(TrimEnd(lines[n - 1]));
    }
  }

  lemma TrimmedLinesHaveNoNewline(history: seq<Turn>)
    requires |history| > 0
    requires forall i :: 0 <= i < |history| ==> '\n' !in history[i].content
    ensures forall p :: p in TrimmedLines(history) ==> '\n' !in p
  {
    var lines := SummaryLines(history);
    var n := |lines|;
    forall p | p in TrimmedLines(history) ensures '\n' !in p {
      var k :| 0 <= k < n && TrimmedLines(history)[k] == p;
      SummaryLineHasNoNewline(history[k]);
      if k == n - 1 {
        assert TrimEnd(lines[k]) == lines[k][..|TrimEnd(lines[k])|];
      }
    }
  }

  /** The lines the parser splits a flattened history into: one per turn, the last with its end trimmed. */
  lemma TrimFlattenedHistory(history: seq<Turn>)
    requires |history| > 0
    requires forall i :: 0 <= i < |history| ==> '\n' !in history[i].content
    ensures Split(Trim(FlattenHistory(history)), '\n') == TrimmedLines(history)
  {
    TrimFlattenedJoin(history);
    TrimmedLinesHaveNoNewline(history);
    SplitJoin(TrimmedLines(history), '\n');
  }

  lemma JoinStartsWithFirst(parts: seq<string>, sep: char)
    requires |parts| > 0
    ensures |parts[0]| <= |Join(parts, sep)| && Join(parts, sep)[..|parts[0]|] == parts[0]
  {
    if |parts| > 1 {
      assert Join(parts, sep) == parts[0] + ([sep] + Join(parts[1..], sep));
    }
  }

  /** Each line of a flattened history opens the message of its turn. */
  lemma TrimmedLinesOpen(history: seq<Turn>)
    requires |history| > 0
    ensures |TrimmedLines(history)| == |history|
    ensures forall i :: 0 <= i < |history| ==> IsSpeakerLine(TrimmedLines(history)[i])
    ensures forall i :: 0 <= i < |history| ==> Trim(TrimmedLines(history)[i]) != ""
    ensures forall i :: 0 <= i < |history| ==>
              NewMessage(TrimmedLines(history)[i]) == Message(SpeakerLabel(history[i].role), Trim(history[i].content))
  {
    var lines := TrimmedLines(history);
    var n := |history|;
    forall i | 0 <= i < n
      ensures IsSpeakerLine(lines[i]) && Trim(lines[i]) != ""
      ensures NewMessage(lines[i]) == Message(SpeakerLabel(history[i].role), Trim(history[i].content))
    {
      if i < n - 1 {
        assert lines[i] == SummaryLine(history[i]);
        SummaryLineOpens(history[i]);
      } else {
        assert lines[i] == TrimEnd(SummaryLine(history[i]));
        TrimmedSummaryLineOpens(history[i]);
      }
      SpeakerLineIsNotBlank(lines[i]);
    }
  }

  /** A speaker line starts with a letter, so the blank-line filter keeps it. */
  lemma SpeakerLineIsNotBlank(line: string)
    requires IsSpeakerLine(line)
    ensures Trim(line) != ""
  {
    if StartsWith(line, "Agent:") {
      assert line[0] == line[..6][0] == 'A';
    } else {
      assert line[0] == line[..7][0] == 'C';
    }
    assert !AllWhitespace(line);
  }

  /** An empty history flattens to the empty transcript, which shows no message. */
  lemma EmptyTranscriptHasNoMessages()
    ensures Messages("") == []
  {
    assert Trim("") == "";
    assert Split("", '\n') == [""];
    assert NonBlank([""]) == [];
    assert KeptLines("") == [];
  }

  /**
   * Parsing a flattened history gives back one message per turn, in order,
   * labelled `Client` for the caller's turns and `Agent` for all others, with
   * the turn's content trimmed; provided no content holds a line break.
   */
  lemma ParseFlattenedHistory(history: seq<Turn>)
    requires forall i :: 0 <= i < |history| ==> '\n' !in history[i].content
    ensures |Messages(FlattenHistory(history))| == |history|
    ensures forall i :: 0 <= i < |history| ==>
              Messages(FlattenHistory(history))[i] == Message(SpeakerLabel(history[i].role), Trim(history[i].content))
  {
    if |history| == 0 {
      assert FlattenHistory(history) == "";
      EmptyTranscriptHasNoMessages();
    } else {
      var ms := Messages(FlattenHistory(history));
      var lines := TrimmedLines(history);
      NonEmptyHistoryReadsBack(history);
      OpenedReadsEachLine(lines);
      TrimmedLinesOpen(history);
      assert ms == Opened(lines);
    }
  }

  /** A non-empty history parses to the messages its lines open. */
  lemma NonEmptyHistoryReadsBack(history: seq<Turn>)
    requires |history| > 0
    requires forall i :: 0 <= i < |history| ==> '\n' !in history[i].content
    ensures Messages(FlattenHistory(history)) == Opened(TrimmedLines(history))
  {
    var lines := TrimmedLines(history);
    TrimFlattenedHistory(history);
    TrimmedLinesOpen(history);
    SpeakerLinesAreKept(lines);
    assert KeptLines(FlattenHistory(history)) == lines;
    FoldSpeakerLines([], lines);
  }
}
