/**
 * The calls table of components/calls/CallsTable.tsx: each row shows the
 * direction of the call, its parties, a status badge and its duration as
 * `m:ss`. The same duration format, badge and direction label are used by
 * the call details card (module CallDetails).
 */
module CallsTable {
  import opened Options
  import opened JsString
  import TwimlRoute

  // ---------------------------------------------------------------------------
  // Durations

  /**
   * JavaScript's `a % b`: the remainder of the division truncated toward zero,
   * so it takes the sign of `a` (Dafny's `%` is never negative).
   */
  function TruncatedRemainder(a: int, b: int): (r: int)
    requires b > 0
    ensures a >= 0 ==> r == a % b
    ensures a < 0 ==> -b < r <= 0
  {
    if a >= 0 then a % b else -((-a) % b)
  }

  /**
   * `formatDuration(seconds)`: the minutes `Math.floor(seconds / 60)`, a colon,
   * then `seconds % 60` left-padded with '0' to two characters. For a
   * positive divisor Dafny's `/` is the floor, as `Math.floor` is.
   * A count that is not negative reads back from its text.
   */
  function FormatDuration(seconds: int): (text: string)
    ensures seconds >= 0 ==> ParseDuration(text) == Some(seconds)
  {
    var text := IntToString(seconds / 60) + ":" + PadStart(IntToString(TruncatedRemainder(seconds, 60)), 2, '0');
    assert seconds >= 0 ==> ParseDuration(text) == Some(seconds) by {
      if seconds >= 0 {
        FormattedReadsBack(seconds);
      }
    }
    text
  }

  lemma FormattedDigits(s: nat)
    ensures var text := IntToString(s / 60) + ":" + PadStart(IntToString(TruncatedRemainder(s, 60)), 2, '0');
      && |text| >= 4 && text[|text| - 3] == ':'
      && AllDigits(text[..|text| - 3]) && DigitsValue(text[..|text| - 3]) == s / 60
      && AllDigits(text[|text| - 2..]) && DigitsValue(text[|text| - 2..]) == s % 60
  {
    var m := IntToString(s / 60);
    var t := PadStart(IntToString(TruncatedRemainder(s, 60)), 2, '0');
    assert |m| >= 1 && AllDigits(m) && DigitsValue(m) == s / 60 by {
      assert m == NatToString(s / 60);
    }
    assert |t| == 2 && AllDigits(t) && DigitsValue(t) == s % 60 by {
      SecondsAreTwoDigits(s);
    }
    DigitsAroundColon(m, t, s / 60, s % 60);
  }

  lemma DigitsAroundColon(m: string, t: string, minutes: nat, seconds: nat)
    requires |m| >= 1 && AllDigits(m) && DigitsValue(m) == minutes
    requires |t| == 2 && AllDigits(t) && DigitsValue(t) == seconds
    ensures var text := m + ":" + t;
      && |text| >= 4 && text[|text| - 3] == ':'
      && AllDigits(text[..|text| - 3]) && DigitsValue(text[..|text| - 3]) == minutes
      && AllDigits(text[|text| - 2..]) && DigitsValue(text[|text| - 2..]) == seconds
  {
    ColonJoined(m, t);
  }

  /** Minutes and seconds digits as `FormatDuration` lays them out read back as their count. */
  lemma FormattedReadsBack(s: nat)
    ensures ParseDuration(IntToString(s / 60) + ":" + PadStart(IntToString(TruncatedRemainder(s, 60)), 2, '0')) == Some(s)
  {
    FormattedDigits(s);
  }

  lemma ColonJoined(m: string, t: string)
    requires |m| >= 1 && |t| == 2
    ensures var text := m + ":" + t;
      |text| >= 4 && text[|text| - 3] == ':' && text[..|text| - 3] == m && text[|text| - 2..] == t
  {
    var text := m + ":" + t;
    assert text[..|text| - 3] == m;
    assert text[|text| - 2..] == t;
  }

  /**
   * Reads an `m:ss` text back: decimal minutes, a colon, then two digits
   * below 60 ending the text.
   */
  function ParseDuration(text: string): (r: Option<nat>)
    ensures r.Some? ==> ':' in text
  {
    if |text| >= 4 && text[|text| - 3] == ':'
       && AllDigits(text[..|text| - 3]) && AllDigits(text[|text| - 2..]) && DigitsValue(text[|text| - 2..]) < 60
    then Some(60 * DigitsValue(text[..|text| - 3]) + DigitsValue(text[|text| - 2..]))
    else None
  }

  /** The seconds part: `s % 60` as exactly two digits. */
  lemma SecondsAreTwoDigits(s: nat)
    ensures var t := PadStart(IntToString(TruncatedRemainder(s, 60)), 2, '0');
            |t| == 2 && AllDigits(t) && DigitsValue(t) == s % 60
  {
    var d := NatToString(s % 60);
    var t := PadStart(d, 2, '0');
    if |d| == 1 {
      assert t == "0" + d;
      assert t[..1] == "0";
      assert DigitsValue(t[..1]) == 0 by {
        assert t[..1][..0] == [];
      }
    } else {
      assert |d| == 2 by {
        if |d| > 2 {
          DigitsAtLeast(d);
        }
      }
    }
  }

  /** A digit string with no leading zero and three or more digits denotes at least 100. */
  lemma {:induction false} DigitsAtLeast(d: string)
    requires AllDigits(d) && |d| >= 3 && d[0] != '0'
    ensures DigitsValue(d) >= 100
    decreases |d|
  {
    var init := d[..|d| - 1];
    assert init[0] == d[0];
    if |init| >= 3 {
      DigitsAtLeast(init);
    } else {
      assert |init| == 2;
      assert init[..1] == [d[0]];
      assert DigitsValue(init[..1]) == DigitValue(d[0]) by {
        assert init[..1][..0] == [];
      }
    }
  }

  lemma DigitsHaveNoColon(d: string)
    requires AllDigits(d)
    ensures ':' !in d
  {
    forall k | 0 <= k < |d| ensures d[k] != ':' {
      assert IsDigit(d[k]);
    }
  }

  /** A non-negative duration formats as its minutes, a colon and its two-digit seconds. */
  lemma FormatDurationParts(s: nat)
    ensures Split(FormatDuration(s), ':')
            == [NatToString(s / 60), PadStart(IntToString(TruncatedRemainder(s, 60)), 2, '0')]
  {
    var m := NatToString(s / 60);
    var t := PadStart(IntToString(TruncatedRemainder(s, 60)), 2, '0');
    SecondsAreTwoDigits(s);
    assert FormatDuration(s) == m + ":" + t;
    SplitDigitsAtColon(m, t);
  }

  lemma SplitDigitsAtColon(m: string, t: string)
    requires AllDigits(m) && AllDigits(t)
    ensures Split(m + ":" + t, ':') == [m, t]
  {
    DigitsHaveNoColon(m);
    DigitsHaveNoColon(t);
    assert m + ":" + t == m + [':'] + t;
    SplitAtFirst(m, ':', t);
    SplitWithoutSeparator(t, ':');
  }

  /** Two different non-negative durations never display the same. */
  lemma FormatDurationInjective(a: nat, b: nat)
    ensures FormatDuration(a) == FormatDuration(b) ==> a == b
  {
  }

  /** A duration under ten minutes whose seconds are known. */
  lemma FormatShortDuration(s: nat, m: nat, sec: nat)
    requires m < 10 && sec < 60 && s == 60 * m + sec
    ensures FormatDuration(s) == [DigitChar(m), ':'] + PadStart(NatToString(sec), 2, '0')
  {
    MinutesAndSeconds(s, m, sec);
    FormatDurationOfParts(s, m, sec);
    SingleDigitMinutes(m, PadStart(NatToString(sec), 2, '0'));
  }

  lemma MinutesAndSeconds(s: nat, m: nat, sec: nat)
    requires sec < 60 && s == 60 * m + sec
    ensures s / 60 == m && TruncatedRemainder(s, 60) == sec
  {
  }

  lemma FormatDurationOfParts(s: nat, m: nat, sec: nat)
    requires s / 60 == m && TruncatedRemainder(s, 60) == sec
    ensures FormatDuration(s) == NatToString(m) + ":" + PadStart(NatToString(sec), 2, '0')
  {
  }

  lemma SingleDigitMinutes(m: nat, rest: string)
    requires m < 10
    ensures NatToString(m) + ":" + rest == [DigitChar(m), ':'] + rest
  {
    assert NatToString(m) + ":" == [DigitChar(m), ':'];
  }

  /** The durations of the table's sample calls. */
  lemma SampleDurations()
    ensures FormatDuration(125) == "2:05"
    ensures FormatDuration(347) == "5:47"
    ensures FormatDuration(12) == "0:12"
    ensures FormatDuration(0) == "0:00"
  {
    FormatShortDuration(125, 2, 5);
    assert PadStart(NatToString(5), 2, '0') == "05";
    FormatShortDuration(347, 5, 47);
    assert NatToString(47) == NatToString(4) + [DigitChar(7)];
    FormatShortDuration(12, 0, 12);
    assert NatToString(12) == NatToString(1) + [DigitChar(2)];
    FormatShortDuration(0, 0, 0);
    assert PadStart(NatToString(0), 2, '0') == "00";
  }

  /** A negative count is not rejected: both parts carry the sign, `-5` showing as `-1:-5`. */
  lemma NegativeDuration()
    ensures FormatDuration(-5) == "-1:-5"
  {
    assert -5 / 60 == -1;
    assert NatToString(1) == "1" && NatToString(5) == "5";
  }

  /** The duration cell: `-` when the duration is null, the formatted duration otherwise. */
  function DurationCell(duration: Option<int>): (r: string)
    ensures r == "-" <==> duration == None
  {
    match duration
    case None => "-"
    case Some(s) =>
      assert FormatDuration(s)[|IntToString(s / 60)|] == ':';
      FormatDuration(s)
  }

  /** A shown duration reads back as the call's duration; the null marker reads as nothing. */
  lemma DurationCellReadBack(duration: Option<int>)
    requires duration.Some? ==> duration.value >= 0
    ensures ParseDuration(DurationCell(duration)) == if duration.Some? then Some(duration.value as nat) else None
  {
    if duration.Some? {
    } else {
      assert ':' !in "-";
    }
  }

  // ---------------------------------------------------------------------------
  // Status badge

  datatype Variant = Default | Secondary | Destructive | Outline

  datatype Badge = Badge(content: string, variant: Variant)

  /**
   * `CallStatusBadge`: the five known statuses get a French label and their
   * own variant; any other status is shown as it is, outlined.
   */
  function StatusBadge(status: string): (b: Badge)
    ensures b.variant == Default <==> status == "in-progress"
    ensures b.variant == Secondary <==> status == "completed"
    ensures b.variant == Destructive <==> status == "failed"
    ensures b.variant == Outline <==> status !in {"in-progress", "completed", "failed"}
    ensures status !in {"in-progress", "completed", "failed", "busy", "no-answer"} ==> b.content == status
  {
    match status
    case "in-progress" => Badge("En cours", Default)
    case "completed" => Badge("Terminé", Secondary)
    case "failed" => Badge("Échoué", Destructive)
    case "busy" => Badge("Occupé", Outline)
    case "no-answer" => Badge("Sans réponse", Outline)
    case _ => Badge(status, Outline)
  }

  /** The status a badge stands for: the inverse of `StatusBadge`. */
  function BadgeStatus(b: Badge): string {
    if b == Badge("En cours", Default) then "in-progress"
    else if b == Badge("Terminé", Secondary) then "completed"
    else if b == Badge("Échoué", Destructive) then "failed"
    else if b == Badge("Occupé", Outline) then "busy"
    else if b == Badge("Sans réponse", Outline) then "no-answer"
    else b.content
  }

  /**
   * A badge tells which status the call has, unless the status is itself
   * one of the two outlined French labels.
   */
  lemma BadgeStatusRoundTrip(status: string)
    requires status != "Occupé" && status != "Sans réponse"
    ensures BadgeStatus(StatusBadge(status)) == status
  {
    if status !in {"in-progress", "completed", "failed", "busy", "no-answer"} {
      assert StatusBadge(status) == Badge(status, Outline);
    }
  }

  /** The exception: a raw status spelled like an outlined label shows the same badge as the status it names. */
  lemma OutlinedLabelsCollide()
    ensures StatusBadge("Occupé") == StatusBadge("busy")
    ensures StatusBadge("Sans réponse") == StatusBadge("no-answer")
  {
  }

  /** A call whose last status ended it never shows the in-progress badge. */
  lemma EndedCallNeverInProgress(status: string)
    requires status in TwimlRoute.TerminalStatuses
    ensures StatusBadge(status).variant != Default
    ensures StatusBadge(status).content != "En cours"
  {
  }

  // ---------------------------------------------------------------------------
  // Direction and rows

  /** `Sortant` for an outbound call; any other direction shows `Entrant`. */
  function DirectionLabel(direction: string): (r: string)
    ensures r == "Sortant" <==> direction == "outbound"
    ensures r == "Sortant" || r == "Entrant"
  {
    if direction == "outbound" then "Sortant" else "Entrant"
  }

  /** The fields of a call the table receives; `duration` may be null. */
  datatype Call = Call(
    id: string, twilioSid: string, from: string, to: string,
    status: string, direction: string, duration: Option<int>, createdAt: string)

  /** The cells of one row, the date left out. */
  datatype Row = Row(direction: string, from: string, to: string, status: Badge, duration: string)

  function RowOf(call: Call): (r: Row)
    ensures r.from == call.from && r.to == call.to
    ensures r.duration == "-" <==> call.duration == None
    ensures r.direction == "Sortant" <==> call.direction == "outbound"
  {
    Row(DirectionLabel(call.direction), call.from, call.to, StatusBadge(call.status), DurationCell(call.duration))
  }

  /**
   * A row shows enough to recover the call's status (outside the two
   * colliding labels) and its duration.
   */
  lemma RowReadBack(call: Call)
    requires call.status != "Occupé" && call.status != "Sans réponse"
    requires call.duration.Some? ==> call.duration.value >= 0
    ensures BadgeStatus(RowOf(call).status) == call.status
    ensures ParseDuration(RowOf(call).duration) == if call.duration.Some? then Some(call.duration.value as nat) else None
  {
    BadgeStatusRoundTrip(call.status);
    DurationCellReadBack(call.duration);
  }
}
