/**
 * The call details card of components/calls/CallDetails.tsx. Its
 * `formatDuration` and `CallStatusBadge` are copies of those of the calls
 * table, so the card is modelled with the definitions of module CallsTable;
 * unlike the table it always formats the duration, and it shows the agent
 * only when the call names one.
 */
module CallDetails {
  import opened Options
  import opened CallsTable

  /** The call the card receives: the duration is a number, never null. */
  datatype DetailedCall = DetailedCall(
    id: string, twilioSid: string, from: string, to: string,
    status: string, direction: string, duration: int,
    recordingUrl: Option<string>, agentId: Option<string>, createdAt: string)

  /** What the card shows, the date left out. */
  datatype Card = Card(
    direction: string, status: Badge, from: string, to: string,
    duration: string, agent: Option<string>, twilioSid: string)

  /** `{call.agentId && ...}`: the agent line appears only for a non-empty agent id. */
  function AgentLine(agentId: Option<string>): (r: Option<string>)
    ensures r.Some? <==> agentId.Some? && agentId.value != ""
    ensures r.Some? ==> r.value == agentId.value
  {
    if agentId.Some? && agentId.value != "" then agentId else None
  }

  function CardOf(call: DetailedCall): (c: Card)
    ensures c.from == call.from && c.to == call.to && c.twilioSid == call.twilioSid
    ensures c.direction == "Sortant" <==> call.direction == "outbound"
    ensures c.agent.Some? <==> call.agentId.Some? && call.agentId.value != ""
  {
    Card(DirectionLabel(call.direction), StatusBadge(call.status), call.from, call.to,
         FormatDuration(call.duration), AgentLine(call.agentId), call.twilioSid)
  }

  /** The same call as the table sees it. */
  function AsTableCall(call: DetailedCall): CallsTable.Call {
    CallsTable.Call(call.id, call.twilioSid, call.from, call.to, call.status, call.direction,
                    Some(call.duration), call.createdAt)
  }

  /**
   * The card and the table agree on every cell they share: the same direction
   * label, badge, parties and duration text.
   */
  lemma CardAgreesWithRow(call: DetailedCall)
    ensures var row := RowOf(AsTableCall(call));
            var card := CardOf(call);
            card.direction == row.direction && card.status == row.status
            && card.from == row.from && card.to == row.to && card.duration == row.duration
  {
    var row := RowOf(AsTableCall(call));
    assert row.duration == DurationCell(Some(call.duration));
  }

  /**
   * The card never shows the table's null marker, and its duration and badge
   * read back as the call's own (outside the two colliding labels).
   */
  lemma CardReadBack(call: DetailedCall)
    requires call.duration >= 0
    requires call.status != "Occupé" && call.status != "Sans réponse"
    ensures CardOf(call).duration != "-"
    ensures ParseDuration(CardOf(call).duration) == Some(call.duration as nat)
    ensures BadgeStatus(CardOf(call).status) == call.status
  {
    CardAgreesWithRow(call);
    RowReadBack(AsTableCall(call));
    DurationCellReadBack(Some(call.duration));
  }
}
