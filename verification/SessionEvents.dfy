/** The session event vocabulary shared by the loop, its checkers and its projections. */
module SessionEvents {
  import opened Options

  /** An inbox message: its pending identity and its content. */
  datatype Message = Message(id: nat, content: nat)

  /** The two pending lists of an inbox. */
  datatype Target = NextTurn | NextStep

  /** The payload of one `agent/inbox/spliced` event. `removedCount` and `outcome` are optional in the log. */
  datatype Splice = Splice(target: Target, start: int, removedCount: Option<int>, inserted: seq<Message>,
      canceled: bool)

  /** One model tool call with its raw argument text. */
  datatype Call = Call(id: string, name: string, arguments: string)

  /**
   * A settled tool execution, as far as the scheduler reads it; `exec` is the model position whose
   * execution context produced it.
   */
  datatype Execution = Execution(exec: nat, content: nat, concludesTurn: bool, contexts: seq<Message>)

  /** What a `tool/result` event carries: a committed execution, or the stand-in for a call that abort skipped. */
  datatype Outcome = Real(execution: Execution) | Skipped

  datatype CancelCause = User | Parent | Hook | Disposed

  datatype TurnEndReason =
    | Completed
    | Aborted(cause: CancelCause)
    | Blocked
    | Failed
    | MaxTokens
    | Interrupted

  /** A log entry. `Session.append` gives each entry its log position as sequence number. */
  datatype Event =
    | TurnStart(turn: nat)
    | TurnEnd(turn: nat, reason: TurnEndReason)
    | StepStart(turn: nat, step: nat)
    | StepEnd(turn: nat, step: nat)
    | UserMessage(message: Message)
    | AssistantChunk(turn: nat, step: nat, chunk: nat)
    | AssistantMessage(turn: nat, step: nat, interrupted: bool, sources: seq<nat>)
    | ToolCall(turn: nat, step: nat, call: Call)
    | ToolResult(turn: nat, step: nat, callId: string, outcome: Outcome, source: nat)
    | InboxSpliced(splice: Splice)
    | OtherEvent(kind: nat)

  /** Entries that other parties may append while a step runs: inbox mutations and plugin records. */
  predicate Foreign(e: Event) {
    e.InboxSpliced? || e.OtherEvent?
  }

  predicate AllForeign(events: seq<Event>) {
    forall e | e in events :: Foreign(e)
  }

  /** Log positions of the `tool/call` entries at or after `base`, in log order. */
  ghost function CallPositions(events: seq<Event>, base: nat): (ps: seq<nat>)
    ensures forall k | 0 <= k < |ps| :: base <= ps[k] < |events| && events[ps[k]].ToolCall?
    ensures forall j, k | 0 <= j < k < |ps| :: ps[j] < ps[k]
  {
    if |events| <= base then []
    else
      var last := |events| - 1;
      var before := CallPositions(events[..last], base);
      if events[last].ToolCall? then before + [last] else before
  }

  /** Log positions of the `tool/result` entries at or after `base`, in log order. */
  ghost function ResultPositions(events: seq<Event>, base: nat): (ps: seq<nat>)
    ensures forall k | 0 <= k < |ps| :: base <= ps[k] < |events| && events[ps[k]].ToolResult?
    ensures forall j, k | 0 <= j < k < |ps| :: ps[j] < ps[k]
  {
    if |events| <= base then []
    else
      var last := |events| - 1;
      var before := ResultPositions(events[..last], base);
      if events[last].ToolResult? then before + [last] else before
  }

  /**
   * The tool entries of a step, read from its log: the `tool/call` entries are the first
   * `started` model calls in model order, and the `tool/result` entries answer the first
   * `|outcomes|` of them in model order, each citing its own call's position. Nothing else is
   * logged but what other parties append.
   */
  ghost predicate Paired(events: seq<Event>, base: nat, turn: nat, step: nat, calls: seq<Call>, started: nat,
      outcomes: seq<Outcome>)
  {
    var cp := CallPositions(events, base);
    var rp := ResultPositions(events, base);
    && |outcomes| <= started <= |calls|
    && |cp| == started
    && |rp| == |outcomes|
    && (forall k | 0 <= k < started :: events[cp[k]] == ToolCall(turn, step, calls[k]))
    && (forall k | 0 <= k < |outcomes| ::
          cp[k] < rp[k] && events[rp[k]] == ToolResult(turn, step, calls[k].id, outcomes[k], cp[k]))
    && (forall i | base <= i < |events| :: Foreign(events[i]) || events[i].ToolCall? || events[i].ToolResult?)
  }

  lemma PositionsNext(events: seq<Event>, base: nat, e: Event)
    requires base <= |events|
    ensures CallPositions(events + [e], base) == CallPositions(events, base) + (if e.ToolCall? then [|events|] else [])
    ensures ResultPositions(events + [e], base) ==
          ResultPositions(events, base) + (if e.ToolResult? then [|events|] else [])
  {
  }

  lemma PairedEmpty(events: seq<Event>, turn: nat, step: nat, calls: seq<Call>)
    ensures Paired(events, |events|, turn, step, calls, 0, [])
  {
  }

  lemma PairedSize(events: seq<Event>, base: nat, turn: nat, step: nat, calls: seq<Call>, started: nat,
      outcomes: seq<Outcome>)
    requires Paired(events, base, turn, step, calls, started, outcomes)
    ensures |CallPositions(events, base)| == started
  {
  }

  /** Appending the next model call's entry extends the pairing by one started call. */
  lemma PairedCall(events: seq<Event>, base: nat, turn: nat, step: nat, calls: seq<Call>, started: nat,
      outcomes: seq<Outcome>)
    requires base <= |events|
    requires Paired(events, base, turn, step, calls, started, outcomes)
    requires started < |calls|
    ensures Paired(events + [ToolCall(turn, step, calls[started])], base, turn, step, calls, started + 1, outcomes)
    ensures CallPositions(events + [ToolCall(turn, step, calls[started])], base) ==
          CallPositions(events, base) + [|events|]
  {
    hide CallPositions, ResultPositions;
    PositionsNext(events, base, ToolCall(turn, step, calls[started]));
  }

  /** Appending a result for the first unanswered call, citing that call, extends the pairing by one outcome. */
  lemma PairedResult(events: seq<Event>, base: nat, turn: nat, step: nat, calls: seq<Call>, started: nat,
      outcomes: seq<Outcome>, outcome: Outcome)
    requires base <= |events|
    requires Paired(events, base, turn, step, calls, started, outcomes)
    requires |outcomes| < started
    ensures var e := ToolResult(turn, step, calls[|outcomes|].id, outcome, CallPositions(events, base)[|outcomes|]);
            && Paired(events + [e], base, turn, step, calls, started, outcomes + [outcome])
            && CallPositions(events + [e], base) == CallPositions(events, base)
  {
    hide CallPositions, ResultPositions;
    var cp := CallPositions(events, base);
    PositionsNext(events, base, ToolResult(turn, step, calls[|outcomes|].id, outcome, cp[|outcomes|]));
  }

  lemma PairedOther(events: seq<Event>, base: nat, e: Event, turn: nat, step: nat, calls: seq<Call>, started: nat,
      outcomes: seq<Outcome>)
    requires base <= |events| && Foreign(e)
    requires Paired(events, base, turn, step, calls, started, outcomes)
    ensures Paired(events + [e], base, turn, step, calls, started, outcomes)
    ensures CallPositions(events + [e], base) == CallPositions(events, base)
  {
  }

  /** Foreign entries leave the pairing alone. */
  lemma {:induction false} PairedForeign(events: seq<Event>, base: nat, foreign: seq<Event>, turn: nat, step: nat,
      calls: seq<Call>, started: nat, outcomes: seq<Outcome>)
    requires base <= |events|
    requires Paired(events, base, turn, step, calls, started, outcomes)
    requires AllForeign(foreign)
    ensures Paired(events + foreign, base, turn, step, calls, started, outcomes)
    ensures CallPositions(events + foreign, base) == CallPositions(events, base)
    decreases |foreign|
  {
    hide Paired, CallPositions;
    if foreign == [] {
      assert events + foreign == events;
    } else {
      assert foreign[0] in foreign;
      PairedOther(events, base, foreign[0], turn, step, calls, started, outcomes);
      PairedForeign(events + [foreign[0]], base, foreign[1..], turn, step, calls, started, outcomes);
      assert events + [foreign[0]] + foreign[1..] == events + foreign;
    }
  }
}
