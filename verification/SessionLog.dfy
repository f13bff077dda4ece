/**
 * What a good session log is, three times: the turn/step word a driver writes, and the two
 * checkers that read a finished log, `validateSessionLog` and `assertTurnChoreography`.
 */
module SessionLog {
  import opened Options
  import opened SessionEvents

  // ----- the turn/step word -----

  /** Where a step is: its claimed input, its streamed attempts, its answer, then the tool entries. */
  datatype StepPhase =
    | Opening
    | Streaming
    | Answered(pending: seq<string>)  // unanswered tool calls, in model order
    | Closed                          // an interrupted answer: nothing but the step's end may follow

  /** The state of the word after a log: its last turn, the turn's last step, the step's phase. */
  datatype Mode =
    | Outside(turn: nat)
    | InTurn(turn: nat, step: nat)
    | InStep(turn: nat, step: nat, phase: StepPhase)
    | Bad

  /** Turn numbers increase by one, steps count from one, and a step is answered at most once. */
  function Next(m: Mode, e: Event): Mode {
    if Foreign(e) || m.Bad? then m
    else
      match m
      case Outside(last) => if e.TurnStart? && e.turn == last + 1 then InTurn(e.turn, 0) else Bad
      case InTurn(turn, step) =>
        if e.StepStart? && e.turn == turn && e.step == step + 1 then InStep(turn, step + 1, Opening)
        else if e.TurnEnd? && e.turn == turn then Outside(turn)
        else Bad
      case InStep(turn, step, phase) =>
        if e == StepEnd(turn, step) then InTurn(turn, step)
        else
          match e
          case UserMessage(_) => if phase.Opening? then m else Bad
          case AssistantChunk(t, s, _) =>
            if t == turn && s == step && (phase.Opening? || phase.Streaming?) then InStep(turn, step, Streaming)
            else Bad
          case AssistantMessage(t, s, interrupted, _) =>
            if t == turn && s == step && (phase.Opening? || phase.Streaming?)
            then InStep(turn, step, if interrupted then Closed else Answered([])) else Bad
          case ToolCall(t, s, call) =>
            if t == turn && s == step && phase.Answered? then InStep(turn, step, Answered(phase.pending + [call.id]))
            else Bad
          case ToolResult(t, s, callId, _, _) =>
            if t == turn && s == step && phase.Answered? && phase.pending != [] && phase.pending[0] == callId
            then InStep(turn, step, Answered(phase.pending[1..])) else Bad
          case _ => Bad
  }

  function Scan(log: seq<Event>): Mode {
    if log == [] then Outside(0) else Next(Scan(log[..|log| - 1]), log[|log| - 1])
  }

  lemma ScanNext(log: seq<Event>, e: Event)
    ensures Scan(log + [e]) == Next(Scan(log), e)
  {
  }

  /** Every prefix of a good word is good. */
  lemma {:induction false} ScanPrefix(log: seq<Event>, n: nat)
    requires n <= |log| && !Scan(log).Bad?
    ensures !Scan(log[..n]).Bad?
    decreases |log|
  {
    if n < |log| {
      ScanPrefix(log[..|log| - 1], n);
      assert log[..|log| - 1][..n] == log[..n];
    } else {
      assert log[..n] == log;
    }
  }

  lemma {:induction false} ScanForeign(log: seq<Event>, foreign: seq<Event>)
    requires AllForeign(foreign)
    ensures Scan(log + foreign) == Scan(log)
    decreases |foreign|
  {
    if foreign == [] {
      assert log + foreign == log;
    } else {
      assert foreign[0] in foreign;
      ScanNext(log, foreign[0]);
      ScanForeign(log + [foreign[0]], foreign[1..]);
      assert log + [foreign[0]] + foreign[1..] == log + foreign;
    }
  }

  /** The number a resumed driver continues from: the last `turn/start` of the log, or zero. */
  function LastTurn(log: seq<Event>): nat {
    if log == [] then 0
    else if log[|log| - 1].TurnStart? then log[|log| - 1].turn
    else LastTurn(log[..|log| - 1])
  }

  lemma {:induction false} LastTurnOfScan(log: seq<Event>)
    requires !Scan(log).Bad?
    ensures Scan(log).turn == LastTurn(log)
  {
    if log != [] {
      LastTurnOfScan(log[..|log| - 1]);
    }
  }

  // ----- the tool scheduler's contract is a tool phase of the word -----

  /** The ids of `calls[from..to]`. */
  function CallIds(calls: seq<Call>, from: nat, to: nat): (ids: seq<string>)
    requires from <= to <= |calls|
    ensures |ids| == to - from
  {
    seq(to - from, i requires 0 <= i < to - from => calls[from + i].id)
  }

  /** A step's paired tool entries, complete or not, continue the word with the unanswered calls pending. */
  lemma {:induction false} PairedIsToolPhase(events: seq<Event>, base: nat, turn: nat, step: nat, calls: seq<Call>,
      started: nat, outcomes: seq<Outcome>)
    requires base <= |events| && Scan(events[..base]) == InStep(turn, step, Answered([]))
    requires Paired(events, base, turn, step, calls, started, outcomes)
    ensures |outcomes| <= started <= |calls|
    ensures Scan(events) == InStep(turn, step, Answered(CallIds(calls, |outcomes|, started)))
    decreases |events|
  {
    hide Paired, CallPositions, ResultPositions, Next, CallIds;
    if |events| == base {
      assert events[..base] == events;
      PairedNothing(events, turn, step, calls, started, outcomes);
    } else {
      var last := |events| - 1;
      var prefix, e := events[..last], events[last];
      assert prefix[..base] == events[..base];
      if e.ToolCall? {
        PairedWithoutCall(events, base, turn, step, calls, started, outcomes);
        PairedIsToolPhase(prefix, base, turn, step, calls, started - 1, outcomes);
        CallExtends(turn, step, calls, |outcomes|, started - 1);
      } else if e.ToolResult? {
        PairedWithoutResult(events, base, turn, step, calls, started, outcomes);
        PairedIsToolPhase(prefix, base, turn, step, calls, started, outcomes[..|outcomes| - 1]);
        ResultShortens(turn, step, calls, |outcomes| - 1, started, e);
      } else {
        PairedWithoutOther(events, base, turn, step, calls, started, outcomes);
        PairedIsToolPhase(prefix, base, turn, step, calls, started, outcomes);
        ForeignStays(Scan(prefix), e);
      }
    }
  }

  lemma ForeignStays(m: Mode, e: Event)
    requires Foreign(e)
    ensures Next(m, e) == m
  {
  }

  lemma CallExtends(turn: nat, step: nat, calls: seq<Call>, answered: nat, started: nat)
    requires answered <= started < |calls|
    ensures Next(InStep(turn, step, Answered(CallIds(calls, answered, started))), ToolCall(turn, step, calls[started]))
         == InStep(turn, step, Answered(CallIds(calls, answered, started + 1)))
  {
    assert CallIds(calls, answered, started + 1) == CallIds(calls, answered, started) + [calls[started].id];
  }

  lemma ResultShortens(turn: nat, step: nat, calls: seq<Call>, answered: nat, started: nat, e: Event)
    requires answered < started <= |calls|
    requires e.ToolResult? && e.turn == turn && e.step == step && e.callId == calls[answered].id
    ensures Next(InStep(turn, step, Answered(CallIds(calls, answered, started))), e)
         == InStep(turn, step, Answered(CallIds(calls, answered + 1, started)))
  {
    assert CallIds(calls, answered, started)[1..] == CallIds(calls, answered + 1, started);
  }

  lemma PairedNothing(events: seq<Event>, turn: nat, step: nat, calls: seq<Call>, started: nat, outcomes: seq<Outcome>)
    requires Paired(events, |events|, turn, step, calls, started, outcomes)
    ensures outcomes == [] && started == 0 && CallIds(calls, 0, 0) == []
  {
  }

  lemma PairedWithoutCall(events: seq<Event>, base: nat, turn: nat, step: nat, calls: seq<Call>, started: nat,
      outcomes: seq<Outcome>)
    requires base < |events| && events[|events| - 1].ToolCall?
    requires Paired(events, base, turn, step, calls, started, outcomes)
    ensures |outcomes| < started <= |calls| && events[|events| - 1] == ToolCall(turn, step, calls[started - 1])
    ensures Paired(events[..|events| - 1], base, turn, step, calls, started - 1, outcomes)
  {
  }

  lemma PairedWithoutResult(events: seq<Event>, base: nat, turn: nat, step: nat, calls: seq<Call>, started: nat,
      outcomes: seq<Outcome>)
    requires base < |events| && events[|events| - 1].ToolResult?
    requires Paired(events, base, turn, step, calls, started, outcomes)
    ensures 0 < |outcomes| <= started <= |calls|
    ensures var e, k := events[|events| - 1], |outcomes| - 1;
            && e.ToolResult? && e.turn == turn && e.step == step && e.callId == calls[k].id
            && Paired(events[..|events| - 1], base, turn, step, calls, started, outcomes[..k])
  {
    var prefix := events[..|events| - 1];
    var cp, rp := CallPositions(events, base), ResultPositions(events, base);
    assert cp == CallPositions(prefix, base);
    assert rp == ResultPositions(prefix, base) + [|events| - 1];
    var k := |outcomes| - 1;
    assert events[rp[k]] == ToolResult(turn, step, calls[k].id, outcomes[k], cp[k]);
  }

  lemma PairedWithoutOther(events: seq<Event>, base: nat, turn: nat, step: nat, calls: seq<Call>, started: nat,
      outcomes: seq<Outcome>)
    requires base < |events| && !events[|events| - 1].ToolResult? && !events[|events| - 1].ToolCall?
    requires Paired(events, base, turn, step, calls, started, outcomes)
    ensures Foreign(events[|events| - 1]) && Paired(events[..|events| - 1], base, turn, step, calls, started, outcomes)
  {
  }

  // ----- validateSessionLog -----

  /** A stored entry with the sequence number it carries. */
  datatype Record = Record(seqNo: int, event: Event)

  datatype StructureCode = SeqGap | SeqNonMonotonic | TurnUnclosed | StepOutsideTurn | StepUnclosed

  datatype StructureViolation = StructureViolation(code: StructureCode, at: int)

  function Entries(records: seq<Record>): (log: seq<Event>)
    ensures |log| == |records| && forall i | 0 <= i < |log| :: log[i] == records[i].event
  {
    seq(|records|, i requires 0 <= i < |records| => records[i].event)
  }

  ghost predicate Contiguous(records: seq<Record>) {
    forall i | 0 <= i < |records| :: records[i].seqNo == i
  }

  /** Some turn started before `n` and none has ended since. */
  ghost predicate TurnOpen(log: seq<Event>, n: nat) {
    exists s: nat | s < n && n <= |log| :: log[s].TurnStart? && forall m | s < m < n :: !log[m].TurnEnd?
  }

  predicate ClosesStep(e: Event) {
    e.StepEnd? || e.TurnStart? || e.TurnEnd?
  }

  /** Some step started before `n` and no step end or turn boundary has followed. */
  ghost predicate StepOpen(log: seq<Event>, n: nat) {
    exists s: nat | s < n && n <= |log| :: log[s].StepStart? && forall m | s < m < n :: !ClosesStep(log[m])
  }

  /** Steps start and end inside what they belong to, and no turn is left open. */
  ghost predicate WellBracketed(log: seq<Event>) {
    && (forall i: nat | i < |log| ::
          && (log[i].StepStart? || log[i].TurnEnd? ==> TurnOpen(log, i))
          && (log[i].StepEnd? ==> StepOpen(log, i)))
    && !TurnOpen(log, |log|)
  }

  /** What a reported violation says about the log: everything before it was in order, and this is not. */
  ghost predicate Explains(records: seq<Record>, v: StructureViolation) {
    var log := Entries(records);
    match v.code
    case SeqNonMonotonic =>
      FirstOutOfSequence(records, v.at) && exists i: nat | i < |records| :: records[i].seqNo == v.at < i
    case SeqGap => FirstOutOfSequence(records, v.at) && exists i: nat | i < |records| :: records[i].seqNo == v.at > i
    case StepOutsideTurn => 0 <= v.at < |log| && log[v.at].StepStart? && !TurnOpen(log, v.at)
    case StepUnclosed => 0 <= v.at < |log| && log[v.at].StepEnd? && !StepOpen(log, v.at)
    case TurnUnclosed =>
      (0 <= v.at < |log| && log[v.at].TurnEnd? && !TurnOpen(log, v.at)) || (v.at == |log| - 1 && TurnOpen(log, |log|))
  }

  ghost predicate FirstOutOfSequence(records: seq<Record>, seqNo: int) {
    exists i: nat | i < |records| :: records[i].seqNo == seqNo != i && forall j | 0 <= j < i :: records[j].seqNo == j
  }

  lemma OpensAfter(log: seq<Event>, i: nat)
    requires i < |log|
    ensures TurnOpen(log, i + 1) <==> log[i].TurnStart? || (TurnOpen(log, i) && !log[i].TurnEnd?)
    ensures StepOpen(log, i + 1) <==> log[i].StepStart? || (StepOpen(log, i) && !ClosesStep(log[i]))
  {
  }

  /**
   * The structural check stops at the first violation. It is silent exactly when sequence numbers
   * are contiguous and the log is well bracketed; its last branch is never taken.
   */
  method ValidateSessionLog(records: seq<Record>) returns (violations: seq<StructureViolation>)
    ensures violations == [] <==> Contiguous(records) && WellBracketed(Entries(records))
    ensures |violations| <= 1 && forall v | v in violations :: Explains(records, v)
  {
    for i := 0 to |records|
      invariant forall j | 0 <= j < i :: records[j].seqNo == j
    {
      if records[i].seqNo != i {
        return [StructureViolation(if records[i].seqNo < i then SeqNonMonotonic else SeqGap, records[i].seqNo)];
      }
    }
    ghost var log := Entries(records);
    var openTurn: Option<nat>, openStep: Option<nat> := None, None;
    for i := 0 to |records|
      invariant openTurn.Some? <==> TurnOpen(log, i)
      invariant openStep.Some? <==> StepOpen(log, i)
      invariant openStep.Some? ==> openTurn.Some?
      invariant forall j: nat | j < i ::
                  && (log[j].StepStart? || log[j].TurnEnd? ==> TurnOpen(log, j))
                  && (log[j].StepEnd? ==> StepOpen(log, j))
    {
      OpensAfter(log, i);
      match records[i].event {
        case TurnStart(turn) => openTurn, openStep := Some(turn), None;
        case StepStart(_, step) =>
          if openTurn.None? { return [StructureViolation(StepOutsideTurn, i)]; }
          openStep := Some(step);
        case StepEnd(_, _) =>
          if openStep.None? { return [StructureViolation(StepUnclosed, i)]; }
          openStep := None;
        case TurnEnd(_, _) =>
          if openTurn.None? { return [StructureViolation(TurnUnclosed, i)]; }
          openTurn, openStep := None, None;
        case _ =>
      }
    }
    var last := if |records| > 0 then records[|records| - 1].seqNo else 0;
    if openTurn.Some? { return [StructureViolation(TurnUnclosed, last)]; }
    if openStep.Some? { assert false; }
    return [];
  }

  lemma NothingOpen(log: seq<Event>)
    ensures !TurnOpen(log, 0) && !StepOpen(log, 0) && Scan(log[..0]) == Outside(0)
  {
  }

  lemma {:induction false} ScanOpens(log: seq<Event>, n: nat)
    requires n <= |log| && !Scan(log[..n]).Bad?
    ensures TurnOpen(log, n) <==> !Scan(log[..n]).Outside?
    ensures StepOpen(log, n) <==> Scan(log[..n]).InStep?
  {
    hide TurnOpen, StepOpen, Scan;
    if n == 0 {
      NothingOpen(log);
    } else {
      assert log[..n] == log[..n - 1] + [log[n - 1]];
      ScanNext(log[..n - 1], log[n - 1]);
      ScanOpens(log, n - 1);
      OpensAfter(log, n - 1);
    }
  }

  /** A closed turn/step word passes the structural check. */
  lemma ClosedIsWellBracketed(log: seq<Event>)
    requires Scan(log).Outside?
    ensures WellBracketed(log)
  {
    forall i: nat | i < |log|
      ensures (log[i].StepStart? || log[i].TurnEnd? ==> TurnOpen(log, i)) && (log[i].StepEnd? ==> StepOpen(log, i))
    {
      ScanPrefix(log, i);
      ScanPrefix(log, i + 1);
      assert log[..i + 1] == log[..i] + [log[i]];
      ScanNext(log[..i], log[i]);
      ScanOpens(log, i);
    }
    assert log[..|log|] == log;
    ScanOpens(log, |log|);
  }

  /** The structural check accepts logs that are not turn/step words: here a turn starts inside a turn. */
  lemma WellBracketedIsWeaker() returns (log: seq<Event>)
    ensures WellBracketed(log) && Scan(log).Bad?
  {
    log := [TurnStart(1), TurnStart(2), TurnEnd(2, Completed)];
    assert log[..2] == [TurnStart(1), TurnStart(2)] && log[..2][..1] == [TurnStart(1)] && log[..2][..1][..0] == [];
    assert Scan(log[..2][..1]) == InTurn(1, 0);
    OpensAfter(log, 1);
    OpensAfter(log, 2);
  }

  // ----- assertTurnChoreography -----

  datatype ChoreographyCode =
    | ToolCallUnresolved
    | ToolResultUnmatched
    | ChunkOutsideStep
    | MessageOutsideStep
    | ToolEventOutsideStep
    | StepEndBeforeToolResult
    | InvalidToolArguments

  datatype Violation = Violation(code: ChoreographyCode, at: nat)

  /** One unresolved call: its id and the sequence number of its latest entry. */
  datatype Unresolved = Unresolved(id: string, at: nat)

  /** The checker's variables. `unresolved` is its map in insertion order. */
  datatype Check = Check(openTurn: bool, openStep: bool, unresolved: seq<Unresolved>, violations: seq<Violation>)

  function IndexOf(us: seq<Unresolved>, id: string): (i: nat)
    ensures i <= |us| && (i < |us| ==> us[i].id == id)
    ensures forall j | 0 <= j < i :: us[j].id != id
  {
    if us == [] then 0 else if us[0].id == id then 0 else 1 + IndexOf(us[1..], id)
  }

  /** `Map.set`: an existing key keeps its place. */
  function SetCall(us: seq<Unresolved>, id: string, at: nat): seq<Unresolved> {
    var i := IndexOf(us, id);
    if i < |us| then us[i := Unresolved(id, at)] else us + [Unresolved(id, at)]
  }

  function Delete(us: seq<Unresolved>, id: string): seq<Unresolved> {
    var i := IndexOf(us, id);
    if i < |us| then us[..i] + us[i + 1..] else us
  }

  function Fail(c: Check, code: ChoreographyCode, at: nat): Check {
    c.(violations := c.violations + [Violation(code, at)])
  }

  /** What the checker does at entry `e`, whose sequence number is `at`. */
  function CheckNext(c: Check, e: Event, at: nat, parses: string -> bool): Check {
    match e
    case TurnStart(_) => c.(openTurn := true, openStep := false, unresolved := [])
    case TurnEnd(_, _) => c.(openTurn := false, openStep := false)
    case StepStart(_, _) => if c.openTurn then c.(openStep := true) else c
    case StepEnd(_, _) =>
      var next := if c.openStep && c.unresolved != [] then Fail(c, StepEndBeforeToolResult, at) else c;
      next.(openStep := false)
    case AssistantChunk(_, _, _) => if c.openStep then c else Fail(c, ChunkOutsideStep, at)
    case AssistantMessage(_, _, _, _) => if c.openStep then c else Fail(c, MessageOutsideStep, at)
    case ToolCall(_, _, call) =>
      if !c.openStep then Fail(c, ToolEventOutsideStep, at)
      else
        var next := if parses(call.arguments) then c else Fail(c, InvalidToolArguments, at);
        next.(unresolved := SetCall(c.unresolved, call.id, at))
    case ToolResult(_, _, callId, _, _) =>
      if !c.openStep then Fail(c, ToolEventOutsideStep, at)
      else if IndexOf(c.unresolved, callId) == |c.unresolved| then Fail(c, ToolResultUnmatched, at)
      else c.(unresolved := Delete(c.unresolved, callId))
    case _ => c
  }

  function CheckTo(log: seq<Event>, n: nat, parses: string -> bool): Check
    requires n <= |log|
  {
    if n == 0 then Check(false, false, [], []) else CheckNext(CheckTo(log, n - 1, parses), log[n - 1], n - 1, parses)
  }

  /** The violations of a whole log: those found on the way, and the first call left unresolved at the end. */
  function Choreography(log: seq<Event>, parses: string -> bool): seq<Violation> {
    var c := CheckTo(log, |log|, parses);
    if c.unresolved != [] then c.violations + [Violation(ToolCallUnresolved, c.unresolved[0].at)] else c.violations
  }

  // ----- what the reports mean, of any log -----

  /** A step that started inside a turn is still open at `n`. */
  ghost predicate InsideStep(log: seq<Event>, n: nat) {
    exists s: nat | s < n && n <= |log| ::
      log[s].StepStart? && TurnOpen(log, s) && forall m | s < m < n :: !ClosesStep(log[m])
  }

  ghost predicate CallsInside(log: seq<Event>, p: nat, id: string) {
    p < |log| && log[p].ToolCall? && log[p].call.id == id && InsideStep(log, p)
  }

  ghost predicate AnswersInside(log: seq<Event>, p: nat, id: string) {
    p < |log| && log[p].ToolResult? && log[p].callId == id && InsideStep(log, p)
  }

  /** The call at `j` has had no result since, in the same turn. */
  ghost predicate Waits(log: seq<Event>, n: nat, id: string, j: nat) {
    && j < n <= |log| && CallsInside(log, j, id)
    && forall m | j < m < n :: !log[m].TurnStart? && !AnswersInside(log, m, id)
  }

  /** Some call with this id waits for its result. */
  ghost predicate Unanswered(log: seq<Event>, n: nat, id: string) {
    exists j: nat :: Waits(log, n, id, j)
  }

  /** The id has been waiting for a result since its call at `j`. */
  ghost predicate WaitsSince(log: seq<Event>, n: nat, id: string, j: nat) {
    Waits(log, n, id, j) && !Unanswered(log, j, id)
  }

  /** `j` is the latest call with this id. */
  ghost predicate LatestCall(log: seq<Event>, n: nat, id: string, j: nat) {
    j < n <= |log| && CallsInside(log, j, id) && forall m | j < m < n :: !CallsInside(log, m, id)
  }

  /** The entry at `p` is wrong by itself or by what came before it. */
  ghost predicate Offends(log: seq<Event>, parses: string -> bool, v: Violation) {
    && v.at < |log|
    && var e := log[v.at];
       match v.code
       case ChunkOutsideStep => e.AssistantChunk? && !InsideStep(log, v.at)
       case MessageOutsideStep => e.AssistantMessage? && !InsideStep(log, v.at)
       case ToolEventOutsideStep => (e.ToolCall? || e.ToolResult?) && !InsideStep(log, v.at)
       case InvalidToolArguments => e.ToolCall? && InsideStep(log, v.at) && !parses(e.call.arguments)
       case ToolResultUnmatched => e.ToolResult? && InsideStep(log, v.at) && !Unanswered(log, v.at, e.callId)
       case StepEndBeforeToolResult => e.StepEnd? && InsideStep(log, v.at) && exists id :: Unanswered(log, v.at, id)
       case ToolCallUnresolved => false
  }

  /** At the end of the log, `p` is the latest call with the id that has been waiting longest. */
  ghost predicate LeftWaiting(log: seq<Event>, p: nat) {
    exists id, j: nat ::
      && WaitsSince(log, |log|, id, j) && LatestCall(log, |log|, id, p)
      && forall other, k: nat | WaitsSince(log, |log|, other, k) :: j <= k
  }

  /** The offending entries before `n`, each once and in order. */
  ghost predicate ReportsTo(log: seq<Event>, n: nat, parses: string -> bool, vs: seq<Violation>) {
    && (forall v :: v in vs <==> v.at < n && Offends(log, parses, v))
    && (forall i, j | 0 <= i < j < |vs| :: vs[i].at < vs[j].at)
  }

  /** What is reported of a log: its offending entries, each once and in order, and then at most one waiting call. */
  ghost predicate Reports(log: seq<Event>, parses: string -> bool, vs: seq<Violation>) {
    if exists id :: Unanswered(log, |log|, id) then
      && vs != [] && vs[|vs| - 1].code == ToolCallUnresolved && LeftWaiting(log, vs[|vs| - 1].at)
      && ReportsTo(log, |log|, parses, vs[..|vs| - 1])
    else ReportsTo(log, |log|, parses, vs)
  }

  lemma TurnOpenNext(log: seq<Event>, n: nat)
    requires n < |log|
    ensures TurnOpen(log, n + 1) <==> log[n].TurnStart? || (TurnOpen(log, n) && !log[n].TurnEnd?)
  {
    if TurnOpen(log, n) && !log[n].TurnEnd? {
      var s: nat :| s < n && log[s].TurnStart? && forall m | s < m < n :: !log[m].TurnEnd?;
      assert forall m | s < m < n + 1 :: !log[m].TurnEnd?;
    }
  }

  lemma InsideStepNext(log: seq<Event>, n: nat)
    requires n < |log|
    ensures InsideStep(log, n + 1)
          <==> (log[n].StepStart? && TurnOpen(log, n)) || (InsideStep(log, n) && !ClosesStep(log[n]))
  {
    hide TurnOpen;
    if InsideStep(log, n) && !ClosesStep(log[n]) {
      var s: nat :| s < n && log[s].StepStart? && TurnOpen(log, s) && forall m | s < m < n :: !ClosesStep(log[m]);
      assert forall m | s < m < n + 1 :: !ClosesStep(log[m]);
    }
  }

  /** A step is open inside a turn only. */
  lemma {:induction false} StepInTurn(log: seq<Event>, n: nat)
    requires n <= |log| && InsideStep(log, n)
    ensures TurnOpen(log, n)
  {
    NothingInside(log);
    hide InsideStep, TurnOpen;
    if n > 0 {
      InsideStepNext(log, n - 1);
      TurnOpenNext(log, n - 1);
      if InsideStep(log, n - 1) { StepInTurn(log, n - 1); }
    }
  }

  lemma NothingInside(log: seq<Event>)
    ensures !InsideStep(log, 0)
  {
  }

  lemma WaitsNext(log: seq<Event>, n: nat, id: string, j: nat)
    requires n < |log|
    ensures Waits(log, n + 1, id, j) <==>
              || (j == n && CallsInside(log, n, id))
              || (Waits(log, n, id, j) && !log[n].TurnStart? && !AnswersInside(log, n, id))
  {
    hide CallsInside, AnswersInside;
    if Waits(log, n, id, j) && !log[n].TurnStart? && !AnswersInside(log, n, id) {
      forall m | j < m < n + 1 ensures !log[m].TurnStart? && !AnswersInside(log, m, id) {
        assert m < n ==> !log[m].TurnStart? && !AnswersInside(log, m, id);
      }
    }
    if Waits(log, n + 1, id, j) && j < n {
      assert !log[n].TurnStart? && !AnswersInside(log, n, id);
    }
  }

  lemma UnansweredNext(log: seq<Event>, n: nat, id: string)
    requires n < |log|
    ensures Unanswered(log, n + 1, id) <==>
              CallsInside(log, n, id) || (Unanswered(log, n, id) && !log[n].TurnStart? && !AnswersInside(log, n, id))
  {
    hide Waits, CallsInside, AnswersInside;
    if Unanswered(log, n, id) {
      var j: nat :| Waits(log, n, id, j);
      WaitsNext(log, n, id, j);
    }
    WaitsNext(log, n, id, n);
    if Unanswered(log, n + 1, id) {
      var j: nat :| Waits(log, n + 1, id, j);
      WaitsNext(log, n, id, j);
    }
  }

  lemma WaitsSinceNext(log: seq<Event>, n: nat, id: string, j: nat)
    requires n < |log|
    ensures WaitsSince(log, n + 1, id, j) <==>
              || (j == n && CallsInside(log, n, id) && !Unanswered(log, n, id))
              || (WaitsSince(log, n, id, j) && !log[n].TurnStart? && !AnswersInside(log, n, id))
  {
    hide Waits, Unanswered, CallsInside, AnswersInside;
    WaitsNext(log, n, id, j);
    WaitsBefore(log, n, id, j);
  }

  lemma WaitsBefore(log: seq<Event>, n: nat, id: string, j: nat)
    ensures Waits(log, n, id, j) ==> j < n <= |log|
  {
  }

  lemma LatestCallNext(log: seq<Event>, n: nat, id: string, j: nat)
    requires n < |log|
    ensures LatestCall(log, n + 1, id, j) <==> if CallsInside(log, n, id) then j == n else LatestCall(log, n, id, j)
  {
    hide CallsInside;
  }

  /** Every waiting id has been waiting since some call. */
  lemma {:induction false} SinceSome(log: seq<Event>, n: nat, id: string) returns (j: nat)
    requires n <= |log| && Unanswered(log, n, id)
    ensures WaitsSince(log, n, id, j)
  {
    hide WaitsSince, CallsInside, AnswersInside;
    j := 0;
    if n > 0 {
      UnansweredNext(log, n - 1, id);
      NotBoth(log, n - 1, id);
      if Unanswered(log, n - 1, id) { j := SinceSome(log, n - 1, id); } else { j := n - 1; }
      WaitsSinceNext(log, n - 1, id, j);
    }
  }

  predicate Has(us: seq<Unresolved>, id: string) {
    exists i :: 0 <= i < |us| && us[i].id == id
  }

  lemma IndexHas(us: seq<Unresolved>, id: string)
    ensures IndexOf(us, id) < |us| <==> Has(us, id)
  {
    if IndexOf(us, id) < |us| { assert us[IndexOf(us, id)].id == id; }
  }

  /** The checker's map is the waiting ids with their latest calls, in the order they began to wait. */
  ghost predicate TracksWaiting(us: seq<Unresolved>, log: seq<Event>, n: nat) {
    && (forall id :: Unanswered(log, n, id) <==> Has(us, id))
    && (forall i | 0 <= i < |us| :: LatestCall(log, n, us[i].id, us[i].at))
    && (forall i, j | 0 <= i < j < |us| :: InOrder(us, log, n, i, j))
  }

  ghost predicate InOrder(us: seq<Unresolved>, log: seq<Event>, n: nat, i: int, j: int)
    requires 0 <= i < j < |us|
  {
    us[i].id != us[j].id && WaitsLonger(log, n, us[i].id, us[j].id)
  }

  ghost predicate WaitsLonger(log: seq<Event>, n: nat, first: string, second: string) {
    forall a: nat, b: nat | WaitsSince(log, n, first, a) && WaitsSince(log, n, second, b) :: a < b
  }

  /** Entries that neither start a turn nor call or answer inside a step leave the map as it is. */
  lemma WaitingStays(us: seq<Unresolved>, log: seq<Event>, n: nat)
    requires n < |log| && TracksWaiting(us, log, n) && !log[n].TurnStart?
    requires log[n].ToolCall? || log[n].ToolResult? ==> !InsideStep(log, n)
    ensures TracksWaiting(us, log, n + 1)
  {
    OutsideNeither(log, n);
    hide Unanswered, WaitsSince, LatestCall, CallsInside, AnswersInside, InsideStep, Has, WaitsLonger;
    var m := n + 1;
    forall id ensures Unanswered(log, m, id) <==> Unanswered(log, n, id) { UnansweredNext(log, n, id); }
    forall i | 0 <= i < |us|
      ensures LatestCall(log, m, us[i].id, us[i].at) { LatestCallNext(log, n, us[i].id, us[i].at); }
    forall i, j | 0 <= i < j < |us| ensures InOrder(us, log, m, i, j) {
      assert InOrder(us, log, n, i, j);
      LongerStays(log, n, us[i].id, us[j].id);
    }
  }

  /** Which of two waiting ids has waited longer does not change while both wait. */
  lemma LongerStays(log: seq<Event>, n: nat, first: string, second: string)
    requires n < |log| && WaitsLonger(log, n, first, second)
    requires CallsInside(log, n, first) ==> Unanswered(log, n, first)
    requires CallsInside(log, n, second) ==> Unanswered(log, n, second)
    ensures WaitsLonger(log, n + 1, first, second)
  {
    hide Unanswered, WaitsSince, CallsInside, AnswersInside;
    var m := n + 1;
    forall a: nat, b: nat | WaitsSince(log, m, first, a) && WaitsSince(log, m, second, b) ensures a < b {
      WaitsSinceNext(log, n, first, a);
      WaitsSinceNext(log, n, second, b);
    }
  }

  /** An id that begins to wait now has waited less than any other. */
  lemma LongerThanNew(log: seq<Event>, n: nat, first: string, second: string)
    requires n < |log| && !CallsInside(log, n, first) && CallsInside(log, n, second) && !Unanswered(log, n, second)
    ensures WaitsLonger(log, n + 1, first, second)
  {
    hide Unanswered, WaitsSince, CallsInside, AnswersInside;
    var m := n + 1;
    forall a: nat, b: nat | WaitsSince(log, m, first, a) && WaitsSince(log, m, second, b) ensures a < b {
      WaitsSinceNext(log, n, first, a);
      WaitsSinceNext(log, n, second, b);
      SinceBefore(log, n, first, a);
      SinceBefore(log, n, second, b);
    }
  }

  lemma SinceBefore(log: seq<Event>, n: nat, id: string, j: nat)
    ensures WaitsSince(log, n, id, j) ==> j < n && Unanswered(log, n, id)
  {
  }

  lemma OutsideNeither(log: seq<Event>, n: nat)
    requires n < |log| && (log[n].ToolCall? || log[n].ToolResult? ==> !InsideStep(log, n))
    ensures forall id :: !CallsInside(log, n, id) && !AnswersInside(log, n, id)
  {
    hide InsideStep;
  }

  lemma WaitingCleared(log: seq<Event>, n: nat)
    requires n < |log| && log[n].TurnStart?
    ensures TracksWaiting([], log, n + 1)
  {
    var m := n + 1;
    ClearedIds(log, n);
    hide Unanswered;
    assert forall id :: !Has([], id);
  }

  lemma ClearedIds(log: seq<Event>, n: nat)
    requires n < |log| && log[n].TurnStart?
    ensures var m := n + 1; forall id :: !Unanswered(log, m, id)
  {
    var m := n + 1;
    forall id ensures !Unanswered(log, m, id) {
      UnansweredNext(log, n, id);
      NotBoth(log, n, id);
    }
  }

  /** An entry that calls inside a step neither answers nor starts a turn. */
  lemma NotBoth(log: seq<Event>, n: nat, id: string)
    ensures CallsInside(log, n, id) ==> n < |log| && !log[n].TurnStart? && !AnswersInside(log, n, id)
  {
  }

  lemma OrderIds(us: seq<Unresolved>, log: seq<Event>, n: nat)
    requires forall i, j | 0 <= i < j < |us| :: InOrder(us, log, n, i, j)
    ensures forall i, j | 0 <= i < j < |us| :: us[i].id != us[j].id
  {
    hide WaitsLonger;
    forall i, j | 0 <= i < j < |us| ensures us[i].id != us[j].id { assert InOrder(us, log, n, i, j); }
  }

  lemma WaitingCalled(us: seq<Unresolved>, log: seq<Event>, n: nat)
    requires n < |log| && TracksWaiting(us, log, n) && log[n].ToolCall? && InsideStep(log, n)
    ensures TracksWaiting(SetCall(us, log[n].call.id, n), log, n + 1)
  {
    hide Unanswered, LatestCall, InsideStep, Has, InOrder, SetCall;
    var vs, m := SetCall(us, log[n].call.id, n), n + 1;
    OrderIds(us, log, n);
    CalledIds(us, log, n);
    CalledLatest(us, log, n);
    CalledOrder(us, log, n);
  }

  lemma CalledIds(us: seq<Unresolved>, log: seq<Event>, n: nat)
    requires n < |log| && log[n].ToolCall? && InsideStep(log, n)
    requires forall id :: Unanswered(log, n, id) <==> Has(us, id)
    ensures var vs, m := SetCall(us, log[n].call.id, n), n + 1; forall id :: Unanswered(log, m, id) <==> Has(vs, id)
  {
    var vs, m := SetCall(us, log[n].call.id, n), n + 1;
    CalledOnly(log, n);
    SetCallIds(us, log[n].call.id, n);
    hide Unanswered, CallsInside, AnswersInside, InsideStep, Has, SetCall, IndexOf;
    forall id ensures Unanswered(log, m, id) <==> Has(vs, id) {
      UnansweredNext(log, n, id);
      assert CallsInside(log, n, id) <==> id == log[n].call.id;
    }
  }

  lemma CalledLatest(us: seq<Unresolved>, log: seq<Event>, n: nat)
    requires n < |log| && log[n].ToolCall? && InsideStep(log, n)
    requires forall i | 0 <= i < |us| :: LatestCall(log, n, us[i].id, us[i].at)
    requires forall i, j | 0 <= i < j < |us| :: us[i].id != us[j].id
    ensures var vs, m := SetCall(us, log[n].call.id, n), n + 1;
            forall i | 0 <= i < |vs| :: LatestCall(log, m, vs[i].id, vs[i].at)
  {
    var vs, k, m := SetCall(us, log[n].call.id, n), IndexOf(us, log[n].call.id), n + 1;
    CalledOnly(log, n);
    SetCallIds(us, log[n].call.id, n);
    hide LatestCall, CallsInside, AnswersInside, InsideStep, Has, SetCall, IndexOf;
    forall i | 0 <= i < |vs| ensures LatestCall(log, m, vs[i].id, vs[i].at) {
      LatestCallNext(log, n, vs[i].id, vs[i].at);
      assert CallsInside(log, n, vs[i].id) <==> i == k;
    }
  }

  lemma CalledOrder(us: seq<Unresolved>, log: seq<Event>, n: nat)
    requires n < |log| && log[n].ToolCall? && InsideStep(log, n)
    requires forall id :: Unanswered(log, n, id) <==> Has(us, id)
    requires forall i, j | 0 <= i < j < |us| :: InOrder(us, log, n, i, j)
    ensures var vs, m := SetCall(us, log[n].call.id, n), n + 1;
            forall i, j | 0 <= i < j < |vs| :: InOrder(vs, log, m, i, j)
  {
    var id := log[n].call.id;
    var vs, m := SetCall(us, id, n), n + 1;
    CalledOnly(log, n);
    SetCallIds(us, id, n);
    IndexHas(us, id);
    hide Unanswered, CallsInside, AnswersInside, InsideStep, Has, WaitsLonger, SetCall, IndexOf;
    forall i, j | 0 <= i < j < |vs| ensures InOrder(vs, log, m, i, j) {
      if j < |us| {
        assert InOrder(us, log, n, i, j);
        LongerStays(log, n, us[i].id, us[j].id);
      } else {
        LongerThanNew(log, n, us[i].id, id);
      }
    }
  }

  lemma CalledOnly(log: seq<Event>, n: nat)
    requires n < |log| && log[n].ToolCall? && InsideStep(log, n)
    ensures forall id :: (CallsInside(log, n, id) <==> id == log[n].call.id) && !AnswersInside(log, n, id)
  {
    hide InsideStep;
  }

  lemma AnsweredOnly(log: seq<Event>, n: nat)
    requires n < |log| && log[n].ToolResult? && InsideStep(log, n)
    ensures forall id :: (AnswersInside(log, n, id) <==> id == log[n].callId) && !CallsInside(log, n, id)
  {
    hide InsideStep;
  }

  lemma SetCallIds(us: seq<Unresolved>, id: string, at: nat)
    ensures var vs, k := SetCall(us, id, at), IndexOf(us, id);
            && |vs| == (if k < |us| then |us| else |us| + 1) && k < |vs| && vs[k] == Unresolved(id, at)
            && (forall i | 0 <= i < |us| && i != k :: vs[i] == us[i])
            && (forall i | 0 <= i < |us| :: vs[i].id == us[i].id && (k == |us| ==> us[i].id != id))
            && forall other :: Has(vs, other) <==> other == id || Has(us, other)
  {
    var vs, k := SetCall(us, id, at), IndexOf(us, id);
    assert forall i | 0 <= i < |us| :: vs[i].id == us[i].id;
    forall other ensures Has(vs, other) <==> other == id || Has(us, other) {
      if i :| 0 <= i < |us| && us[i].id == other { assert vs[i].id == other; }
      assert vs[k].id == id;
    }
  }

  lemma WaitingAnswered(us: seq<Unresolved>, log: seq<Event>, n: nat)
    requires n < |log| && TracksWaiting(us, log, n) && log[n].ToolResult? && InsideStep(log, n)
    ensures TracksWaiting(Delete(us, log[n].callId), log, n + 1)
  {
    hide Unanswered, LatestCall, InsideStep, Has, InOrder, Delete;
    var vs, m := Delete(us, log[n].callId), n + 1;
    OrderIds(us, log, n);
    AnsweredIds(us, log, n);
    AnsweredOrder(us, log, n);
  }

  lemma AnsweredIds(us: seq<Unresolved>, log: seq<Event>, n: nat)
    requires n < |log| && log[n].ToolResult? && InsideStep(log, n)
    requires forall id :: Unanswered(log, n, id) <==> Has(us, id)
    requires forall i | 0 <= i < |us| :: LatestCall(log, n, us[i].id, us[i].at)
    requires forall i, j | 0 <= i < j < |us| :: us[i].id != us[j].id
    ensures var vs, m := Delete(us, log[n].callId), n + 1;
            && (forall id :: Unanswered(log, m, id) <==> Has(vs, id))
            && forall i | 0 <= i < |vs| :: LatestCall(log, m, vs[i].id, vs[i].at)
  {
    var vs, m := Delete(us, log[n].callId), n + 1;
    AnsweredOnly(log, n);
    DeleteShape(us, log[n].callId);
    DeleteIds(us, log[n].callId);
    hide Unanswered, LatestCall, CallsInside, AnswersInside, InsideStep, Has, Delete, IndexOf;
    forall id ensures Unanswered(log, m, id) <==> Has(vs, id) {
      UnansweredNext(log, n, id);
      assert AnswersInside(log, n, id) <==> id == log[n].callId;
    }
    forall i | 0 <= i < |vs|
      ensures LatestCall(log, m, vs[i].id, vs[i].at) { LatestCallNext(log, n, vs[i].id, vs[i].at); }
  }

  lemma AnsweredOrder(us: seq<Unresolved>, log: seq<Event>, n: nat)
    requires n < |log| && log[n].ToolResult? && InsideStep(log, n)
    requires forall i, j | 0 <= i < j < |us| :: InOrder(us, log, n, i, j)
    ensures var vs, m := Delete(us, log[n].callId), n + 1; forall i, j | 0 <= i < j < |vs| :: InOrder(vs, log, m, i, j)
  {
    var vs, k, m := Delete(us, log[n].callId), IndexOf(us, log[n].callId), n + 1;
    AnsweredOnly(log, n);
    DeleteShape(us, log[n].callId);
    hide CallsInside, AnswersInside, InsideStep, Has, WaitsLonger, Delete, IndexOf;
    forall i, j | 0 <= i < j < |vs| ensures InOrder(vs, log, m, i, j) {
      var a, b := if i < k then i else i + 1, if j < k then j else j + 1;
      assert vs[i] == us[a] && vs[j] == us[b] && InOrder(us, log, n, a, b);
      LongerStays(log, n, us[a].id, us[b].id);
    }
  }

  lemma DeleteShape(us: seq<Unresolved>, id: string)
    ensures var vs, k := Delete(us, id), IndexOf(us, id);
            && |vs| == (if k < |us| then |us| - 1 else |us|)
            && forall i | 0 <= i < |vs| :: vs[i] == us[if i < k then i else i + 1]
  {
  }

  lemma DeleteIds(us: seq<Unresolved>, id: string)
    requires forall i, j | 0 <= i < j < |us| :: us[i].id != us[j].id
    ensures var vs := Delete(us, id); forall other :: Has(vs, other) <==> other != id && Has(us, other)
  {
    var vs, k := Delete(us, id), IndexOf(us, id);
    DeleteShape(us, id);
    hide Delete, IndexOf, Has;
    forall other ensures Has(vs, other) <==> other != id && Has(us, other) {
      DeleteOne(us, vs, k, id, other);
    }
  }

  lemma DeleteOne(us: seq<Unresolved>, vs: seq<Unresolved>, k: nat, id: string, other: string)
    requires k <= |us| && |vs| == (if k < |us| then |us| - 1 else |us|)
    requires forall i | 0 <= i < |vs| :: vs[i] == us[if i < k then i else i + 1]
    requires forall i | 0 <= i < |us| :: us[i].id == id <==> i == k
    ensures Has(vs, other) <==> other != id && Has(us, other)
  {
    if Has(vs, other) {
      var i :| 0 <= i < |vs| && vs[i].id == other;
      assert us[if i < k then i else i + 1].id == other;
    }
    if other != id && Has(us, other) {
      var i :| 0 <= i < |us| && us[i].id == other;
      assert vs[if i < k then i else i - 1].id == other;
    }
  }

  /** What the checker's variables are after the first `n` entries. */
  ghost predicate Checks(c: Check, log: seq<Event>, n: nat, parses: string -> bool) {
    && c.openTurn == TurnOpen(log, n) && c.openStep == InsideStep(log, n)
    && TracksWaiting(c.unresolved, log, n) && ReportsTo(log, n, parses, c.violations)
  }

  lemma TracksMeans(us: seq<Unresolved>, log: seq<Event>, n: nat)
    requires TracksWaiting(us, log, n)
    ensures forall id :: Unanswered(log, n, id) <==> IndexOf(us, id) < |us|
    ensures us != [] <==> exists id :: Unanswered(log, n, id)
  {
    hide Unanswered, LatestCall, InOrder;
    forall id ensures Unanswered(log, n, id) <==> IndexOf(us, id) < |us| { IndexHas(us, id); }
    if us != [] { assert Has(us, us[0].id); }
  }

  /** The violation that an entry adds, if it offends. */
  lemma ReportsNext(log: seq<Event>, n: nat, parses: string -> bool, vs: seq<Violation>, code: Option<ChoreographyCode>)
    requires n < |log| && ReportsTo(log, n, parses, vs)
    requires forall c :: Offends(log, parses, Violation(c, n)) <==> code == Some(c)
    ensures ReportsTo(log, n + 1, parses, if code.Some? then vs + [Violation(code.value, n)] else vs)
  {
    hide Offends;
    var next := if code.Some? then vs + [Violation(code.value, n)] else vs;
    forall v ensures v in next <==> v.at < n + 1 && Offends(log, parses, v) {
      if v.at == n { assert v == Violation(v.code, n); }
    }
    assert forall i | 0 <= i < |vs| :: vs[i] in vs;
  }

  /** What the code of an offending entry is. */
  ghost function Offence(log: seq<Event>, n: nat, parses: string -> bool): Option<ChoreographyCode>
    requires n < |log|
  {
    var e, inside := log[n], InsideStep(log, n);
    if e.AssistantChunk? && !inside then Some(ChunkOutsideStep)
    else if e.AssistantMessage? && !inside then Some(MessageOutsideStep)
    else if (e.ToolCall? || e.ToolResult?) && !inside then Some(ToolEventOutsideStep)
    else if e.ToolCall? && !parses(e.call.arguments) then Some(InvalidToolArguments)
    else if e.ToolResult? && !Unanswered(log, n, e.callId) then Some(ToolResultUnmatched)
    else if e.StepEnd? && inside && exists id :: Unanswered(log, n, id) then Some(StepEndBeforeToolResult)
    else None
  }

  /** An entry offends in at most one way. */
  lemma OneOffence(log: seq<Event>, n: nat, parses: string -> bool)
    requires n < |log|
    ensures forall c :: Offends(log, parses, Violation(c, n)) <==> Offence(log, n, parses) == Some(c)
  {
    hide InsideStep, Unanswered;
  }

  lemma ChecksNext(c: Check, log: seq<Event>, n: nat, parses: string -> bool)
    requires n < |log| && Checks(c, log, n, parses)
    ensures Checks(CheckNext(c, log[n], n, parses), log, n + 1, parses)
  {
    hide TurnOpen, InsideStep, TracksWaiting, ReportsTo, Unanswered, Offends, IndexOf, SetCall, Delete;
    var e := log[n];
    TurnOpenNext(log, n);
    InsideStepNext(log, n);
    if InsideStep(log, n) { StepInTurn(log, n); }
    TracksMeans(c.unresolved, log, n);
    OneOffence(log, n, parses);
    ReportsNext(log, n, parses, c.violations, Offence(log, n, parses));
    if e.TurnStart? {
      WaitingCleared(log, n);
    } else if e.ToolCall? && InsideStep(log, n) {
      WaitingCalled(c.unresolved, log, n);
    } else if e.ToolResult? && InsideStep(log, n) {
      WaitingAnswered(c.unresolved, log, n);
      DeleteMissing(c.unresolved, e.callId);
    } else {
      WaitingStays(c.unresolved, log, n);
    }
  }

  lemma DeleteMissing(us: seq<Unresolved>, id: string)
    ensures IndexOf(us, id) == |us| ==> Delete(us, id) == us
  {
  }

  lemma {:induction false} CheckReports(log: seq<Event>, n: nat, parses: string -> bool)
    requires n <= |log|
    ensures Checks(CheckTo(log, n, parses), log, n, parses)
  {
    hide Checks, CheckNext;
    if n == 0 {
      NothingChecked(log, parses);
    } else {
      CheckReports(log, n - 1, parses);
      ChecksNext(CheckTo(log, n - 1, parses), log, n - 1, parses);
    }
  }

  lemma NothingChecked(log: seq<Event>, parses: string -> bool)
    ensures Checks(Check(false, false, [], []), log, 0, parses)
  {
  }

  lemma ChecksParts(c: Check, log: seq<Event>, n: nat, parses: string -> bool)
    requires Checks(c, log, n, parses)
    ensures TracksWaiting(c.unresolved, log, n) && ReportsTo(log, n, parses, c.violations)
  {
  }

  /** The call in the map's first place is the one left waiting. */
  lemma FirstWaitsLongest(us: seq<Unresolved>, log: seq<Event>)
    requires TracksWaiting(us, log, |log|) && us != []
    ensures LeftWaiting(log, us[0].at)
  {
    hide Unanswered, WaitsSince, LatestCall;
    assert Has(us, us[0].id);
    var j := SinceSome(log, |log|, us[0].id);
    forall other, k: nat | WaitsSince(log, |log|, other, k) ensures j <= k {
      SinceBefore(log, |log|, other, k);
      var i :| 0 <= i < |us| && us[i].id == other;
      if i > 0 { assert InOrder(us, log, |log|, 0, i); } else { SinceUnique(log, |log|, other, j, k); }
    }
  }

  lemma SinceUnique(log: seq<Event>, n: nat, id: string, j: nat, k: nat)
    requires WaitsSince(log, n, id, j) && WaitsSince(log, n, id, k)
    ensures j == k
  {
    hide CallsInside, AnswersInside;
    assert j < k ==> Waits(log, k, id, j);
    assert k < j ==> Waits(log, j, id, k);
  }

  /**
   * What the checker reports of any log, whatever is wrong with it: each offending entry once, under
   * the code of its offence and in log order, and at the end the call left waiting longest.
   */
  lemma ChoreographyReports(log: seq<Event>, parses: string -> bool)
    ensures Reports(log, parses, Choreography(log, parses))
  {
    hide Checks, TracksWaiting, ReportsTo, LeftWaiting, Unanswered, CheckTo;
    CheckReports(log, |log|, parses);
    var c := CheckTo(log, |log|, parses);
    ChecksParts(c, log, |log|, parses);
    TracksMeans(c.unresolved, log, |log|);
    if c.unresolved != [] {
      FirstWaitsLongest(c.unresolved, log);
      var vs := Choreography(log, parses);
      assert vs[..|vs| - 1] == c.violations;
    }
  }

  /** The scan over the log; a step end compares each unresolved call with its own position before it fails. */
  method AssertTurnChoreography(log: seq<Event>, parses: string -> bool) returns (violations: seq<Violation>)
    ensures violations == Choreography(log, parses)
    ensures Reports(log, parses, violations)
  {
    ChoreographyReports(log, parses);
    hide Reports;
    violations := [];
    var openTurn, openStep := false, false;
    var unresolved: seq<Unresolved> := [];
    for at := 0 to |log|
      invariant Check(openTurn, openStep, unresolved, violations) == CheckTo(log, at, parses)
      invariant forall i | 0 <= i < |unresolved| :: unresolved[i].at < at
    {
      match log[at] {
        case TurnStart(_) => openTurn, openStep, unresolved := true, false, [];
        case TurnEnd(_, _) => openTurn, openStep := false, false;
        case StepStart(_, _) => if openTurn { openStep := true; }
        case StepEnd(_, _) =>
          if openStep {
            for i := 0 to |unresolved|
              invariant i == 0
            {
              if unresolved[i].at < at {
                violations := violations + [Violation(StepEndBeforeToolResult, at)];
                break;
              }
            }
          }
          openStep := false;
        case AssistantChunk(_, _, _) => if !openStep { violations := violations + [Violation(ChunkOutsideStep, at)]; }
        case AssistantMessage(_, _, _, _) =>
          if !openStep { violations := violations + [Violation(MessageOutsideStep, at)]; }
        case ToolCall(_, _, call) =>
          if !openStep {
            violations := violations + [Violation(ToolEventOutsideStep, at)];
          } else {
            if !parses(call.arguments) { violations := violations + [Violation(InvalidToolArguments, at)]; }
            unresolved := SetCall(unresolved, call.id, at);
          }
        case ToolResult(_, _, callId, _, _) =>
          if !openStep {
            violations := violations + [Violation(ToolEventOutsideStep, at)];
          } else if IndexOf(unresolved, callId) == |unresolved| {
            violations := violations + [Violation(ToolResultUnmatched, at)];
          } else {
            unresolved := Delete(unresolved, callId);
          }
        case _ =>
      }
    }
    if |unresolved| > 0 {
      violations := violations + [Violation(ToolCallUnresolved, unresolved[0].at)];
    }
  }

  // ----- when a driver's log passes -----

  /** The calls of the open step that have no result yet. */
  function Pending(m: Mode): seq<string> {
    if m.InStep? && m.phase.Answered? then m.phase.pending else []
  }

  /** No call reuses the id of a call still waiting for its result. */
  ghost predicate DistinctCalls(log: seq<Event>, n: nat) {
    forall i: nat | i < n && i < |log| && log[i].ToolCall? :: log[i].call.id !in Pending(Scan(log[..i]))
  }

  /** The arguments of every call parse. */
  ghost predicate Parsed(log: seq<Event>, n: nat, parses: string -> bool) {
    forall i: nat | i < n && i < |log| && log[i].ToolCall? :: parses(log[i].call.arguments)
  }

  /** No step ends with a call unanswered. */
  ghost predicate Resolved(log: seq<Event>, n: nat) {
    forall i: nat | i < n && i < |log| && log[i].StepEnd? :: Pending(Scan(log[..i])) == []
  }

  function UnresolvedIds(us: seq<Unresolved>): (ids: seq<string>)
    ensures |ids| == |us|
  {
    seq(|us|, i requires 0 <= i < |us| => us[i].id)
  }

  ghost predicate Distinct(ids: seq<string>) {
    forall i, j | 0 <= i < j < |ids| :: ids[i] != ids[j]
  }

  /** The checker's variables mirror the word as long as nothing is wrong, and once something is, it has said so. */
  ghost predicate Mirrors(c: Check, m: Mode, good: bool) {
    && c.openTurn == !m.Outside?
    && c.openStep == m.InStep?
    && (good ==> c.violations == [] && UnresolvedIds(c.unresolved) == Pending(m) && Distinct(Pending(m)))
    && (!good ==> c.violations != [])
  }

  lemma IndexIn(us: seq<Unresolved>, id: string)
    ensures IndexOf(us, id) < |us| <==> id in UnresolvedIds(us)
  {
    if IndexOf(us, id) < |us| {
      assert UnresolvedIds(us)[IndexOf(us, id)] == id;
    }
  }

  lemma MirrorsCall(c: Check, m: Mode, call: Call, at: nat, parses: string -> bool, turn: nat, step: nat)
    requires Mirrors(c, m, true) && m.InStep? && m.phase.Answered? && m.turn == turn && m.step == step
    requires call.id !in Pending(m)
    ensures Mirrors(CheckNext(c, ToolCall(turn, step, call), at, parses), Next(m, ToolCall(turn, step, call)),
        parses(call.arguments))
  {
    var us := c.unresolved;
    IndexIn(us, call.id);
    assert UnresolvedIds(us + [Unresolved(call.id, at)]) == UnresolvedIds(us) + [call.id];
  }

  lemma MirrorsResult(c: Check, m: Mode, e: Event, at: nat, parses: string -> bool)
    requires Mirrors(c, m, true) && e.ToolResult? && !m.Bad? && !Next(m, e).Bad?
    ensures Mirrors(CheckNext(c, e, at, parses), Next(m, e), true)
  {
  }

  lemma MirrorsNext(c: Check, m: Mode, e: Event, at: nat, parses: string -> bool, good: bool, good': bool)
    requires Mirrors(c, m, good) && !m.Bad? && !Next(m, e).Bad?
    requires e.ToolCall? ==> e.call.id !in Pending(m)
    requires good' == (good && (e.ToolCall? ==> parses(e.call.arguments)) && (e.StepEnd? ==> Pending(m) == []))
    ensures Mirrors(CheckNext(c, e, at, parses), Next(m, e), good')
  {
    if good && e.ToolCall? {
      MirrorsCall(c, m, e.call, at, parses, e.turn, e.step);
    } else if good && e.ToolResult? {
      MirrorsResult(c, m, e, at, parses);
    }
  }

  lemma {:induction false} CheckMirrors(log: seq<Event>, n: nat, parses: string -> bool)
    requires n <= |log| && !Scan(log[..n]).Bad? && DistinctCalls(log, n)
    ensures Mirrors(CheckTo(log, n, parses), Scan(log[..n]), Parsed(log, n, parses) && Resolved(log, n))
  {
    hide Mirrors, Scan, CheckNext;
    if n == 0 {
      FreshMirrors(parses);
      NothingOpen(log);
    } else {
      assert log[..n] == log[..n - 1] + [log[n - 1]];
      ScanNext(log[..n - 1], log[n - 1]);
      CheckMirrors(log, n - 1, parses);
      MirrorsNext(CheckTo(log, n - 1, parses), Scan(log[..n - 1]), log[n - 1], n - 1, parses,
                  Parsed(log, n - 1, parses) && Resolved(log, n - 1), Parsed(log, n, parses) && Resolved(log, n));
    }
  }

  lemma FreshMirrors(parses: string -> bool)
    ensures Mirrors(Check(false, false, [], []), Outside(0), true)
  {
  }

  /**
   * On a closed word whose pending calls have distinct ids, the choreography check is silent
   * exactly when every call's arguments parse and no step ended with a call unanswered.
   */
  lemma ChoreographyOfClosed(log: seq<Event>, parses: string -> bool)
    requires Scan(log).Outside? && DistinctCalls(log, |log|)
    ensures Choreography(log, parses) == [] <==> Parsed(log, |log|, parses) && Resolved(log, |log|)
  {
    assert log[..|log|] == log;
    CheckMirrors(log, |log|, parses);
  }
}
