/**
 * The default agent driver: phases, turns and steps over one session log, its inbox, and whatever
 * else runs while it awaits.
 *
 * The driver is single-threaded: it runs alone from one `await` to the next. Where it stands is its
 * program point (`Pc`), one for every `await` of the driver's methods, those on its own methods
 * included: an awaited promise resumes its caller a microtask later, and others may run in between.
 * At any point others may send, cancel, splice the inbox or append records. A run is any sequence
 * of such actions and resumptions. Observers do not call back synchronously.
 */
module AgentDriver {
  import opened Options
  import opened SessionEvents
  import ConsumedWork
  import Inbox
  import SessionLog
  import WakeLatch

  /** The driver's phase. Its abort signal is its first reason, if it has one. */
  datatype Phase =
    | Idle(turn: nat)
    | Maintenance(abort: Option<CancelCause>, turn: nat, wakeRequested: bool)
    | Running(abort: Option<CancelCause>, turn: nat, step: nat, wakeRequested: bool)

  /** The same activity with its signal and latch set. */
  function WithLatch(p: Phase, abort: Option<CancelCause>, wakeRequested: bool): Phase {
    match p
    case Idle(_) => p
    case Maintenance(_, turn, _) => Maintenance(abort, turn, wakeRequested)
    case Running(_, turn, step, _) => Running(abort, turn, step, wakeRequested)
  }

  /**
   * What others can reach: the log, the inbox and the phase, with the acts under the current abort
   * controller, the log positions at which request attempts began, and whether a tool scheduler
   * ever failed.
   */
  datatype World = World(
    log: seq<Event>, inbox: Inbox.Lists, phase: Phase,
    acts: seq<WakeLatch.Act>, attempts: seq<nat>, torn: bool)

  // ----- what every reachable state keeps -----

  /** Log positions of the chunks at or after `from`. */
  ghost function ChunksSince(log: seq<Event>, from: nat): (ps: seq<nat>)
    ensures forall k | 0 <= k < |ps| :: from <= ps[k] < |log| && log[ps[k]].AssistantChunk?
    ensures forall i | from <= i < |log| && log[i].AssistantChunk? :: i in ps
    ensures forall j, k | 0 <= j < k < |ps| :: ps[j] < ps[k]
  {
    if |log| <= from then []
    else
      var last := |log| - 1;
      var before := ChunksSince(log[..last], from);
      if log[last].AssistantChunk? then before + [last] else before
  }

  /** The attempt that began at `attempts[i]` was current at log position `p`. */
  predicate Current(attempts: seq<nat>, p: nat, i: nat) {
    i < |attempts| && attempts[i] <= p && (i + 1 < |attempts| ==> p < attempts[i + 1])
  }

  /** The sources are chunks of one step. */
  predicate OwnChunks(log: seq<Event>, sources: seq<nat>, turn: nat, step: nat) {
    forall k | k in sources :: k < |log| && log[k].AssistantChunk? && log[k].turn == turn && log[k].step == step
  }

  /**
   * The message at `p` cites exactly the chunks of the attempt that was current when it was logged,
   * all of its own step.
   */
  ghost predicate CitesAttempt(log: seq<Event>, attempts: seq<nat>, p: nat)
    requires p < |log| && log[p].AssistantMessage?
  {
    && (exists i: nat :: Current(attempts, p, i) && log[p].sources == ChunksSince(log[..p], attempts[i]))
    && OwnChunks(log[..p], log[p].sources, log[p].turn, log[p].step)
  }

  ghost predicate Cited(log: seq<Event>, attempts: seq<nat>) {
    forall p: nat | p < |log| && log[p].AssistantMessage? :: CitesAttempt(log, attempts, p)
  }

  /** A claim is a step-boundary read inside a turn; a queued turn is claimed alone, before the turn's first step. */
  predicate AtBoundary(m: SessionLog.Mode, claim: Splice) {
    m.InTurn? && (claim.target.NextTurn? ==> m.step == 0 && claim.removedCount == Some(1))
  }

  ghost predicate ClaimsAtBoundaries(log: seq<Event>) {
    forall p: nat | p < |log| && ConsumedWork.ClaimsInput(log[p]) ::
          AtBoundary(SessionLog.Scan(log[..p]), log[p].splice)
  }

  /** The phase's signal and latch are what its history makes them. */
  ghost predicate Tracks(phase: Phase, acts: seq<WakeLatch.Act>) {
    !phase.Idle? ==> WakeLatch.Latch(phase.abort, phase.wakeRequested) == WakeLatch.After(phase.Maintenance?, acts)
  }

  /**
   * The log replays to the live inbox, answers cite their attempts, and only a failed scheduler
   * leaves a call unanswered.
   */
  ghost predicate Inv(s: World) {
    && Inbox.Replay(s.log) == Some(s.inbox)
    && Cited(s.log, s.attempts)
    && Tracks(s.phase, s.acts)
    && ClaimsAtBoundaries(s.log)
    && (s.torn || SessionLog.Resolved(s.log, |s.log|))
  }

  predicate HasPending(s: World) {
    s.inbox.nextTurn != [] || s.inbox.nextStep != []
  }

  // ----- growth -----

  predicate Grown(a: seq<Event>, b: seq<Event>) {
    a <= b && AllForeign(b[|a|..])
  }

  lemma GrownScan(a: seq<Event>, b: seq<Event>)
    requires Grown(a, b)
    ensures SessionLog.Scan(b) == SessionLog.Scan(a)
  {
    assert b == a + b[|a|..];
    SessionLog.ScanForeign(a, b[|a|..]);
  }

  lemma {:induction false} GrownChunks(a: seq<Event>, b: seq<Event>, from: nat)
    requires Grown(a, b) && from <= |a|
    ensures ChunksSince(b, from) == ChunksSince(a, from)
    decreases |b|
  {
    if |a| == |b| {
      assert a == b;
    } else {
      var last := |b| - 1;
      assert b[last] == b[|a|..][last - |a|];
      assert b[last] in b[|a|..];
      assert b[..last][|a|..] == b[|a|..][..last - |a|];
      GrownChunks(a, b[..last], from);
    }
  }

  /** The activity is the same one: its kind, turn and step stand, and an abort is final. */
  predicate SameActivity(p: Phase, q: Phase) {
    && p.Idle? == q.Idle? && p.Running? == q.Running?
    && p.turn == q.turn
    && (p.Running? ==> p.step == q.step)
    && (!p.Idle? && p.abort.Some? ==> q.abort == p.abort)
  }

  /** Only the environment has moved. */
  ghost predicate Yielded(s: World, t: World) {
    && Grown(s.log, t.log)
    && t.attempts == s.attempts && t.torn == s.torn
    && SameActivity(s.phase, t.phase)
    && s.acts <= t.acts
  }

  lemma YieldedTrans(s: World, t: World, u: World)
    requires Yielded(s, t) && Yielded(t, u)
    ensures Yielded(s, u)
  {
  }

  // ----- one log entry, one inbox splice -----

  function Logged(s: World, e: Event): World {
    s.(log := s.log + [e])
  }

  /** What an entry of the driver must meet to keep the invariant. */
  ghost predicate MayLog(s: World, e: Event) {
    && !e.InboxSpliced?
    && (e.AssistantMessage? ==>
          && s.attempts != [] && s.attempts[|s.attempts| - 1] <= |s.log|
          && e.sources == ChunksSince(s.log, s.attempts[|s.attempts| - 1])
          && OwnChunks(s.log, e.sources, e.turn, e.step))
    && (e.StepEnd? && !s.torn ==> SessionLog.Pending(SessionLog.Scan(s.log)) == [])
  }

  lemma CitedNext(log: seq<Event>, attempts: seq<nat>, e: Event)
    requires Cited(log, attempts)
    requires e.AssistantMessage? ==> CitesAttempt(log + [e], attempts, |log|)
    ensures Cited(log + [e], attempts)
  {
    hide ChunksSince, OwnChunks;
    var next := log + [e];
    forall p: nat | p < |log| && log[p].AssistantMessage? ensures CitesAttempt(next, attempts, p) {
      assert CitesAttempt(log, attempts, p);
      assert next[..p] == log[..p];
    }
  }

  lemma MessageCites(log: seq<Event>, attempts: seq<nat>, e: Event)
    requires e.AssistantMessage? && attempts != [] && attempts[|attempts| - 1] <= |log|
    requires e.sources == ChunksSince(log, attempts[|attempts| - 1])
    requires OwnChunks(log, e.sources, e.turn, e.step)
    ensures CitesAttempt(log + [e], attempts, |log|)
  {
  }

  lemma ResolvedNext(log: seq<Event>, e: Event)
    requires SessionLog.Resolved(log, |log|)
    requires e.StepEnd? ==> SessionLog.Pending(SessionLog.Scan(log)) == []
    ensures SessionLog.Resolved(log + [e], |log| + 1)
  {
    hide SessionLog.Scan;
    var next := log + [e];
    assert next[..|log|] == log;
    forall i: nat | i < |log| && next[i].StepEnd? ensures SessionLog.Pending(SessionLog.Scan(next[..i])) == [] {
      assert next[..i] == log[..i];
    }
  }

  lemma ClaimsNext(log: seq<Event>, e: Event)
    requires ClaimsAtBoundaries(log)
    requires ConsumedWork.ClaimsInput(e) ==> AtBoundary(SessionLog.Scan(log), e.splice)
    ensures ClaimsAtBoundaries(log + [e])
  {
    hide SessionLog.Scan, AtBoundary;
    var next := log + [e];
    assert next[..|log|] == log;
    forall p: nat | p < |log| && ConsumedWork.ClaimsInput(next[p])
      ensures AtBoundary(SessionLog.Scan(next[..p]), next[p].splice) {
      assert next[..p] == log[..p];
    }
  }

  lemma LoggedKeeps(s: World, e: Event)
    requires Inv(s) && MayLog(s, e)
    ensures Inv(Logged(s, e))
  {
    hide Cited, CitesAttempt, ChunksSince, ClaimsAtBoundaries, SessionLog.Resolved, SessionLog.Scan, Inbox.Acceptable;
    Inbox.ReplayNext(s.log, e);
    ClaimsNext(s.log, e);
    if e.AssistantMessage? { MessageCites(s.log, s.attempts, e); }
    CitedNext(s.log, s.attempts, e);
    if !s.torn { ResolvedNext(s.log, e); }
  }

  /** A new request attempt begins here. */
  lemma AttemptKeeps(s: World)
    requires Inv(s)
    ensures Inv(s.(attempts := s.attempts + [|s.log|]))
  {
    hide ChunksSince, SessionLog.Resolved, Inbox.Replay;
    var attempts := s.attempts + [|s.log|];
    forall p: nat | p < |s.log| && s.log[p].AssistantMessage? ensures CitesAttempt(s.log, attempts, p) {
      assert CitesAttempt(s.log, s.attempts, p);
      var i: nat :| Current(s.attempts, p, i) && s.log[p].sources == ChunksSince(s.log[..p], s.attempts[i]);
      assert Current(attempts, p, i);
    }
  }

  function Spliced(s: World, splice: Splice): World
    requires Inbox.InRange(s.inbox, splice)
  {
    s.(log := s.log + [InboxSpliced(splice)], inbox := Inbox.Spliced(s.inbox, splice))
  }

  lemma SplicedKeeps(s: World, splice: Splice)
    requires Inv(s) && Inbox.Acceptable(s.inbox, splice)
    requires ConsumedWork.ClaimsInput(InboxSpliced(splice)) ==> AtBoundary(SessionLog.Scan(s.log), splice)
    ensures Inv(Spliced(s, splice)) && Yielded(s, Spliced(s, splice))
  {
    ClaimsNext(s.log, InboxSpliced(splice));
    hide Cited, CitesAttempt, ClaimsAtBoundaries, SessionLog.Scan, AtBoundary, SessionLog.Resolved, Inbox.Spliced,
        Inbox.Acceptable, Inbox.Distinct, Inbox.Ids, Inbox.All;
    Inbox.ReplayNext(s.log, InboxSpliced(splice));
    CitedNext(s.log, s.attempts, InboxSpliced(splice));
    if !s.torn { ResolvedNext(s.log, InboxSpliced(splice)); }
    assert (s.log + [InboxSpliced(splice)])[|s.log|..] == [InboxSpliced(splice)];
  }

  lemma OtherKeeps(s: World, kind: nat)
    requires Inv(s)
    ensures Inv(Logged(s, OtherEvent(kind))) && Yielded(s, Logged(s, OtherEvent(kind)))
  {
    hide Inv;
    LoggedKeeps(s, OtherEvent(kind));
    assert (s.log + [OtherEvent(kind)])[|s.log|..] == [OtherEvent(kind)];
  }

  // ----- what sends, cancellations and claims do -----

  /** Whether a send is classified as a wake that cannot join the current activity. */
  predicate WakesAfterAbort(phase: Phase, wakeup: bool) {
    wakeup && !phase.Idle? && phase.abort.Some?
  }

  /** The splice that appends one message to a list. */
  function Insertion(l: Inbox.Lists, target: Target, message: Message): Splice {
    Inbox.Normalized(target, |Inbox.Pick(l, target)|, 0, [message], true)
  }

  /** Start a driver, or latch its wake behind an activity that cannot deliver it. */
  function Woken(s: World, wakeAfterAbort: bool): World {
    if s.phase.Idle? then s.(phase := Running(None, s.phase.turn, 0, false), acts := [])
    else
      var latches := s.phase.abort != Some(Disposed) && (s.phase.Maintenance? || wakeAfterAbort);
      s.(phase := WithLatch(s.phase, s.phase.abort, latches || s.phase.wakeRequested),
          acts := s.acts + [WakeLatch.WakingSend])
  }

  /** A send whose message is not already pending. */
  function Sent(s: World, message: Message, target: Target, wakeup: bool): World {
    var afterAbort := WakesAfterAbort(s.phase, wakeup);
    var inserted := Spliced(s, Insertion(s.inbox, if afterAbort then NextTurn else target, message));
    if wakeup then Woken(inserted, afterAbort) else inserted
  }

  lemma FreshLatch()
    ensures forall maintenance :: WakeLatch.After(maintenance, []) == WakeLatch.Latch(None, false)
  {
  }

  lemma WokenKeeps(s: World, wakeAfterAbort: bool)
    requires Inv(s)
    requires wakeAfterAbort == WakesAfterAbort(s.phase, true)
    ensures Inv(Woken(s, wakeAfterAbort))
    ensures !s.phase.Idle? ==> Yielded(s, Woken(s, wakeAfterAbort))
  {
  }

  lemma InsertionFits(s: World, target: Target, message: Message)
    requires Inv(s)
    ensures Inbox.Acceptable(s.inbox, Insertion(s.inbox, target, message))
          <==> message.id !in Inbox.Ids(Inbox.All(s.inbox))
  {
    hide Cited, SessionLog.Resolved, Inbox.Replay;
    Inbox.InsertionAccepted(s.log, s.inbox, target, |Inbox.Pick(s.inbox, target)|, message);
  }

  lemma SentKeeps(s: World, message: Message, target: Target, wakeup: bool)
    requires Inv(s) && message.id !in Inbox.Ids(Inbox.All(s.inbox))
    ensures Inv(Sent(s, message, target, wakeup))
    ensures !s.phase.Idle? || !wakeup ==> Yielded(s, Sent(s, message, target, wakeup))
  {
    hide Inv, Inbox.Spliced, Inbox.Acceptable;
    var afterAbort := WakesAfterAbort(s.phase, wakeup);
    var resolved := if afterAbort then NextTurn else target;
    InsertionFits(s, resolved, message);
    var splice := Insertion(s.inbox, resolved, message);
    SplicedKeeps(s, splice);
    var inserted := Spliced(s, splice);
    if wakeup {
      WokenKeeps(inserted, afterAbort);
      if !s.phase.Idle? { YieldedTrans(s, inserted, Woken(inserted, afterAbort)); }
    }
  }

  /** Cancel all pending input of one list. */
  function ClearedList(s: World, target: Target): World {
    var list := Inbox.Pick(s.inbox, target);
    if list == [] then s else Spliced(s, Inbox.Normalized(target, 0, |list|, [], true))
  }

  lemma ClearedListKeeps(s: World, target: Target)
    requires Inv(s)
    ensures Inv(ClearedList(s, target)) && Yielded(s, ClearedList(s, target))
    ensures ClearedList(s, target).inbox == Inbox.With(s.inbox, target, [])
  {
    hide Inv, Cited, SessionLog.Resolved, Inbox.Replay, Inbox.Distinct, Inbox.Ids, Inbox.All;
    var list := Inbox.Pick(s.inbox, target);
    if list != [] {
      var splice := Inbox.Normalized(target, 0, |list|, [], true);
      RemovalFits(s, splice);
      SplicedKeeps(s, splice);
      assert list[..0] + [] + list[|list|..] == [];
    } else {
      assert s.log[|s.log|..] == [];
    }
  }

  lemma RemovalFits(s: World, splice: Splice)
    requires Inv(s) && Inbox.InRange(s.inbox, splice) && splice.inserted == []
    ensures Inbox.Acceptable(s.inbox, splice)
  {
    hide Cited, SessionLog.Resolved, Inbox.Replay, Inbox.Distinct, Inbox.Ids, Inbox.All;
    Inbox.ReplayDistinct(s.log);
    Inbox.ShorterDistinct(s.inbox, splice);
  }

  function Cleared(s: World): World {
    ClearedList(ClearedList(s, NextStep), NextTurn)
  }

  /** A cancellation: clear and forget the latch unless the inbox is kept, then abort the activity. */
  function Cancelled(s: World, cause: CancelCause, keepInbox: bool): World {
    var t := if keepInbox then s else Cleared(s);
    if t.phase.Idle? then t
    else
      var abort := if t.phase.abort.Some? then t.phase.abort else Some(cause);
      t.(phase := WithLatch(t.phase, abort, keepInbox && t.phase.wakeRequested),
         acts := t.acts + [WakeLatch.Cancel(cause, keepInbox)])
  }

  lemma ClearedKeeps(s: World)
    requires Inv(s)
    ensures Inv(Cleared(s)) && Yielded(s, Cleared(s)) && Cleared(s).phase == s.phase && Cleared(s).acts == s.acts
    ensures !HasPending(Cleared(s))
  {
    hide Inv, ClearedList;
    ClearedListKeeps(s, NextStep);
    ClearedListKeeps(ClearedList(s, NextStep), NextTurn);
    YieldedTrans(s, ClearedList(s, NextStep), Cleared(s));
    ClearedListPhase(s, NextStep);
    ClearedListPhase(ClearedList(s, NextStep), NextTurn);
  }

  lemma ClearedListPhase(s: World, target: Target)
    ensures ClearedList(s, target).phase == s.phase && ClearedList(s, target).acts == s.acts
  {
  }

  lemma CancelledKeeps(s: World, cause: CancelCause, keepInbox: bool)
    requires Inv(s)
    ensures Inv(Cancelled(s, cause, keepInbox)) && Yielded(s, Cancelled(s, cause, keepInbox))
    ensures !keepInbox ==> !HasPending(Cancelled(s, cause, keepInbox))
  {
    hide Cleared, Cited, SessionLog.Resolved, SessionLog.Scan, Inbox.Replay, WakeLatch.After;
    var t := if keepInbox then s else Cleared(s);
    if keepInbox {
      assert s.log[|s.log|..] == [];
    } else {
      ClearedKeeps(s);
    }
    if !t.phase.Idle? {
      WakeLatch.AfterNext(t.phase.Maintenance?, t.acts, WakeLatch.Cancel(cause, keepInbox));
    }
  }

  /** The claim of up to `count` messages from the front of one list. */
  function Taken(s: World, target: Target, count: nat): World {
    s.(log := s.log + Inbox.ClaimEntry(s.inbox, target, count), inbox := Inbox.Unclaimed(s.inbox, target, count))
  }

  /** A claim may be made at this point of the word. */
  predicate MayClaim(m: SessionLog.Mode, target: Target, count: nat) {
    m.InTurn? && (target.NextTurn? ==> m.step == 0 && count == 1)
  }

  lemma TakenKeeps(s: World, target: Target, count: nat)
    requires Inv(s) && MayClaim(SessionLog.Scan(s.log), target, count)
    ensures Inv(Taken(s, target, count)) && Yielded(s, Taken(s, target, count))
  {
    hide Inv, Cited, SessionLog.Resolved, Inbox.Replay, Inbox.Distinct, Inbox.Ids, Inbox.All;
    var list := Inbox.Pick(s.inbox, target);
    var n := Inbox.Min(count, |list|);
    if n == 0 {
      assert s.log + [] == s.log && s.log[|s.log|..] == [];
      assert list[0..] == list;
      assert Taken(s, target, count) == s;
    } else {
      var splice := Inbox.Normalized(target, 0, n, [], false);
      RemovalFits(s, splice);
      SplicedKeeps(s, splice);
      assert list[..0] + [] + list[n..] == list[n..];
      assert Taken(s, target, count) == Spliced(s, splice);
    }
  }

  /** One step's batch: all next-step input, then one queued turn if requested. */
  function Claimed(s: World, target: Target): World {
    var t := Taken(s, NextStep, |s.inbox.nextStep|);
    if target.NextTurn? then Taken(t, NextTurn, 1) else t
  }

  lemma ClaimedKeeps(s: World, target: Target)
    requires Inv(s) && MayClaim(SessionLog.Scan(s.log), target, 1)
    ensures Inv(Claimed(s, target)) && Yielded(s, Claimed(s, target)) && Claimed(s, target).phase == s.phase
  {
    hide Inv;
    var t := Taken(s, NextStep, |s.inbox.nextStep|);
    TakenKeeps(s, NextStep, |s.inbox.nextStep|);
    if target.NextTurn? {
      YieldedShape(s, t);
      TakenKeeps(t, NextTurn, 1);
      YieldedTrans(s, t, Taken(t, NextTurn, 1));
    }
  }

  // ----- one turn, as the driver's own entries make it -----

  /** The driver holds step `step` of turn `turn`. */
  predicate At(s: World, turn: nat, step: nat) {
    s.phase.Running? && s.phase.turn == turn && s.phase.step == step
  }

  predicate Unanswered(m: SessionLog.Mode, turn: nat, step: nat) {
    m == SessionLog.InStep(turn, step, SessionLog.Opening) || m == SessionLog.InStep(turn, step, SessionLog.Streaming)
  }

  /** The current attempt has streamed exactly the chunks at `chunkSeqs`. */
  ghost predicate Attempting(s: World, turn: nat, step: nat, chunkSeqs: seq<nat>) {
    && At(s, turn, step) && Unanswered(SessionLog.Scan(s.log), turn, step)
    && s.attempts != [] && s.attempts[|s.attempts| - 1] <= |s.log|
    && chunkSeqs == ChunksSince(s.log, s.attempts[|s.attempts| - 1])
    && OwnChunks(s.log, chunkSeqs, turn, step)
  }

  lemma AttemptBegins(s: World, turn: nat, step: nat)
    requires Inv(s) && At(s, turn, step) && Unanswered(SessionLog.Scan(s.log), turn, step)
    ensures var t := s.(attempts := s.attempts + [|s.log|]); Inv(t) && Attempting(t, turn, step, [])
  {
    hide Inv, SessionLog.Scan;
    AttemptKeeps(s);
    assert ChunksSince(s.log, |s.log|) == [];
  }

  lemma AttemptYields(s: World, t: World, turn: nat, step: nat, chunkSeqs: seq<nat>)
    requires Attempting(s, turn, step, chunkSeqs) && Yielded(s, t)
    ensures Attempting(t, turn, step, chunkSeqs)
  {
    hide SessionLog.Scan, ChunksSince;
    GrownScan(s.log, t.log);
    GrownChunks(s.log, t.log, s.attempts[|s.attempts| - 1]);
  }

  lemma AttemptStreams(s: World, turn: nat, step: nat, chunkSeqs: seq<nat>, chunk: nat)
    requires Attempting(s, turn, step, chunkSeqs)
    ensures MayLog(s, AssistantChunk(turn, step, chunk))
    ensures Attempting(Logged(s, AssistantChunk(turn, step, chunk)), turn, step, chunkSeqs + [|s.log|])
  {
    hide SessionLog.Scan;
    var e := AssistantChunk(turn, step, chunk);
    SessionLog.ScanNext(s.log, e);
    assert (s.log + [e])[..|s.log|] == s.log;
  }

  /** The answer of an attempt may be logged, and answers the step. */
  lemma AttemptAnswered(s: World, turn: nat, step: nat, chunkSeqs: seq<nat>, interrupted: bool)
    requires Attempting(s, turn, step, chunkSeqs)
    ensures var e := AssistantMessage(turn, step, interrupted, chunkSeqs);
            && MayLog(s, e)
            && SessionLog.Next(SessionLog.Scan(s.log), e)
                 == SessionLog.InStep(turn, step, if interrupted then SessionLog.Closed else SessionLog.Answered([]))
  {
  }

  /** The tool entries of a step continue it, with the unanswered calls pending. */
  lemma ToolsContinue(log: seq<Event>, base: nat, turn: nat, step: nat, calls: seq<Call>, started: nat,
      outcomes: seq<Outcome>)
    requires base <= |log| && SessionLog.Scan(log[..base]) == SessionLog.InStep(turn, step, SessionLog.Answered([]))
    requires Paired(log, base, turn, step, calls, started, outcomes)
    ensures SessionLog.Scan(log).InStep? && SessionLog.Scan(log).turn == turn && SessionLog.Scan(log).step == step
    ensures |outcomes| == started ==> SessionLog.Pending(SessionLog.Scan(log)) == []
  {
    hide Paired, SessionLog.Scan;
    SessionLog.PairedIsToolPhase(log, base, turn, step, calls, started, outcomes);
  }

  // ----- what a step comes to -----

  datatype StepEnd = StepCompleted | StepMaxTokens

  datatype Finish = FinishFailure | FinishMaxTokens | FinishOther(calls: seq<Call>)

  datatype ToolOutcome = Ran(concluded: bool) | SchedulerFailed

  /** The course of one step: how its answer finished, and what its tools came to. */
  datatype Course = Course(answer: Option<Finish>, tools: Option<ToolOutcome>)

  /** The step's answer was cut off at the token ceiling. */
  predicate HitCeiling(c: Course) {
    c.answer == Some(FinishMaxTokens)
  }

  /** The step was answered without tool calls, or its tools concluded the turn. */
  predicate Settled(c: Course) {
    c.answer == Some(FinishOther([])) || c.tools == Some(Ran(true))
  }

  /** The step's tools ran, and their results are for the model to see. */
  predicate Unconcluded(c: Course) {
    c.tools == Some(Ran(false))
  }

  /** A step uses tools exactly when its answer calls some. */
  predicate Coherent(c: Course) {
    c.tools.Some? ==> c.answer.Some? && c.answer.value.FinishOther? && c.answer.value.calls != []
  }

  /** What `step` returns, of a step that took this course. */
  predicate EndOf(end: Option<StepEnd>, c: Course) {
    && (end == Some(StepMaxTokens) <==> HitCeiling(c))
    && (end == Some(StepCompleted) <==> Settled(c))
    && (end == None <==> Unconcluded(c))
    && Coherent(c)
  }

  predicate AnyHitCeiling(courses: seq<Course>) {
    exists i :: 0 <= i < |courses| && HitCeiling(courses[i])
  }

  /** What a turn's end says when the turn was not thrown out of: a ceiling hit by any step is never downgraded. */
  function Ending(courses: seq<Course>): Option<TurnEndReason> {
    if courses == [] then None
    else if AnyHitCeiling(courses) then Some(MaxTokens)
    else if Settled(courses[|courses| - 1]) then Some(Completed)
    else None
  }

  /** How the code folds a step's ending into its turn's is the turn's ending so far. */
  lemma EndingNext(courses: seq<Course>, c: Course, end: Option<StepEnd>)
    requires EndOf(end, c)
    ensures Ending(courses + [c]) == if Ending(courses) == Some(MaxTokens) then Some(MaxTokens) else ReasonOf(end)
  {
    var next := courses + [c];
    if AnyHitCeiling(courses) {
      var i :| 0 <= i < |courses| && HitCeiling(courses[i]);
      assert HitCeiling(next[i]);
    }
    assert next[|courses|] == c;
  }

  /** What a caller needs of a yield. */
  lemma YieldedShape(s: World, t: World)
    requires Yielded(s, t)
    ensures SameActivity(s.phase, t.phase) && SessionLog.Scan(t.log) == SessionLog.Scan(s.log)
  {
    GrownScan(s.log, t.log);
  }

  lemma YieldedPaired(s: World, t: World, base: nat, turn: nat, step: nat, calls: seq<Call>, started: nat,
      outcomes: seq<Outcome>)
    requires Yielded(s, t) && base <= |s.log|
    requires Paired(s.log, base, turn, step, calls, started, outcomes)
    ensures Paired(t.log, base, turn, step, calls, started, outcomes)
      && CallPositions(t.log, base) == CallPositions(s.log, base)
  {
    hide Paired;
    PairedForeign(s.log, base, t.log[|s.log|..], turn, step, calls, started, outcomes);
    assert s.log + t.log[|s.log|..] == t.log;
  }

  lemma TornKeeps(s: World)
    requires Inv(s)
    ensures Inv(s.(torn := true))
  {
  }

  /** Moving within the activity keeps the invariant. */
  lemma MovedKeeps(s: World, turn: nat, step: nat)
    requires Inv(s) && s.phase.Running?
    ensures Inv(s.(phase := Running(s.phase.abort, turn, step, s.phase.wakeRequested)))
  {
    hide Cited, ClaimsAtBoundaries, SessionLog.Resolved, Inbox.Replay;
  }

  /** A fresh controller starts a fresh history, of a driver or of a maintenance job. */
  lemma FreshKeeps(s: World, phase: Phase)
    requires Inv(s) && !phase.Idle? && phase.abort.None? && !phase.wakeRequested
    ensures Inv(s.(phase := phase, acts := []))
  {
    hide Cited, ClaimsAtBoundaries, SessionLog.Resolved, Inbox.Replay, WakeLatch.After;
    FreshLatch();
  }

  lemma IdleKeeps(s: World)
    requires Inv(s)
    ensures Inv(s.(phase := Idle(s.phase.turn)))
  {
    hide Cited, ClaimsAtBoundaries, SessionLog.Resolved, Inbox.Replay;
  }

  /** The entries of a step's input. */
  function Inputs(messages: seq<Message>): (log: seq<Event>)
    ensures |log| == |messages| && forall i | 0 <= i < |log| :: log[i] == UserMessage(messages[i])
  {
    seq(|messages|, i requires 0 <= i < |messages| => UserMessage(messages[i]))
  }

  /** How the code folds a step's ending into its turn's. */
  function ReasonOf(end: Option<StepEnd>): Option<TurnEndReason> {
    match end
    case None => None
    case Some(StepCompleted) => Some(Completed)
    case Some(StepMaxTokens) => Some(MaxTokens)
  }

  // ----- where the driver stands -----

  datatype StepOutcome = StepReturns(end: Option<StepEnd>) | StepThrows

  datatype PreStepDecision = Reject | Enter(messages: seq<Message>)

  datatype PreStepOutcome = PreStepThrows | Decides(decision: PreStepDecision)

  /** A tool phase: where it began, its calls, and the entries logged so far. */
  datatype Tools = Tools(base: nat, calls: seq<Call>, callSeqs: seq<nat>, outcomes: seq<Outcome>)

  /** The await at which the driver's activity stands, with the locals that outlive it. */
  datatype Pc =
    | NoDriver                                 // idle, or in maintenance
    | Assembling                               // preStep awaits the system prompt
    | Deciding                                 // preStep awaits the pre-step plugins
    | Decided(outcome: PreStepOutcome)         // turn awaits preStep
    | Proposing                                // buildRequest awaits the request plugins
    | Preparing                                // buildRequest awaits the prepared call
    | Built(threw: bool)                       // step awaits buildRequest
    | Streaming(chunkSeqs: seq<nat>)           // step awaits the next chunk
    | Closing(chunkSeqs: seq<nat>)             // step, throwing out of the stream, awaits the iterator's close
    | Failing                                  // step awaits the request-error plugins
    | InTools(tools: Tools)                    // step awaits the tool scheduler, which is at work
    | ToolsDone(result: ToolOutcome)           // step awaits the tool scheduler, which has returned
    | StepDone(step: StepOutcome)              // turn awaits step
    | Stopping                                 // turn awaits the turn-stopping plugins
    | TurnDone(again: bool)                    // kick awaits turn

  /** The branch a turn left by. */
  datatype Exit =
    | Threw         // an exception, a fired signal noticed included
    | Rejected      // the pre-step rejected
    | NothingFirst  // the first step was entered with no messages
    | NothingLeft   // a later step was entered with no messages, after an ending
    | Stopped       // an ending, and no input for a next step

  /**
   * One closed turn: the log position of its end, how it was left, its signal by then, the course of
   * each step that returned, and what was pending.
   */
  datatype Ended = Ended(at: nat, exit: Exit, signal: Option<CancelCause>, courses: seq<Course>, pending: bool,
      again: bool)

  /** A turn that was followed by another in the same activity: the acts under its controller, and how it was left. */
  datatype Renewal = Renewal(acts: seq<WakeLatch.Act>, exit: Exit)

  /**
   * One activity, when it converged: its renewed turns, the end of the last controller's turn if it
   * opened one, and that controller's acts.
   */
  datatype Convergence = Convergence(
    at: nat, maintenance: bool, renewed: seq<Renewal>, last: Option<Ended>,
    acts: seq<WakeLatch.Act>, pending: bool, restarted: bool)

  /**
   * What the code does not keep: the record of the run since the log was `base` long. `course` is
   * what the open step has come to, `courses` are the courses of the open turn's returned steps,
   * `last` is the end of the present controller's turn, `renewed` are the activity's turns before
   * that.
   */
  datatype Run = Run(
    base: nat, course: Course, courses: seq<Course>, last: Option<Ended>,
    renewed: seq<Renewal>, ended: seq<Ended>, converged: seq<Convergence>)

  /** `turnEnds` is the turn's ending so far. */
  datatype State = State(w: World, pc: Pc, turnEnds: Option<TurnEndReason>, run: Run)

  // ----- what the driver does between two awaits -----

  function LoggedBy(s: State, e: Event): State {
    s.(w := Logged(s.w, e))
  }

  /** Claim the batch of the next step and begin to assemble its prompt. */
  function BeginPreStep(s: State, target: Target): State {
    s.(w := Claimed(s.w, target), pc := Assembling)
  }

  /** `turn`: nothing under a fired signal; otherwise a new turn is begun. */
  function BeginTurn(s: State): State
    requires s.w.phase.Running?
  {
    var p := s.w.phase;
    if p.abort.Some? then s.(pc := TurnDone(false))
    else
      var w := Logged(s.w, TurnStart(p.turn + 1)).(phase := Running(p.abort, p.turn + 1, p.step, p.wakeRequested));
      BeginPreStep(State(w, s.pc, None, s.run.(courses := [])), NextTurn)
  }

  /** The reason a turn left by `exit` ends for. */
  function EndReason(s: State, exit: Exit): TurnEndReason
    requires s.w.phase.Running?
  {
    match exit
    case Threw => if s.w.phase.abort.Some? then Aborted(s.w.phase.abort.value) else Failed
    case Rejected => Blocked
    case NothingFirst => Completed
    case NothingLeft => s.turnEnds.GetOr(Completed)
    case Stopped => s.turnEnds.GetOr(Completed)
  }

  /** The end of a turn. One that broke off with input pending is followed by another, under a fresh controller. */
  function TurnClosed(s: State, exit: Exit): State
    requires s.w.phase.Running?
  {
    var pending := HasPending(s.w);
    var again := (exit.NothingLeft? || exit.Stopped?) && pending;
    var record := Ended(|s.w.log|, exit, s.w.phase.abort, s.run.courses, pending, again);
    var t := LoggedBy(s, TurnEnd(s.w.phase.turn, EndReason(s, exit)))
      .(run := s.run.(ended := s.run.ended + [record], last := Some(record)));
    if again then
      t.(w := t.w.(phase := Running(None, s.w.phase.turn, 0, false), acts := []), pc := TurnDone(true),
         run := t.run.(renewed := t.run.renewed + [Renewal(s.w.acts, exit)], last := None))
    else t.(pc := TurnDone(false))
  }

  /** Enter a step: its boundary, its input, and its first request. */
  function StepEntered(s: State, messages: seq<Message>): State
    requires s.w.phase.Running?
  {
    var p := s.w.phase;
    s.(w := s.w.(log := s.w.log + [StepStart(p.turn, p.step + 1)] + Inputs(messages),
                 phase := Running(p.abort, p.turn, p.step + 1, p.wakeRequested)),
       pc := Proposing, run := s.run.(course := Course(None, None)))
  }

  /** `turn` goes on with what its pre-step returned. The signal is looked at only before a step is entered. */
  function TakeDecision(s: State, outcome: PreStepOutcome): State
    requires s.w.phase.Running?
  {
    match outcome
    case PreStepThrows => TurnClosed(s, Threw)
    case Decides(Reject) => TurnClosed(s, Rejected)
    case Decides(Enter(messages)) =>
      if s.turnEnds.Some? && messages == [] then TurnClosed(s, NothingLeft)
      else if s.w.phase.step == 0 && messages == [] then TurnClosed(s, NothingFirst)
      else if s.w.phase.abort.Some? then TurnClosed(s, Threw)
      else StepEntered(s, messages)
  }

  /** `step` goes on with a built request: a new attempt, which may fail to open. */
  function BeginAttempt(s: State, ok: bool): State
    requires s.w.phase.Running?
  {
    var t := s.(w := s.w.(attempts := s.w.attempts + [|s.w.log|]));
    if !ok || s.w.phase.abort.Some? then t.(pc := StepDone(StepThrows)) else t.(pc := Streaming([]))
  }

  /** A stream that has been thrown out of leaves what it has as an interrupted answer, if the signal fired. */
  function StreamFails(s: State, chunkSeqs: seq<nat>, content: bool): State
    requires s.w.phase.Running?
  {
    var p := s.w.phase;
    var t := if p.abort.Some? && content then LoggedBy(s, AssistantMessage(p.turn, p.step, true, chunkSeqs)) else s;
    t.(pc := StepDone(StepThrows))
  }

  /** A chunk is logged unless the signal fired, which breaks the loop off. */
  function TakeChunk(s: State, chunkSeqs: seq<nat>, chunk: nat): State
    requires s.w.phase.Running?
  {
    var p := s.w.phase;
    if p.abort.Some? then s.(pc := Closing(chunkSeqs))
    else LoggedBy(s, AssistantChunk(p.turn, p.step, chunk)).(pc := Streaming(chunkSeqs + [|s.w.log|]))
  }

  /** The end of a stream: an answer, or a failure to ask about. */
  function FinishStream(s: State, chunkSeqs: seq<nat>, finish: Finish, content: bool): State
    requires s.w.phase.Running?
  {
    var p := s.w.phase;
    if p.abort.Some? then StreamFails(s, chunkSeqs, content)
    else if finish.FinishFailure? then s.(pc := Failing)
    else
      var t := LoggedBy(s, AssistantMessage(p.turn, p.step, false, chunkSeqs))
        .(run := s.run.(course := Course(Some(finish), None)));
      match finish
      case FinishMaxTokens => t.(pc := StepDone(StepReturns(Some(StepMaxTokens))))
      case FinishOther(calls) =>
        if calls == [] then t.(pc := StepDone(StepReturns(Some(StepCompleted))))
        else t.(pc := InTools(Tools(|t.w.log|, calls, [], [])))
      case FinishFailure => t
  }

  /** The tool scheduler returns or throws. */
  function ToolsEnded(s: State, result: ToolOutcome): State {
    s.(w := s.w.(torn := s.w.torn || result.SchedulerFailed?), pc := ToolsDone(result),
       run := s.run.(course := s.run.course.(tools := Some(result))))
  }

  /** The step's end, and the turn's ending brought up to date unless the step threw. */
  function StepClosed(s: State, outcome: StepOutcome): (t: State)
    requires s.w.phase.Running?
    ensures t.w.phase == s.w.phase
  {
    var closed := LoggedBy(s, StepEnd(s.w.phase.turn, s.w.phase.step));
    match outcome
    case StepThrows => closed
    case StepReturns(end) =>
      closed.(turnEnds := if s.turnEnds == Some(MaxTokens) then s.turnEnds else ReasonOf(end),
          run := s.run.(courses := s.run.courses + [s.run.course]))
  }

  /** `turn` closes its step and decides how to go on. */
  function FinishStep(s: State, outcome: StepOutcome): State
    requires s.w.phase.Running?
  {
    var t := StepClosed(s, outcome);
    if outcome.StepThrows? || t.w.phase.abort.Some? then TurnClosed(t, Threw)
    else if t.turnEnds.Some? && t.w.inbox.nextStep == [] then t.(pc := Stopping)
    else BeginPreStep(t, NextStep)
  }

  /** `turn` goes on after the turn-stopping plugins. */
  function FinishStopping(s: State, ok: bool): State
    requires s.w.phase.Running?
  {
    if !ok || s.w.phase.abort.Some? then TurnClosed(s, Threw)
    else if s.w.inbox.nextStep == [] then TurnClosed(s, Stopped)
    else BeginPreStep(s, NextStep)
  }

  /** The end of an activity: idle, unless a latched wake is replayed over pending input. */
  function Converged(s: State): State
    requires !s.w.phase.Idle?
  {
    var pending := HasPending(s.w);
    var restarted := s.w.phase.wakeRequested && pending;
    var record := Convergence(|s.w.log|, s.w.phase.Maintenance?, s.run.renewed, s.run.last, s.w.acts, pending,
        restarted);
    var idle := s.(w := s.w.(phase := Idle(s.w.phase.turn)), pc := NoDriver);
    var next := if restarted then Reserve(idle.(w := Woken(idle.w, false))) else idle;
    next.(run := next.run.(converged := next.run.converged + [record]))
  }

  /** A driver that has just been reserved runs at once, up to its first await. */
  function Reserve(s: State): State
    requires s.w.phase.Running?
  {
    BeginTurn(s.(run := s.run.(last := None, renewed := [])))
  }

  // ----- actions -----

  datatype Action =
    // others, at any time
    | SendMessage(message: Message, target: Target, wakeup: bool)
    | CancelActivity(cause: CancelCause, keepInbox: bool)
    | PluginSplice(splice: Splice)
    | AppendRecord(kind: nat)
    | StartMaintenance
    | MaintenanceSettles
    // the driver, resumed at its await
    | PromptAssembled(ok: bool)
    | PluginsDecide(ok: bool, decision: PreStepDecision)
    | PreStepReturns
    | RequestProposed(ok: bool)
    | CallPrepared(ok: bool, header: bool, context: bool)
    | RequestReturns(ok: bool)
    | ChunkArrives(chunk: nat)
    | StreamEnds(finish: Finish, content: bool)
    | StreamThrows(content: bool)
    | StreamCloses(content: bool)
    | FailureAnswered(ok: bool, retry: bool)
    | ToolOpens
    | ToolAnswers(outcome: Outcome)
    | ToolsReturn(concluded: bool)
    | ToolsFail
    | ToolsResume
    | StepReturnsToTurn
    | StoppingSettles(ok: bool)
    | TurnReturns

  predicate Pending(w: World, message: Message) {
    message.id in Inbox.Ids(Inbox.All(w.inbox))
  }

  predicate Enabled(s: State, a: Action) {
    match a
    case SendMessage(_, _, _) => true
    case CancelActivity(_, _) => true
    case PluginSplice(splice) => Inbox.Acceptable(s.w.inbox, splice) && !ConsumedWork.ClaimsInput(InboxSpliced(splice))
    case AppendRecord(_) => true
    case StartMaintenance => s.w.phase.Idle?
    case MaintenanceSettles => s.w.phase.Maintenance?
    case _ => s.w.phase.Running? && Resumes(s.pc, a)
  }

  /** Whether a resumption is one of the await the driver stands at. */
  predicate Resumes(pc: Pc, a: Action) {
    match a
    case PromptAssembled(_) => pc.Assembling?
    case PluginsDecide(_, _) => pc.Deciding?
    case PreStepReturns => pc.Decided?
    case RequestProposed(_) => pc.Proposing?
    case CallPrepared(_, _, _) => pc.Preparing?
    case RequestReturns(_) => pc.Built?
    case ChunkArrives(_) => pc.Streaming?
    case StreamEnds(_, _) => pc.Streaming?
    case StreamThrows(_) => pc.Streaming?
    case StreamCloses(_) => pc.Closing?
    case FailureAnswered(_, _) => pc.Failing?
    case ToolOpens => pc.InTools? && |pc.tools.callSeqs| < |pc.tools.calls|
    case ToolAnswers(_) => pc.InTools? && |pc.tools.outcomes| < |pc.tools.callSeqs| <= |pc.tools.calls|
    case ToolsReturn(_) => pc.InTools? && |pc.tools.outcomes| == |pc.tools.calls|
    case ToolsFail => pc.InTools?
    case ToolsResume => pc.ToolsDone?
    case StepReturnsToTurn => pc.StepDone?
    case StoppingSettles(_) => pc.Stopping?
    case TurnReturns => pc.TurnDone?
    case _ => false
  }

  /** One action of somebody else, or one resumption of the driver up to its next await. */
  function Step(s: State, a: Action): State
    requires Enabled(s, a)
  {
    match a
    case SendMessage(message, target, wakeup) =>
      if Pending(s.w, message) then s
      else
        var t := s.(w := Sent(s.w, message, target, wakeup));
        if s.w.phase.Idle? && wakeup then Reserve(t) else t
    case CancelActivity(cause, keepInbox) => s.(w := Cancelled(s.w, cause, keepInbox))
    case PluginSplice(splice) => s.(w := Spliced(s.w, splice))
    case AppendRecord(kind) => LoggedBy(s, OtherEvent(kind))
    case StartMaintenance =>
      s.(w := s.w.(phase := Maintenance(None, s.w.phase.turn, false), acts := []),
          run := s.run.(last := None, renewed := []))
    case MaintenanceSettles => Converged(s)
    case PromptAssembled(ok) => s.(pc := if ok && s.w.phase.abort.None? then Deciding else Decided(PreStepThrows))
    case PluginsDecide(ok, decision) =>
      s.(pc := Decided(if ok && s.w.phase.abort.None? then Decides(decision) else PreStepThrows))
    case PreStepReturns => TakeDecision(s, s.pc.outcome)
    case RequestProposed(ok) => s.(pc := if ok && s.w.phase.abort.None? then Preparing else Built(true))
    case CallPrepared(ok, header, context) =>
      if !ok || s.w.phase.abort.Some? then s.(pc := Built(true))
      else
        var t := if header then LoggedBy(s, OtherEvent(0)) else s;
        var u := if context then LoggedBy(t, OtherEvent(1)) else t;
        u.(pc := Built(false))
    case RequestReturns(ok) => if s.pc.threw then s.(pc := StepDone(StepThrows)) else BeginAttempt(s, ok)
    case ChunkArrives(chunk) => TakeChunk(s, s.pc.chunkSeqs, chunk)
    case StreamEnds(finish, content) => FinishStream(s, s.pc.chunkSeqs, finish, content)
    case StreamThrows(content) => StreamFails(s, s.pc.chunkSeqs, content)
    case StreamCloses(content) => StreamFails(s, s.pc.chunkSeqs, content)
    case FailureAnswered(ok, retry) =>
      s.(pc := if ok && s.w.phase.abort.None? && retry then Proposing else StepDone(StepThrows))
    case ToolOpens =>
      var t := s.pc.tools;
      LoggedBy(s, ToolCall(s.w.phase.turn, s.w.phase.step, t.calls[|t.callSeqs|]))
        .(pc := InTools(t.(callSeqs := t.callSeqs + [|s.w.log|])))
    case ToolAnswers(outcome) =>
      var t := s.pc.tools;
      var n := |t.outcomes|;
      LoggedBy(s, ToolResult(s.w.phase.turn, s.w.phase.step, t.calls[n].id, outcome, t.callSeqs[n]))
        .(pc := InTools(t.(outcomes := t.outcomes + [outcome])))
    case ToolsReturn(concluded) => ToolsEnded(s, Ran(concluded))
    case ToolsFail => ToolsEnded(s, SchedulerFailed)
    case ToolsResume =>
      s.(pc := StepDone(match s.pc.result
        case Ran(concluded) => StepReturns(if concluded then Some(StepCompleted) else None)
        case SchedulerFailed => StepThrows))
    case StepReturnsToTurn => FinishStep(s, s.pc.step)
    case StoppingSettles(ok) => FinishStopping(s, ok)
    case TurnReturns => if s.pc.again then BeginTurn(s) else Converged(s)
  }

  // ----- what every reachable state keeps, of the driver -----

  /** Why a closed turn ended, and whether another followed. */
  predicate EndedFor(r: Ended, reason: TurnEndReason) {
    match r.exit
    case Threw => !r.again && reason == (if r.signal.Some? then Aborted(r.signal.value) else Failed)
    case Rejected => !r.again && reason == Blocked
    case NothingFirst => !r.again && reason == Completed && r.courses == []
    case NothingLeft => Ending(r.courses) == Some(reason) && (r.again <==> r.pending)
    case Stopped => Ending(r.courses) == Some(reason) && (r.again <==> r.pending) && r.signal.None?
  }

  /** Input was pending when the log was `n` long. */
  predicate InputAt(log: seq<Event>, n: nat)
    requires n <= |log|
  {
    Inbox.Replay(log[..n]).Some? && Inbox.Replay(log[..n]).value != Inbox.Lists([], [])
  }

  /** The record of a turn's end tells what the log does. */
  predicate EndedOk(log: seq<Event>, r: Ended) {
    r.at < |log| && log[r.at].TurnEnd? && EndedFor(r, log[r.at].reason) && (r.pending <==> InputAt(log, r.at))
  }

  /** Every turn end since `base` is on record. */
  ghost predicate EndsRecorded(log: seq<Event>, base: nat, ended: seq<Ended>) {
    && (forall i | 0 <= i < |ended| :: EndedOk(log, ended[i]))
    && (forall p: nat | base <= p < |log| && log[p].TurnEnd? :: exists i :: 0 <= i < |ended| && ended[i].at == p)
  }

  /** A turn that was followed by another was left with its signal fired only by entering an empty step. */
  ghost predicate RenewalOk(r: Renewal) {
    r.exit.NothingLeft? || (r.exit.Stopped? && WakeLatch.Uncancelled(r.acts, |r.acts|))
  }

  ghost predicate RenewalsOk(rs: seq<Renewal>) {
    forall k | 0 <= k < |rs| :: RenewalOk(rs[k])
  }

  /**
   * A converged activity restarted exactly when it owed a wake over pending input, and then opened
   * the next turn right there in the log. Its last
   * controller's turn is on record, unless it was cancelled before it opened one.
   */
  ghost predicate ConvergenceOk(log: seq<Event>, ended: seq<Ended>, c: Convergence) {
    && c.at <= |log| && (c.pending <==> InputAt(log, c.at))
    && (c.restarted <==> WakeLatch.Owed(c.maintenance, c.acts) && c.pending)
    && (c.restarted ==> c.at < |log| && log[c.at].TurnStart?)
    && (c.maintenance ==> c.renewed == [] && c.last.None?)
    && (c.last.Some? ==> LastOk(c.last.value, c.at, ended))
    && (c.last.None? && !c.maintenance ==> !WakeLatch.Uncancelled(c.acts, |c.acts|))
    && RenewalsOk(c.renewed)
  }

  predicate LastOk(r: Ended, before: nat, ended: seq<Ended>) {
    r.at < before && r in ended && !r.again
  }

  ghost predicate AllConverged(log: seq<Event>, ended: seq<Ended>, cs: seq<Convergence>) {
    forall i | 0 <= i < |cs| :: ConvergenceOk(log, ended, cs[i])
  }

  ghost predicate Recorded(log: seq<Event>, run: Run) {
    && run.base <= |log| && EndsRecorded(log, run.base, run.ended)
    && RenewalsOk(run.renewed)
    && (run.last.Some? ==> LastOk(run.last.value, |log|, run.ended))
    && AllConverged(log, run.ended, run.converged)
  }

  ghost predicate History(s: State) {
    Recorded(s.w.log, s.run)
  }

  ghost predicate Base(s: State) {
    Inv(s.w) && History(s)
  }

  /** A turn is open, after `n` returned steps. */
  predicate TurnOpen(s: State, n: nat) {
    s.w.phase.Running? && s.turnEnds == Ending(s.run.courses) && |s.run.courses| == n
  }

  predicate Boundary(s: State) {
    && s.w.phase.Running? && TurnOpen(s, s.w.phase.step)
    && SessionLog.Scan(s.w.log) == SessionLog.InTurn(s.w.phase.turn, s.w.phase.step)
  }

  predicate WithinStep(s: State) {
    s.w.phase.Running? && s.w.phase.step > 0 && TurnOpen(s, s.w.phase.step - 1)
  }

  ghost predicate ToolsOpen(s: State, t: Tools)
    requires s.w.phase.Running?
  {
    && t.base <= |s.w.log|
    && SessionLog.Scan(s.w.log[..t.base]) == SessionLog.InStep(s.w.phase.turn, s.w.phase.step, SessionLog.Answered([]))
    && Paired(s.w.log, t.base, s.w.phase.turn, s.w.phase.step, t.calls, |t.callSeqs|, t.outcomes)
    && t.callSeqs == CallPositions(s.w.log, t.base)
  }

  /** The open step has no answer yet. */
  predicate Unbegun(s: State) {
    WithinStep(s) && s.run.course == Course(None, None)
  }

  /** The course of the open step, as far as its program point tells. */
  predicate OnCourse(s: State) {
    match s.pc
    case InTools(t) => t.calls != [] && s.run.course == Course(Some(FinishOther(t.calls)), None)
    case ToolsDone(result) => s.run.course.tools == Some(result) && Coherent(s.run.course)
    case StepDone(StepReturns(end)) => EndOf(end, s.run.course)
    case StepDone(StepThrows) => s.run.course.answer.None? || s.run.course.tools == Some(SchedulerFailed)
    case _ => true
  }

  predicate InOwnStep(s: State)
    requires s.w.phase.Running?
  {
    var m := SessionLog.Scan(s.w.log);
    m.InStep? && m.turn == s.w.phase.turn && m.step == s.w.phase.step
  }

  /** The log, as a turn/step word, is where the driver stands. */
  ghost predicate Placed(s: State) {
    match s.pc
    case NoDriver =>
      !s.w.phase.Running? && SessionLog.Scan(s.w.log) == SessionLog.Outside(s.w.phase.turn)
      && (s.w.phase.Maintenance? ==> s.run.renewed == [] && s.run.last.None?)
    case TurnDone(again) =>
      && s.w.phase.Running? && SessionLog.Scan(s.w.log) == SessionLog.Outside(s.w.phase.turn)
      && (if again then s.w.phase.step == 0 && s.run.last.None? else s.run.last.Some? || s.w.phase.abort.Some?)
    case Assembling => Boundary(s)
    case Deciding => Boundary(s)
    case Decided(_) => Boundary(s)
    case Stopping => Boundary(s) && s.turnEnds.Some?
    case Proposing => Unbegun(s) && Unanswered(SessionLog.Scan(s.w.log), s.w.phase.turn, s.w.phase.step)
    case Preparing => Unbegun(s) && Unanswered(SessionLog.Scan(s.w.log), s.w.phase.turn, s.w.phase.step)
    case Built(_) => Unbegun(s) && Unanswered(SessionLog.Scan(s.w.log), s.w.phase.turn, s.w.phase.step)
    case Failing => Unbegun(s) && Unanswered(SessionLog.Scan(s.w.log), s.w.phase.turn, s.w.phase.step)
    case Streaming(chunkSeqs) => Unbegun(s) && Attempting(s.w, s.w.phase.turn, s.w.phase.step, chunkSeqs)
    case Closing(chunkSeqs) =>
      Unbegun(s) && Attempting(s.w, s.w.phase.turn, s.w.phase.step, chunkSeqs) && s.w.phase.abort.Some?
    case InTools(tools) => WithinStep(s) && OnCourse(s) && ToolsOpen(s, tools)
    case ToolsDone(_) =>
      WithinStep(s) && OnCourse(s) && InOwnStep(s) && (s.w.torn || SessionLog.Pending(SessionLog.Scan(s.w.log)) == [])
    case StepDone(_) =>
      WithinStep(s) && OnCourse(s) && InOwnStep(s) && (s.w.torn || SessionLog.Pending(SessionLog.Scan(s.w.log)) == [])
  }

  ghost predicate Valid(s: State) {
    Base(s) && Placed(s)
  }

  // ----- the record under growth -----

  lemma EndedStays(log: seq<Event>, more: seq<Event>, r: Ended)
    requires EndedOk(log, r)
    ensures EndedOk(log + more, r)
  {
    hide EndedFor;
    assert (log + more)[..r.at] == log[..r.at];
  }

  lemma ConvergenceStays(log: seq<Event>, ended: seq<Ended>, c: Convergence, more: seq<Event>, ended': seq<Ended>)
    requires ConvergenceOk(log, ended, c) && forall r | r in ended :: r in ended'
    ensures ConvergenceOk(log + more, ended', c)
  {
    hide WakeLatch.Owed, WakeLatch.Uncancelled, RenewalsOk, Inbox.Replay;
    assert (log + more)[..c.at] == log[..c.at];
  }

  lemma AllConvergedStays(log: seq<Event>, ended: seq<Ended>, cs: seq<Convergence>, more: seq<Event>,
      ended': seq<Ended>)
    requires AllConverged(log, ended, cs) && forall r | r in ended :: r in ended'
    ensures AllConverged(log + more, ended', cs)
  {
    hide ConvergenceOk;
    forall i | 0 <= i < |cs| ensures ConvergenceOk(log + more, ended', cs[i]) {
      ConvergenceStays(log, ended, cs[i], more, ended');
    }
  }

  lemma EndsGrown(log: seq<Event>, base: nat, ended: seq<Ended>, more: seq<Event>)
    requires EndsRecorded(log, base, ended) && forall e | e in more :: !e.TurnEnd?
    ensures EndsRecorded(log + more, base, ended)
  {
    hide EndedOk;
    var next := log + more;
    forall i | 0 <= i < |ended| ensures EndedOk(next, ended[i]) { EndedStays(log, more, ended[i]); }
    forall p: nat | |log| <= p < |next| ensures !next[p].TurnEnd? { assert next[p] == more[p - |log|]; }
    forall p: nat | base <= p < |next| && next[p].TurnEnd? ensures exists i :: 0 <= i < |ended| && ended[i].at == p {
      assert log[p].TurnEnd?;
    }
  }

  lemma RecordedGrown(log: seq<Event>, run: Run, more: seq<Event>)
    requires Recorded(log, run) && forall e | e in more :: !e.TurnEnd?
    ensures Recorded(log + more, run)
  {
    hide EndsRecorded, AllConverged, RenewalsOk;
    EndsGrown(log, run.base, run.ended, more);
    AllConvergedStays(log, run.ended, run.converged, more, run.ended);
  }

  /** A recorded turn end. */
  lemma EndsClose(log: seq<Event>, base: nat, ended: seq<Ended>, e: Event, r: Ended)
    requires base <= |log| && EndsRecorded(log, base, ended)
    requires e.TurnEnd? && r.at == |log| && EndedFor(r, e.reason) && (r.pending <==> InputAt(log, |log|))
    ensures EndsRecorded(log + [e], base, ended + [r])
  {
    hide EndedFor;
    var next, records := log + [e], ended + [r];
    assert next[..|log|] == log[..|log|];
    assert EndedOk(next, r);
    hide EndedOk;
    forall i | 0 <= i < |records| ensures EndedOk(next, records[i]) {
      if i < |ended| { EndedStays(log, [e], ended[i]); }
    }
    forall p: nat | base <= p < |next| && next[p].TurnEnd?
      ensures exists i :: 0 <= i < |records| && records[i].at == p {
      if p == |log| {
        assert records[|ended|].at == p;
      } else {
        assert log[p].TurnEnd?;
        var i :| 0 <= i < |ended| && ended[i].at == p;
        assert records[i].at == p;
      }
    }
  }

  lemma RecordedClose(log: seq<Event>, run: Run, e: Event, r: Ended, run': Run)
    requires Recorded(log, run)
    requires e.TurnEnd? && r.at == |log| && EndedFor(r, e.reason) && (r.pending <==> InputAt(log, |log|))
    requires run' == run.(ended := run.ended + [r], renewed := run'.renewed, last := run'.last)
    requires RenewalsOk(run'.renewed) && (run'.last == None || (run'.last == Some(r) && !r.again))
    ensures Recorded(log + [e], run')
  {
    hide EndsRecorded, AllConverged, RenewalsOk, EndedFor;
    EndsClose(log, run.base, run.ended, e, r);
    AllConvergedStays(log, run.ended, run.converged, [e], run'.ended);
  }

  /** Entries other than turn ends, logged as the word allows, keep what is on record. */
  lemma LoggedByKeeps(s: State, e: Event)
    requires Base(s) && MayLog(s.w, e) && !e.TurnEnd?
    ensures Base(LoggedBy(s, e)) && SessionLog.Scan(LoggedBy(s, e).w.log)
        == SessionLog.Next(SessionLog.Scan(s.w.log), e)
  {
    hide Inv, MayLog, Recorded, SessionLog.Scan, SessionLog.Next;
    LoggedKeeps(s.w, e);
    RecordedGrown(s.w.log, s.run, [e]);
    SessionLog.ScanNext(s.w.log, e);
  }

  // ----- others move -----

  /** Whatever others do, the driver stands where it stood. */
  lemma OthersKeep(s: State, w: World)
    requires Valid(s) && Inv(w) && Yielded(s.w, w)
    ensures Valid(s.(w := w))
  {
    hide Inv, Cited, SessionLog.Scan, History, Attempting, ToolsOpen, Ending;
    YieldedShape(s.w, w);
    ForeignKeepsHistory(s, w);
    var p := s.w.phase;
    match s.pc {
      case Streaming(chunkSeqs) => AttemptYields(s.w, w, p.turn, p.step, chunkSeqs);
      case Closing(chunkSeqs) => AttemptYields(s.w, w, p.turn, p.step, chunkSeqs);
      case InTools(t) => ToolsYield(s, w, t);
      case _ =>
    }
  }

  lemma ForeignKeepsHistory(s: State, w: World)
    requires History(s) && Yielded(s.w, w)
    ensures History(s.(w := w))
  {
    hide Recorded;
    var more := w.log[|s.w.log|..];
    forall e | e in more ensures !e.TurnEnd? { assert Foreign(e); }
    RecordedGrown(s.w.log, s.run, more);
    assert s.w.log + more == w.log;
  }

  lemma ToolsYield(s: State, w: World, t: Tools)
    requires s.w.phase.Running? && ToolsOpen(s, t) && Yielded(s.w, w)
    ensures ToolsOpen(s.(w := w), t)
  {
    hide Paired, SessionLog.Scan, CallPositions;
    YieldedPaired(s.w, w, t.base, s.w.phase.turn, s.w.phase.step, t.calls, |t.callSeqs|, t.outcomes);
    assert w.log[..t.base] == s.w.log[..t.base];
  }

  // ----- the driver moves -----

  lemma BeginPreStepKeeps(s: State, target: Target)
    requires Base(s) && Boundary(s) && (target.NextTurn? ==> s.w.phase.step == 0)
    ensures Valid(BeginPreStep(s, target))
  {
    hide Inv, History, SessionLog.Scan, Ending, Claimed;
    ClaimedKeeps(s.w, target);
    ForeignKeepsHistory(s, Claimed(s.w, target));
    HistoryOf(s.(w := Claimed(s.w, target)), BeginPreStep(s, target));
    YieldedShape(s.w, Claimed(s.w, target));
  }

  lemma BeginTurnKeeps(s: State)
    requires Base(s) && s.w.phase.Running? && s.w.phase.step == 0
      && SessionLog.Scan(s.w.log) == SessionLog.Outside(s.w.phase.turn)
    ensures Valid(BeginTurn(s))
  {
    hide Inv, Recorded, SessionLog.Scan, BeginPreStep, Ending;
    var p := s.w.phase;
    if p.abort.None? {
      var e := TurnStart(p.turn + 1);
      LoggedByKeeps(s, e);
      MovedKeeps(Logged(s.w, e), p.turn + 1, p.step);
      EndingNothing();
      var w := Logged(s.w, e).(phase := Running(p.abort, p.turn + 1, p.step, p.wakeRequested));
      HistoryOf(LoggedBy(s, e), State(w, s.pc, None, s.run.(courses := [])));
      BeginPreStepKeeps(State(w, s.pc, None, s.run.(courses := [])), NextTurn);
    }
  }

  lemma EndingNothing()
    ensures Ending([]) == None
  {
  }

  /** What a turn must meet to be left by an exit. */
  predicate MayLeave(s: State, exit: Exit)
    requires s.w.phase.Running?
  {
    match exit
    case Threw => true
    case Rejected => true
    case NothingFirst => s.run.courses == []
    case NothingLeft => s.turnEnds.Some? && s.turnEnds == Ending(s.run.courses)
    case Stopped => s.turnEnds.Some? && s.turnEnds == Ending(s.run.courses) && s.w.phase.abort.None?
  }

  lemma CloseTurnKeeps(s: State, exit: Exit)
    requires Base(s) && s.w.phase.Running? && MayLeave(s, exit)
    requires SessionLog.Scan(s.w.log) == SessionLog.InTurn(s.w.phase.turn, s.w.phase.step)
    ensures Valid(TurnClosed(s, exit))
  {
    hide Inv, Recorded, RenewalsOk, SessionLog.Scan, Ending;
    var p := s.w.phase;
    var e := TurnEnd(p.turn, EndReason(s, exit));
    var t := TurnClosed(s, exit);
    LoggedKeeps(s.w, e);
    SessionLog.ScanNext(s.w.log, e);
    PendingIsInput(s.w);
    RenewalsOf(s);
    if t.pc.again {
      FreshKeeps(Logged(s.w, e), Running(None, p.turn, 0, false));
      RenewedKeeps(s, exit);
    }
    RecordedClose(s.w.log, s.run, e, t.run.ended[|s.run.ended|], t.run);
  }

  lemma RenewalsOf(s: State)
    requires History(s)
    ensures RenewalsOk(s.run.renewed)
  {
  }

  lemma PendingIsInput(w: World)
    requires Inv(w)
    ensures HasPending(w) <==> InputAt(w.log, |w.log|)
  {
    hide Cited, SessionLog.Resolved, ClaimsAtBoundaries, Tracks, Inbox.Replay;
    assert w.log[..|w.log|] == w.log;
  }

  lemma RenewedKeeps(s: State, exit: Exit)
    requires Inv(s.w) && s.w.phase.Running? && RenewalsOk(s.run.renewed) && MayLeave(s, exit)
      && (exit.NothingLeft? || exit.Stopped?)
    ensures RenewalsOk(s.run.renewed + [Renewal(s.w.acts, exit)])
  {
    hide Cited, SessionLog.Resolved, ClaimsAtBoundaries, WakeLatch.Uncancelled;
    WakeLatch.AbortIsFirst(false, s.w.acts, User);
  }

  lemma EnterStepKeeps(s: State, messages: seq<Message>)
    requires Base(s) && Boundary(s)
    ensures Valid(StepEntered(s, messages))
  {
    hide Inv, History, SessionLog.Scan, Ending;
    var p := s.w.phase;
    LoggedByKeeps(s, StepStart(p.turn, p.step + 1));
    InputsKeep(LoggedBy(s, StepStart(p.turn, p.step + 1)), p.turn, p.step + 1, messages);
    MovedKeeps(s.w.(log := s.w.log + [StepStart(p.turn, p.step + 1)] + Inputs(messages)), p.turn, p.step + 1);
    HistoryOf(s.(w := s.w.(log := s.w.log + [StepStart(p.turn, p.step + 1)] + Inputs(messages))),
        StepEntered(s, messages));
  }

  /** The history looks at the log and at what is on record of closed turns. */
  lemma HistoryOf(s: State, t: State)
    requires History(s) && t.w.log == s.w.log && t.run == s.run.(course := t.run.course, courses := t.run.courses)
    ensures History(t)
  {
  }

  lemma {:induction false} InputsKeep(s: State, turn: nat, step: nat, messages: seq<Message>)
    requires Base(s) && SessionLog.Scan(s.w.log) == SessionLog.InStep(turn, step, SessionLog.Opening)
    ensures var t := s.(w := s.w.(log := s.w.log + Inputs(messages)));
            Base(t) && SessionLog.Scan(t.w.log) == SessionLog.InStep(turn, step, SessionLog.Opening)
    decreases |messages|
  {
    hide Inv, History, SessionLog.Scan;
    if messages == [] {
      assert s.w.log + Inputs(messages) == s.w.log;
    } else {
      LoggedByKeeps(s, UserMessage(messages[0]));
      InputsKeep(LoggedBy(s, UserMessage(messages[0])), turn, step, messages[1..]);
      assert s.w.log + [UserMessage(messages[0])] + Inputs(messages[1..]) == s.w.log + Inputs(messages);
    }
  }

  lemma TakeDecisionKeeps(s: State, outcome: PreStepOutcome)
    requires Base(s) && Boundary(s)
    ensures Valid(TakeDecision(s, outcome))
  {
    hide Base, Valid, TurnClosed, StepEntered, SessionLog.Scan, Ending;
    match outcome {
      case PreStepThrows => CloseTurnKeeps(s, Threw);
      case Decides(Reject) => CloseTurnKeeps(s, Rejected);
      case Decides(Enter(messages)) =>
        if s.turnEnds.Some? && messages == [] {
          CloseTurnKeeps(s, NothingLeft);
        } else if s.w.phase.step == 0 && messages == [] {
          CloseTurnKeeps(s, NothingFirst);
        } else if s.w.phase.abort.Some? {
          CloseTurnKeeps(s, Threw);
        } else {
          EnterStepKeeps(s, messages);
        }
    }
  }

  lemma BeginAttemptKeeps(s: State, ok: bool)
    requires Base(s) && Unbegun(s) && Unanswered(SessionLog.Scan(s.w.log), s.w.phase.turn, s.w.phase.step)
    ensures Valid(BeginAttempt(s, ok))
  {
    hide Inv, History, SessionLog.Scan, Ending, Attempting;
    AttemptBegins(s.w, s.w.phase.turn, s.w.phase.step);
    HistoryOf(s, BeginAttempt(s, ok));
  }

  lemma StreamFailsKeeps(s: State, chunkSeqs: seq<nat>, content: bool)
    requires Base(s) && Unbegun(s) && Attempting(s.w, s.w.phase.turn, s.w.phase.step, chunkSeqs)
    ensures Valid(StreamFails(s, chunkSeqs, content))
  {
    hide Inv, History, MayLog, SessionLog.Scan, Ending;
    var p := s.w.phase;
    if p.abort.Some? && content {
      AttemptAnswered(s.w, p.turn, p.step, chunkSeqs, true);
      LoggedByKeeps(s, AssistantMessage(p.turn, p.step, true, chunkSeqs));
      HistoryOf(LoggedBy(s, AssistantMessage(p.turn, p.step, true, chunkSeqs)), StreamFails(s, chunkSeqs, content));
    } else {
      HistoryOf(s, StreamFails(s, chunkSeqs, content));
    }
  }

  lemma TakeChunkKeeps(s: State, chunkSeqs: seq<nat>, chunk: nat)
    requires Base(s) && Unbegun(s) && Attempting(s.w, s.w.phase.turn, s.w.phase.step, chunkSeqs)
    ensures Valid(TakeChunk(s, chunkSeqs, chunk))
  {
    hide Inv, History, MayLog, SessionLog.Scan, Ending, Attempting;
    var p := s.w.phase;
    if p.abort.Some? {
      HistoryOf(s, TakeChunk(s, chunkSeqs, chunk));
    } else {
      AttemptStreams(s.w, p.turn, p.step, chunkSeqs, chunk);
      LoggedByKeeps(s, AssistantChunk(p.turn, p.step, chunk));
      HistoryOf(LoggedBy(s, AssistantChunk(p.turn, p.step, chunk)), TakeChunk(s, chunkSeqs, chunk));
    }
  }

  lemma FinishStreamKeeps(s: State, chunkSeqs: seq<nat>, finish: Finish, content: bool)
    requires Base(s) && Unbegun(s) && Attempting(s.w, s.w.phase.turn, s.w.phase.step, chunkSeqs)
    ensures Valid(FinishStream(s, chunkSeqs, finish, content))
  {
    hide Inv, History, MayLog, SessionLog.Scan, Ending, StreamFails, Paired, CallPositions;
    var p := s.w.phase;
    if p.abort.Some? {
      StreamFailsKeeps(s, chunkSeqs, content);
    } else if finish.FinishFailure? {
      HistoryOf(s, FinishStream(s, chunkSeqs, finish, content));
    } else {
      var t := LoggedBy(s, AssistantMessage(p.turn, p.step, false, chunkSeqs));
      AttemptAnswered(s.w, p.turn, p.step, chunkSeqs, false);
      LoggedByKeeps(s, AssistantMessage(p.turn, p.step, false, chunkSeqs));
      HistoryOf(t, FinishStream(s, chunkSeqs, finish, content));
      if finish.FinishOther? {
        ToolsBegin(t.w.log, p.turn, p.step, finish.calls);
      }
    }
  }

  lemma ToolsBegin(log: seq<Event>, turn: nat, step: nat, calls: seq<Call>)
    ensures log[..|log|] == log && Paired(log, |log|, turn, step, calls, 0, []) && CallPositions(log, |log|) == []
  {
  }

  lemma ToolOpensKeeps(s: State, t: Tools)
    requires Base(s) && WithinStep(s) && s.pc == InTools(t) && OnCourse(s) && ToolsOpen(s, t)
      && |t.callSeqs| < |t.calls|
    ensures Valid(LoggedBy(s, ToolCall(s.w.phase.turn, s.w.phase.step,
        t.calls[|t.callSeqs|])).(pc := InTools(t.(callSeqs := t.callSeqs + [|s.w.log|]))))
  {
    hide Inv, History, SessionLog.Scan, SessionLog.Next, Ending, Paired, CallPositions;
    var e := ToolCall(s.w.phase.turn, s.w.phase.step, t.calls[|t.callSeqs|]);
    PairedCall(s.w.log, t.base, s.w.phase.turn, s.w.phase.step, t.calls, |t.callSeqs|, t.outcomes);
    LoggedByKeeps(s, e);
    assert (s.w.log + [e])[..t.base] == s.w.log[..t.base];
    HistoryOf(LoggedBy(s, e), LoggedBy(s, e).(pc := InTools(t.(callSeqs := t.callSeqs + [|s.w.log|]))));
  }

  lemma ToolAnswersKeeps(s: State, t: Tools, outcome: Outcome)
    requires Base(s) && WithinStep(s) && s.pc == InTools(t) && OnCourse(s) && ToolsOpen(s, t)
      && |t.outcomes| < |t.callSeqs| <= |t.calls|
    ensures var n := |t.outcomes|;
            Valid(LoggedBy(s, ToolResult(s.w.phase.turn, s.w.phase.step, t.calls[n].id, outcome,
                t.callSeqs[n])).(pc := InTools(t.(outcomes := t.outcomes + [outcome]))))
  {
    hide Inv, History, SessionLog.Scan, SessionLog.Next, Ending, Paired, CallPositions;
    var n := |t.outcomes|;
    var e := ToolResult(s.w.phase.turn, s.w.phase.step, t.calls[n].id, outcome, t.callSeqs[n]);
    PairedResult(s.w.log, t.base, s.w.phase.turn, s.w.phase.step, t.calls, |t.callSeqs|, t.outcomes, outcome);
    LoggedByKeeps(s, e);
    assert (s.w.log + [e])[..t.base] == s.w.log[..t.base];
    HistoryOf(LoggedBy(s, e), LoggedBy(s, e).(pc := InTools(t.(outcomes := t.outcomes + [outcome]))));
  }

  lemma ToolsEndKeeps(s: State, t: Tools, result: ToolOutcome)
    requires Base(s) && WithinStep(s) && s.pc == InTools(t) && OnCourse(s) && ToolsOpen(s, t)
    requires result.Ran? ==> |t.outcomes| == |t.calls|
    ensures Valid(ToolsEnded(s, result))
  {
    hide Inv, History, SessionLog.Scan, Ending, Paired, CallPositions;
    ToolsContinue(s.w.log, t.base, s.w.phase.turn, s.w.phase.step, t.calls, |t.callSeqs|, t.outcomes);
    PairedBounds(s.w.log, t.base, s.w.phase.turn, s.w.phase.step, t.calls, |t.callSeqs|, t.outcomes);
    TornKeeps(s.w);
    HistoryOf(s, ToolsEnded(s, result));
  }

  lemma PairedBounds(log: seq<Event>, base: nat, turn: nat, step: nat, calls: seq<Call>, started: nat,
      outcomes: seq<Outcome>)
    requires Paired(log, base, turn, step, calls, started, outcomes)
    ensures |outcomes| <= started <= |calls|
  {
  }

  lemma FinishStepKeeps(s: State, outcome: StepOutcome)
    requires Base(s) && WithinStep(s) && s.pc == StepDone(outcome) && OnCourse(s) && InOwnStep(s)
        && (s.w.torn || SessionLog.Pending(SessionLog.Scan(s.w.log)) == [])
    ensures Valid(FinishStep(s, outcome))
  {
    hide Inv, History, SessionLog.Scan, Ending, TurnClosed, BeginPreStep;
    var p := s.w.phase;
    var closed := LoggedBy(s, StepEnd(p.turn, p.step));
    LoggedByKeeps(s, StepEnd(p.turn, p.step));
    match outcome {
      case StepThrows => CloseTurnKeeps(closed, Threw);
      case StepReturns(end) =>
        var t := closed.(turnEnds := if s.turnEnds == Some(MaxTokens) then s.turnEnds else ReasonOf(end),
            run := s.run.(courses := s.run.courses + [s.run.course]));
        EndingNext(s.run.courses, s.run.course, end);
        HistoryOf(closed, t);
        if p.abort.Some? {
          CloseTurnKeeps(t, Threw);
        } else if t.turnEnds.Some? && t.w.inbox.nextStep == [] {
          HistoryOf(t, t.(pc := Stopping));
        } else {
          BeginPreStepKeeps(t, NextStep);
        }
    }
  }

  lemma FinishStoppingKeeps(s: State, ok: bool)
    requires Base(s) && Boundary(s) && s.turnEnds.Some?
    ensures Valid(FinishStopping(s, ok))
  {
    hide Base, Valid, TurnClosed, BeginPreStep, SessionLog.Scan, Ending;
    if !ok || s.w.phase.abort.Some? {
      CloseTurnKeeps(s, Threw);
    } else if s.w.inbox.nextStep == [] {
      CloseTurnKeeps(s, Stopped);
    } else {
      BeginPreStepKeeps(s, NextStep);
    }
  }

  lemma ReserveKeeps(s: State)
    requires Base(s) && s.w.phase.Running? && s.w.phase.step == 0
      && SessionLog.Scan(s.w.log) == SessionLog.Outside(s.w.phase.turn)
    ensures Valid(Reserve(s))
  {
    hide Inv, SessionLog.Scan, BeginTurn;
    var t := s.(run := s.run.(last := None, renewed := []));
    FreshRecord(s.w.log, s.run);
    BeginTurnKeeps(t);
  }

  lemma FreshRecord(log: seq<Event>, run: Run)
    requires Recorded(log, run)
    ensures Recorded(log, run.(last := None, renewed := []))
  {
  }

  /** May converge: maintenance, a turn that is done, or a turn that was never opened because its signal had fired. */
  predicate MayConverge(s: State)
    requires !s.w.phase.Idle?
  {
    if s.w.phase.Maintenance? then s.run.renewed == [] && s.run.last.None?
    else s.run.last.Some? || s.w.phase.abort.Some?
  }

  lemma ConvergeKeeps(s: State)
    requires Base(s) && !s.w.phase.Idle? && SessionLog.Scan(s.w.log) == SessionLog.Outside(s.w.phase.turn)
      && MayConverge(s)
    ensures Valid(Converged(s))
  {
    hide Inv, Recorded, SessionLog.Scan, Reserve;
    var p := s.w.phase;
    var restarted := p.wakeRequested && HasPending(s.w);
    var record := Convergence(|s.w.log|, p.Maintenance?, s.run.renewed, s.run.last, s.w.acts, HasPending(s.w),
        restarted);
    IdleKeeps(s.w);
    var idle := s.w.(phase := Idle(p.turn));
    var next := State(idle, NoDriver, s.turnEnds, s.run);
    if restarted {
      FreshKeeps(idle, Running(None, p.turn, 0, false));
      var woken := next.(w := Woken(idle, false));
      ReserveKeeps(woken);
      ReserveStarts(woken);
      next := Reserve(woken);
    }
    ConvergedOk(s, next, record);
    PlacedOf(next, Converged(s));
  }

  /** The driver's place does not look at the convergences on record. */
  lemma PlacedOf(s: State, t: State)
    requires Base(s) ==> Placed(s)
    requires Base(s) && t == s.(run := s.run.(converged := t.run.converged))
    ensures Placed(t)
  {
    hide Base, Attempting, Paired, CallPositions, SessionLog.Scan, Ending;
  }

  /** A driver that is reserved opens its turn at once. */
  lemma ReserveStarts(s: State)
    requires s.w.phase.Running? && s.w.phase.abort.None?
    ensures var t := Reserve(s);
            && s.w.log + [TurnStart(s.w.phase.turn + 1)] <= t.w.log
            && t.run.ended == s.run.ended && t.run.converged == s.run.converged
  {
  }

  /** The flag a converging activity reads is the wake it owes; `next` is the state it leaves. */
  lemma ConvergedOk(s: State, next: State, c: Convergence)
    requires Base(s) && !s.w.phase.Idle? && MayConverge(s)
    requires c ==
          Convergence(|s.w.log|, s.w.phase.Maintenance?, s.run.renewed, s.run.last, s.w.acts, HasPending(s.w),
          s.w.phase.wakeRequested && HasPending(s.w))
    requires Base(next) && s.w.log <= next.w.log && next.run.ended == s.run.ended
    requires c.restarted ==> c.at < |next.w.log| && next.w.log[c.at].TurnStart?
    ensures Base(next.(run := next.run.(converged := next.run.converged + [c])))
  {
    hide Cited, ClaimsAtBoundaries, SessionLog.Resolved, Inbox.Replay, InputAt, EndsRecorded, WakeLatch.Owed,
        WakeLatch.Uncancelled, WakeLatch.After, RenewalsOk;
    PendingIsInput(s.w);
    InputStays(s.w.log, next.w.log, |s.w.log|);
    WakeLatch.LatchIsOwed(s.w.phase.Maintenance?, s.w.acts);
    WakeLatch.AbortIsFirst(s.w.phase.Maintenance?, s.w.acts, User);
    assert ConvergenceOk(next.w.log, next.run.ended, c);
  }

  lemma InputStays(log: seq<Event>, more: seq<Event>, n: nat)
    requires n <= |log| && log <= more
    ensures InputAt(more, n) <==> InputAt(log, n)
  {
    assert more[..n] == log[..n];
  }

  // ----- every step -----

  lemma SendKeeps(s: State, message: Message, target: Target, wakeup: bool)
    requires Valid(s) && !Pending(s.w, message)
    ensures Valid(Step(s, SendMessage(message, target, wakeup)))
  {
    hide Inv, Base, Placed, Sent, Reserve, SessionLog.Scan;
    var w := Sent(s.w, message, target, wakeup);
    ValidInv(s);
    SentKeeps(s.w, message, target, wakeup);
    if s.w.phase.Idle? && wakeup {
      IdleSent(s, message, target);
      ReserveKeeps(s.(w := w));
    } else {
      OthersKeep(s, w);
    }
  }

  lemma ValidInv(s: State)
    requires Valid(s)
    ensures Inv(s.w) && Base(s)
  {
  }

  lemma ValidReplays(s: State)
    requires Valid(s)
    ensures Inbox.Replay(s.w.log) == Some(s.w.inbox)
  {
    hide Placed, History;
  }

  /** A waking send to an idle agent reserves a driver, at the end of a closed word. */
  lemma IdleSent(s: State, message: Message, target: Target)
    requires Valid(s) && !Pending(s.w, message) && s.w.phase.Idle?
    ensures var w := Sent(s.w, message, target, true);
            && w.phase == Running(None, s.w.phase.turn, 0, false) && Base(s.(w := w))
            && SessionLog.Scan(w.log) == SessionLog.Outside(w.phase.turn)
  {
    hide Inv, History, SessionLog.Scan, Inbox.Spliced, Inbox.Acceptable;
    var splice := Insertion(s.w.inbox, target, message);
    var inserted := Spliced(s.w, splice);
    InsertionFits(s.w, target, message);
    SplicedKeeps(s.w, splice);
    YieldedShape(s.w, inserted);
    ForeignKeepsHistory(s, inserted);
    WokenKeeps(inserted, false);
    HistoryOf(s.(w := inserted), s.(w := Sent(s.w, message, target, true)));
  }

  lemma MaintenanceKeeps(s: State)
    requires Valid(s) && s.w.phase.Idle?
    ensures Valid(Step(s, StartMaintenance))
  {
    hide Inv, Recorded, SessionLog.Scan;
    FreshRecord(s.w.log, s.run);
    FreshKeeps(s.w, Maintenance(None, s.w.phase.turn, false));
  }

  predicate ByOthers(a: Action) {
    a.SendMessage? || a.CancelActivity? || a.PluginSplice? || a.AppendRecord? || a.StartMaintenance?
    || a.MaintenanceSettles?
  }

  lemma OthersStepKeeps(s: State, a: Action)
    requires Valid(s) && Enabled(s, a) && ByOthers(a)
    ensures Valid(Step(s, a))
  {
    hide Inv, Base, Sent, Cancelled, Spliced, Converged, Reserve, SessionLog.Scan;
    ValidInv(s);
    match a {
      case SendMessage(message, target, wakeup) => if !Pending(s.w, message) { SendKeeps(s, message, target, wakeup); }
      case CancelActivity(cause, keepInbox) =>
        CancelledKeeps(s.w, cause, keepInbox);
        OthersKeep(s, Cancelled(s.w, cause, keepInbox));
      case PluginSplice(splice) =>
        SplicedKeeps(s.w, splice);
        OthersKeep(s, Spliced(s.w, splice));
      case AppendRecord(kind) =>
        OtherKeeps(s.w, kind);
        OthersKeep(s, Logged(s.w, OtherEvent(kind)));
      case StartMaintenance => MaintenanceKeeps(s);
      case MaintenanceSettles => ConvergeKeeps(s);
    }
  }

  /** A resumption that logs nothing, at a step boundary or in an unanswered step. */
  predicate Quiet(a: Action) {
    a.PromptAssembled? || a.PluginsDecide? || a.RequestProposed? || a.FailureAnswered? || a.ToolsResume?
  }

  lemma QuietKeeps(s: State, a: Action)
    requires Valid(s) && Enabled(s, a) && Quiet(a)
    ensures Valid(Step(s, a))
  {
    hide Inv, History, SessionLog.Scan, Ending;
    HistoryOf(s, Step(s, a));
  }

  /** The records of a request that was built. */
  lemma PreparedKeeps(s: State, ok: bool, header: bool, context: bool)
    requires Valid(s) && Enabled(s, CallPrepared(ok, header, context))
    ensures Valid(Step(s, CallPrepared(ok, header, context)))
  {
    hide Inv, History, SessionLog.Scan, Ending;
    if !ok || s.w.phase.abort.Some? {
      HistoryOf(s, s.(pc := Built(true)));
    } else {
      var t := if header then LoggedBy(s, OtherEvent(0)) else s;
      if header {
        OtherKeeps(s.w, 0);
        OthersKeep(s, t.w);
      }
      var u := if context then LoggedBy(t, OtherEvent(1)) else t;
      if context {
        OtherKeeps(t.w, 1);
        OthersKeep(t, u.w);
      }
      HistoryOf(u, u.(pc := Built(false)));
    }
  }

  lemma RequestKeeps(s: State, ok: bool)
    requires Valid(s) && Enabled(s, RequestReturns(ok))
    ensures Valid(Step(s, RequestReturns(ok)))
  {
    hide Inv, History, SessionLog.Scan, Ending, BeginAttempt;
    if s.pc.threw {
      HistoryOf(s, s.(pc := StepDone(StepThrows)));
    } else {
      BeginAttemptKeeps(s, ok);
    }
  }

  lemma DriverStepKeeps(s: State, a: Action)
    requires Valid(s) && Enabled(s, a) && !ByOthers(a)
    ensures Valid(Step(s, a))
  {
    hide Base, Attempting, ToolsOpen, SessionLog.Scan, Ending, TakeDecision, BeginAttempt, TakeChunk, StreamFails,
        FinishStream, FinishStep, FinishStopping, BeginTurn, Converged;
    match a {
      case PreStepReturns => TakeDecisionKeeps(s, s.pc.outcome);
      case CallPrepared(ok, header, context) => PreparedKeeps(s, ok, header, context);
      case RequestReturns(ok) => RequestKeeps(s, ok);
      case ChunkArrives(chunk) => TakeChunkKeeps(s, s.pc.chunkSeqs, chunk);
      case StreamEnds(finish, content) => FinishStreamKeeps(s, s.pc.chunkSeqs, finish, content);
      case StreamThrows(content) => StreamFailsKeeps(s, s.pc.chunkSeqs, content);
      case StreamCloses(content) => StreamFailsKeeps(s, s.pc.chunkSeqs, content);
      case ToolOpens => ToolOpensKeeps(s, s.pc.tools);
      case ToolAnswers(outcome) => ToolAnswersKeeps(s, s.pc.tools, outcome);
      case ToolsReturn(concluded) => ToolsEndKeeps(s, s.pc.tools, Ran(concluded));
      case ToolsFail => ToolsEndKeeps(s, s.pc.tools, SchedulerFailed);
      case StepReturnsToTurn => FinishStepKeeps(s, s.pc.step);
      case StoppingSettles(ok) => FinishStoppingKeeps(s, ok);
      case TurnReturns => if s.pc.again { BeginTurnKeeps(s); } else { ConvergeKeeps(s); }
      case _ => QuietKeeps(s, a);
    }
  }

  /** Every action of anyone, at every program point, keeps what every reachable state keeps. */
  lemma StepKeeps(s: State, a: Action)
    requires Valid(s) && Enabled(s, a)
    ensures Valid(Step(s, a))
  {
    hide Valid, Enabled, Step;
    if ByOthers(a) { OthersStepKeeps(s, a); } else { DriverStepKeeps(s, a); }
  }

  /** An agent over a log that an earlier driver left at rest. */
  function Resumed(log: seq<Event>, inbox: Inbox.Lists, attempts: seq<nat>, torn: bool): State {
    State(World(log, inbox, Idle(SessionLog.LastTurn(log)), [], attempts, torn), NoDriver, None,
        Run(|log|, Course(None, None), [], None, [], [], []))
  }

  ghost predicate LeftAtRest(log: seq<Event>, inbox: Inbox.Lists, attempts: seq<nat>, torn: bool) {
    && SessionLog.Scan(log).Outside? && Inbox.Replay(log) == Some(inbox)
    && Cited(log, attempts) && ClaimsAtBoundaries(log) && (torn || SessionLog.Resolved(log, |log|))
  }

  lemma ResumedValid(log: seq<Event>, inbox: Inbox.Lists, attempts: seq<nat>, torn: bool)
    requires LeftAtRest(log, inbox, attempts, torn)
    ensures Valid(Resumed(log, inbox, attempts, torn))
  {
    hide SessionLog.Scan, Cited, ClaimsAtBoundaries, SessionLog.Resolved;
    SessionLog.LastTurnOfScan(log);
  }

  // ----- what a resumption comes to, by what was there before and after -----

  /** The batch of the next step is claimed: all next-step input, and the first queued turn if one is asked for. */
  ghost predicate ClaimsBatch(log: seq<Event>, inbox: Inbox.Lists, u: World, target: Target) {
    && u.inbox.nextStep == []
    && u.inbox.nextTurn == (if target.NextTurn? && inbox.nextTurn != [] then inbox.nextTurn[1..] else inbox.nextTurn)
    && log <= u.log
    && (forall i | |log| <= i < |u.log| :: ConsumedWork.ClaimsInput(u.log[i]))
  }

  /** The turn, with this ending so far, proposes a further step over the input for it. */
  ghost predicate Proposes(log: seq<Event>, s: State, t: State) {
    t.pc == Assembling && t.w.phase == s.w.phase && ClaimsBatch(log, s.w.inbox, t.w, NextStep)
  }

  /** The next turn is opened over one queued turn, and proposes its first step. */
  ghost predicate OpensTurn(log: seq<Event>, inbox: Inbox.Lists, turn: nat, t: State) {
    && t.pc == Assembling && t.turnEnds == None && t.run.courses == []
    && t.w.phase.Running? && t.w.phase.abort.None? && t.w.phase.turn == turn + 1 && t.w.phase.step == 0
    && ClaimsBatch(log + [TurnStart(turn + 1)], inbox, t.w, NextTurn)
  }

  /** The turn is closed for `reason`, and the activity goes on to another under a fresh controller, or not. */
  predicate LeavesTurn(log: seq<Event>, s: State, t: State, reason: TurnEndReason, again: bool) {
    && t.w.log == log + [TurnEnd(s.w.phase.turn, reason)] && t.w.inbox == s.w.inbox && t.pc == TurnDone(again)
    && t.w.phase == if again then Running(None, s.w.phase.turn, 0, false) else s.w.phase
  }

  /**
   * The message is queued at the end of its list, a waking one behind an aborted activity as a turn
   * of its own. A wake of an idle agent opens the next turn at once; any other is an act of the
   * present activity's history.
   */
  ghost predicate QueuesMessage(s: State, t: State, message: Message, target: Target, wakeup: bool) {
    var list := if wakeup && !s.w.phase.Idle? && s.w.phase.abort.Some? then NextTurn else target;
    var inbox := Inbox.With(s.w.inbox, list, Inbox.Pick(s.w.inbox, list) + [message]);
    var log := s.w.log + [InboxSpliced(Splice(list, |Inbox.Pick(s.w.inbox, list)|, None, [message], false))];
    if wakeup && s.w.phase.Idle? then OpensTurn(log, inbox, s.w.phase.turn, t)
    else
      && t.w.inbox == inbox && t.w.log == log && t.pc == s.pc && t.run == s.run
      && t.w.acts == (if wakeup then s.w.acts + [WakeLatch.WakingSend] else s.w.acts)
  }

  /** A step is entered with its input. */
  ghost predicate EntersStep(s: State, t: State, messages: seq<Message>)
    requires s.w.phase.Running?
  {
    var p := s.w.phase;
    && t.pc == Proposing && t.w.phase == Running(p.abort, p.turn, p.step + 1, p.wakeRequested)
    && t.w.inbox == s.w.inbox && t.turnEnds == s.turnEnds && t.run.courses == s.run.courses
    && |t.w.log| == |s.w.log| + 1 + |messages| && s.w.log + [StepStart(p.turn, p.step + 1)] <= t.w.log
    && forall i | 0 <= i < |messages| :: t.w.log[|s.w.log| + 1 + i] == UserMessage(messages[i])
  }

  /**
   * A turn acts on its pre-step: it is left for the pre-step's failure, for a rejection, or with
   * nothing to enter; otherwise the step is entered, unless the signal has fired.
   */
  ghost predicate ActsOn(s: State, t: State, outcome: PreStepOutcome)
    requires s.w.phase.Running?
  {
    var p := s.w.phase;
    match outcome
    case PreStepThrows => LeavesTurn(s.w.log, s, t, ThrownFor(p.abort), false)
    case Decides(Reject) => LeavesTurn(s.w.log, s, t, Blocked, false)
    case Decides(Enter(messages)) =>
      if messages == [] && s.turnEnds.Some? then LeavesTurn(s.w.log, s, t, s.turnEnds.value, HasPending(s.w))
      else if messages == [] && p.step == 0 then LeavesTurn(s.w.log, s, t, Completed, false)
      else if p.abort.Some? then LeavesTurn(s.w.log, s, t, ThrownFor(p.abort), false)
      else EntersStep(s, t, messages)
  }

  /**
   * A step is closed. The turn is left for a failure or a fired signal; otherwise, with its ending
   * brought up to date, it stops when it has one and no input for a step, or proposes a further step.
   */
  ghost predicate LeavesStep(s: State, t: State, outcome: StepOutcome)
    requires s.w.phase.Running?
  {
    var p, log := s.w.phase, s.w.log + [StepEnd(s.w.phase.turn, s.w.phase.step)];
    if outcome.StepThrows? || p.abort.Some? then LeavesTurn(log, s, t, ThrownFor(p.abort), false)
    else
      && t.turnEnds == (if s.turnEnds == Some(MaxTokens) then Some(MaxTokens) else ReasonOf(outcome.end))
      && t.run.courses == s.run.courses + [s.run.course]
      && if t.turnEnds.Some? && s.w.inbox.nextStep == [] then
           t.pc == Stopping && t.w.log == log && t.w.phase == p && t.w.inbox == s.w.inbox
         else Proposes(log, s, t)
  }

  /** The step throws out of its stream, with an interrupted answer if the signal fired over some content. */
  ghost predicate BreaksOff(s: State, t: State, chunkSeqs: seq<nat>, content: bool)
    requires s.w.phase.Running?
  {
    var p := s.w.phase;
    && t.pc == StepDone(StepThrows) && t.w.phase == p && t.w.inbox == s.w.inbox && t.turnEnds == s.turnEnds
    && t.w.log == s.w.log + (if p.abort.Some? && content then
                               [AssistantMessage(p.turn, p.step, true, chunkSeqs)] else [])
  }

  /** What was queued is at the end of its list. */
  lemma InsertedMeans(l: Inbox.Lists, target: Target, message: Message)
    ensures var splice := Insertion(l, target, message);
            && splice == Splice(target, |Inbox.Pick(l, target)|, None, [message], false)
            && Inbox.InRange(l, splice)
            && Inbox.Spliced(l, splice) == Inbox.With(l, target, Inbox.Pick(l, target) + [message])
  {
  }

  /** The activity is over, and the agent is idle over what is pending. */
  predicate GoesIdle(s: State, t: State) {
    t.pc == NoDriver && t.w.phase == Idle(s.w.phase.turn) && t.w.log == s.w.log && t.w.inbox == s.w.inbox
  }

  /** What a turn that is thrown out of ends for. */
  function ThrownFor(abort: Option<CancelCause>): TurnEndReason {
    if abort.Some? then Aborted(abort.value) else Failed
  }

  lemma ClaimedMeans(w: World, target: Target)
    ensures ClaimsBatch(w.log, w.inbox, Claimed(w, target), target)
    ensures Claimed(w, target).phase == w.phase
  {
  }

  lemma EnteredMeans(s: State, messages: seq<Message>)
    requires s.w.phase.Running?
    ensures EntersStep(s, StepEntered(s, messages), messages)
  {
  }

  lemma ThrownMeans(s: State)
    requires s.w.phase.Running?
    ensures LeavesTurn(s.w.log, s, TurnClosed(s, Threw), ThrownFor(s.w.phase.abort), false)
  {
  }

  lemma FinishStepMeans(s: State, outcome: StepOutcome)
    requires s.w.phase.Running?
    ensures LeavesStep(s, FinishStep(s, outcome), outcome)
  {
    ThrownMeans(StepClosed(s, outcome));
    ClaimedMeans(StepClosed(s, outcome).w, NextStep);
    hide TurnClosed, Claimed, ClaimsBatch;
  }

  lemma StoppingHasEnding(s: State)
    requires Valid(s) && s.pc.Stopping?
    ensures s.turnEnds.Some?
  {
    hide Base, SessionLog.Scan, Ending;
  }

  lemma RenewedAtStart(s: State)
    requires Valid(s) && s.pc == TurnDone(true)
    ensures s.w.phase.step == 0
  {
    hide Base, SessionLog.Scan;
  }

  // ----- the agent, whose methods run from one await to the next -----

  class Agent {
    var log: seq<Event>
    var inbox: Inbox.Lists
    var phase: Phase
    var pc: Pc
    var turnEnds: Option<TurnEndReason>
    ghost var acts: seq<WakeLatch.Act>
    ghost var attempts: seq<nat>
    ghost var torn: bool
    ghost var run: Run

    ghost function S(): State
      reads this
    {
      State(World(log, inbox, phase, acts, attempts, torn), pc, turnEnds, run)
    }

    /** Resume over a log that an earlier driver left at rest. */
    constructor (log: seq<Event>, inbox: Inbox.Lists, ghost attempts: seq<nat>, ghost torn: bool)
      requires LeftAtRest(log, inbox, attempts, torn)
      ensures S() == Resumed(log, inbox, attempts, torn) && Valid(S())
    {
      ResumedValid(log, inbox, attempts, torn);
      this.log, this.inbox := log, inbox;
      phase, pc, turnEnds := Idle(SessionLog.LastTurn(log)), NoDriver, None;
      acts, this.attempts, this.torn, run := [], attempts, torn,
        Run(|log|, Course(None, None), [], None, [], [], []);
    }

    // ----- what others call -----

    /** Queue one message; it throws, changing nothing, exactly when its identity is pending. */
    method Send(message: Message, target: Target, wakeup: bool) returns (threw: bool)
      requires Valid(S())
      modifies this
      ensures threw <==> message.id in Inbox.Ids(Inbox.All(old(inbox)))
      ensures threw ==> unchanged(this)
      ensures !threw ==> QueuesMessage(old(S()), S(), message, target, wakeup)
      ensures S() == Step(old(S()), SendMessage(message, target, wakeup)) && Valid(S())
    {
      StepKeeps(S(), SendMessage(message, target, wakeup));
      ValidInv(S());
      hide Valid, Base, Inv, Placed, Inbox.Acceptable, Inbox.Spliced, BeginTurn, OpensTurn;
      var wakingAfterAbort := wakeup && !phase.Idle? && phase.abort.Some?;
      var resolvedTarget := if wakingAfterAbort then NextTurn else target;
      var splice := Insertion(inbox, resolvedTarget, message);
      InsertionFits(S().w, resolvedTarget, message);
      if !Inbox.Acceptable(inbox, splice) { return true; }
      AcceptableFits(inbox, splice);
      InsertedMeans(inbox, resolvedTarget, message);
      log, inbox := log + [InboxSpliced(splice)], Inbox.Spliced(inbox, splice);
      if wakeup { WakeDriver(wakingAfterAbort); }
      return false;
    }

    /** Start one driver, which runs at once up to its first await, or latch its wake. */
    method WakeDriver(wakeAfterAbort: bool)
      modifies this
      ensures var woken := old(S()).(w := Woken(old(S()).w, wakeAfterAbort));
              S() == if old(phase).Idle? then Reserve(woken) else woken
      ensures old(phase).Idle? ==> OpensTurn(old(log), old(inbox), old(phase).turn, S())
      ensures !old(phase).Idle? ==> acts == old(acts) + [WakeLatch.WakingSend] && unchanged(`log, `inbox, `pc, `run)
    {
      hide BeginTurn;
      if !phase.Idle? {
        acts := acts + [WakeLatch.WakingSend];
        if phase.abort != Some(Disposed) && (phase.Maintenance? || wakeAfterAbort) {
          phase := WithLatch(phase, phase.abort, true);
        }
        return;
      }
      phase := Running(None, phase.turn, 0, false);
      acts, run := [], run.(last := None, renewed := []);
      Turn();
    }

    method ClearList(target: Target)
      modifies `log, `inbox
      ensures S() == old(S()).(w := ClearedList(old(S()).w, target))
    {
      hide Inbox.Spliced;
      var list := Inbox.Pick(inbox, target);
      if list != [] {
        var splice := Inbox.Normalized(target, 0, |list|, [], true);
        log, inbox := log + [InboxSpliced(splice)], Inbox.Spliced(inbox, splice);
      }
    }

    /** Abort the activity; unless the inbox is kept, cancel all pending input and forget the latch. */
    method Cancel(cause: CancelCause, keepInbox: bool)
      requires Valid(S())
      modifies this
      ensures S() == Step(old(S()), CancelActivity(cause, keepInbox)) && Valid(S())
      ensures if keepInbox then unchanged(`log, `inbox) else inbox == Inbox.Lists([], [])
      ensures unchanged(`pc, `turnEnds, `run) && phase.turn == old(phase).turn && phase.Idle? == old(phase).Idle?
      ensures !phase.Idle? ==>
                && phase.abort == (if old(phase).abort.Some? then old(phase).abort else Some(cause))
                && phase.wakeRequested == (keepInbox && old(phase).wakeRequested)
                && acts == old(acts) + [WakeLatch.Cancel(cause, keepInbox)]
    {
      StepKeeps(S(), CancelActivity(cause, keepInbox));
      hide Valid, ClearedList;
      ClearedListPhase(S().w, NextStep);
      ClearedListPhase(ClearedList(S().w, NextStep), NextTurn);
      if !keepInbox {
        ClearList(NextStep);
        ClearList(NextTurn);
        if !phase.Idle? { phase := WithLatch(phase, phase.abort, false); }
      }
      if !phase.Idle? {
        acts := acts + [WakeLatch.Cancel(cause, keepInbox)];
        if phase.abort.None? { phase := WithLatch(phase, Some(cause), phase.wakeRequested); }
      }
    }

    /** A plugin's splice; only the driver's own claims are logged as claims. */
    method SpliceInbox(splice: Splice)
      requires Valid(S()) && Enabled(S(), PluginSplice(splice))
      modifies this
      ensures S() == Step(old(S()), PluginSplice(splice)) && Valid(S())
      ensures log == old(log) + [InboxSpliced(splice)] && Inbox.Replay(log) == Some(inbox)
      ensures unchanged(`phase, `pc, `turnEnds)
    {
      StepKeeps(S(), PluginSplice(splice));
      ValidReplays(Step(S(), PluginSplice(splice)));
      AcceptableFits(inbox, splice);
      hide Valid, Inbox.Spliced, Inbox.Acceptable;
      log, inbox := log + [InboxSpliced(splice)], Inbox.Spliced(inbox, splice);
    }

    method Append(e: Event)
      modifies `log
      ensures S() == LoggedBy(old(S()), e)
    {
      log := log + [e];
    }

    /** Begin a maintenance job; it throws exactly when the agent has active work. */
    method RunMaintenance() returns (threw: bool)
      requires Valid(S())
      modifies this
      ensures threw <==> !old(phase).Idle?
      ensures S() == if threw then old(S()) else Step(old(S()), StartMaintenance)
      ensures !threw ==>
            phase == Maintenance(None, old(phase).turn, false) && acts == [] && unchanged(`log, `inbox, `pc)
      ensures Valid(S())
    {
      if !phase.Idle? { return true; }
      StepKeeps(S(), StartMaintenance);
      hide Valid;
      phase := Maintenance(None, phase.turn, false);
      acts, run := [], run.(last := None, renewed := []);
      return false;
    }

    method EndMaintenance()
      requires Valid(S()) && phase.Maintenance?
      modifies this
      ensures S() == Step(old(S()), MaintenanceSettles) && Valid(S())
      ensures if old(phase.wakeRequested && HasPending(S().w)) then
                OpensTurn(old(log), old(inbox), old(phase).turn, S())
              else GoesIdle(old(S()), S())
    {
      StepKeeps(S(), MaintenanceSettles);
      hide Valid, Converged;
      Converge();
    }

    // ----- activities and turns -----

    /** The end of an activity: go idle, and replay a latched wake if input is pending. */
    method Converge()
      requires !phase.Idle?
      modifies this
      ensures S() == Converged(old(S()))
      ensures if old(phase.wakeRequested && HasPending(S().w)) then
                OpensTurn(old(log), old(inbox), old(phase).turn, S())
              else GoesIdle(old(S()), S())
    {
      hide BeginTurn, ClaimsBatch;
      var wakeRequested, turn := phase.wakeRequested, phase.turn;
      var pending := inbox.nextTurn != [] || inbox.nextStep != [];
      ghost var record := Convergence(|log|, phase.Maintenance?, run.renewed, run.last, acts, pending, wakeRequested
          && pending);
      phase, pc := Idle(turn), NoDriver;
      if wakeRequested && pending { WakeDriver(false); }
      run := run.(converged := run.converged + [record]);
    }

    /** `kick` goes on: another turn, or the end of the activity. */
    method AfterTurn()
      requires Valid(S()) && pc.TurnDone? && phase.Running?
      modifies this
      ensures S() == Step(old(S()), TurnReturns) && Valid(S())
      ensures if old(if pc.again then phase.abort.None? else phase.wakeRequested && HasPending(S().w))
              then OpensTurn(old(log), old(inbox), old(phase).turn, S())
              else if old(pc).again then pc == TurnDone(false) && unchanged(`log, `inbox, `phase)
              else GoesIdle(old(S()), S())
    {
      StepKeeps(S(), TurnReturns);
      if pc.again { RenewedAtStart(S()); }
      hide Valid, BeginTurn, Converged, OpensTurn, GoesIdle;
      if pc.again { Turn(); } else { Converge(); }
    }

    /** Open a turn and propose its first step. Under a fired signal it throws at once. */
    method Turn()
      requires phase.Running?
      modifies this
      ensures S() == BeginTurn(old(S()))
      ensures old(phase).abort.Some? ==> pc == TurnDone(false) && unchanged(`log, `inbox, `phase)
      ensures old(phase).abort.None? && old(phase).step == 0 ==> OpensTurn(old(log), old(inbox), old(phase).turn, S())
    {
      hide Claimed, ClaimsBatch;
      if phase.abort.Some? {
        pc := TurnDone(false);
        return;
      }
      var turn := phase.turn + 1;
      Append(TurnStart(turn));
      phase := Running(phase.abort, turn, phase.step, phase.wakeRequested);
      turnEnds := None;
      run := run.(courses := []);
      PreStep(NextTurn);
    }

    /** Claim the step's batch, and begin to assemble its prompt. */
    method PreStep(target: Target)
      modifies `log, `inbox, `pc
      ensures S() == BeginPreStep(old(S()), target)
      ensures pc == Assembling && ClaimsBatch(old(log), old(inbox), S().w, target)
    {
      ClaimedMeans(S().w, target);
      hide Inbox.ClaimEntry, Inbox.Unclaimed;
      log, inbox := log + Inbox.ClaimEntry(inbox, NextStep, |inbox.nextStep|),
          Inbox.Unclaimed(inbox, NextStep, |inbox.nextStep|);
      if target.NextTurn? {
        log, inbox := log + Inbox.ClaimEntry(inbox, NextTurn, 1), Inbox.Unclaimed(inbox, NextTurn, 1);
      }
      pc := Assembling;
    }

    method AfterPrompt(ok: bool)
      requires Valid(S()) && pc.Assembling? && phase.Running?
      modifies this
      ensures S() == Step(old(S()), PromptAssembled(ok)) && Valid(S())
      ensures pc == if ok && old(phase).abort.None? then Deciding else Decided(PreStepThrows)
      ensures unchanged(`log, `inbox, `phase, `turnEnds)
    {
      StepKeeps(S(), PromptAssembled(ok));
      hide Valid;
      if !ok || phase.abort.Some? { pc := Decided(PreStepThrows); } else { pc := Deciding; }
    }

    method AfterPreStepPlugins(ok: bool, decision: PreStepDecision)
      requires Valid(S()) && pc.Deciding? && phase.Running?
      modifies this
      ensures S() == Step(old(S()), PluginsDecide(ok, decision)) && Valid(S())
      ensures pc == Decided(if ok && old(phase).abort.None? then Decides(decision) else PreStepThrows)
      ensures unchanged(`log, `inbox, `phase, `turnEnds)
    {
      StepKeeps(S(), PluginsDecide(ok, decision));
      hide Valid;
      if !ok || phase.abort.Some? { pc := Decided(PreStepThrows); } else { pc := Decided(Decides(decision)); }
    }

    /** `turn` goes on after its pre-step. */
    method AfterPreStep()
      requires Valid(S()) && pc.Decided? && phase.Running?
      modifies this
      ensures S() == Step(old(S()), PreStepReturns) && Valid(S())
      ensures ActsOn(old(S()), S(), old(pc).outcome)
    {
      StepKeeps(S(), PreStepReturns);
      hide Valid, TurnClosed, StepEntered, LeavesTurn, EntersStep, HasPending;
      match pc.outcome {
        case PreStepThrows => CloseTurn(Threw);
        case Decides(Reject) => CloseTurn(Rejected);
        case Decides(Enter(messages)) =>
          if turnEnds.Some? && messages == [] {
            CloseTurn(NothingLeft);
          } else if phase.step == 0 && messages == [] {
            CloseTurn(NothingFirst);
          } else if phase.abort.Some? {
            CloseTurn(Threw);
          } else {
            EnterStep(messages);
          }
      }
    }

    /** Log a step's input. */
    method LogInputs(messages: seq<Message>)
      modifies `log
      ensures log == old(log) + Inputs(messages)
    {
      for i := 0 to |messages|
        invariant log == old(log) + Inputs(messages[..i])
      {
        Append(UserMessage(messages[i]));
        assert Inputs(messages[..i + 1]) == Inputs(messages[..i]) + [UserMessage(messages[i])];
      }
      assert messages[..|messages|] == messages;
    }

    /** Log a step's boundary and its input, and begin its request. */
    method EnterStep(messages: seq<Message>)
      requires phase.Running?
      modifies this
      ensures S() == StepEntered(old(S()), messages)
      ensures EntersStep(old(S()), S(), messages)
    {
      hide EntersStep;
      EnteredMeans(S(), messages);
      var turn, step := phase.turn, phase.step + 1;
      Append(StepStart(turn, step));
      phase := Running(phase.abort, turn, step, phase.wakeRequested);
      LogInputs(messages);
      pc, run := Proposing, run.(course := Course(None, None));
    }

    /** Log the step's end; what it returned becomes the turn's ending so far, unless a step hit the token ceiling. */
    method CloseStep(outcome: StepOutcome)
      requires phase.Running?
      modifies `log, `turnEnds, `run
      ensures S() == StepClosed(old(S()), outcome)
    {
      if outcome.StepReturns? {
        if turnEnds != Some(MaxTokens) { turnEnds := ReasonOf(outcome.end); }
        run := run.(courses := run.courses + [run.course]);
      }
      Append(StepEnd(phase.turn, phase.step));
    }

    /** Close the step, then decide how the turn goes on. */
    method AfterStep()
      requires Valid(S()) && pc.StepDone? && phase.Running?
      modifies this
      ensures S() == Step(old(S()), StepReturnsToTurn) && Valid(S())
      ensures LeavesStep(old(S()), S(), old(pc).step)
    {
      StepKeeps(S(), StepReturnsToTurn);
      FinishStepMeans(S(), pc.step);
      hide Valid, TurnClosed, BeginPreStep, LeavesStep, StepClosed, LeavesTurn, ClaimsBatch;
      var outcome := pc.step;
      CloseStep(outcome);
      if outcome.StepThrows? || phase.abort.Some? {
        CloseTurn(Threw);
      } else if turnEnds.Some? && inbox.nextStep == [] {
        pc := Stopping;
      } else {
        PreStep(NextStep);
      }
    }

    /** `turn` goes on after the turn-stopping plugins. */
    method AfterStopping(ok: bool)
      requires Valid(S()) && pc.Stopping? && phase.Running?
      modifies this
      ensures S() == Step(old(S()), StoppingSettles(ok)) && Valid(S())
      ensures old(turnEnds).Some?
      ensures if !ok || old(phase).abort.Some? then
                LeavesTurn(old(log), old(S()), S(), ThrownFor(old(phase).abort), false)
              else if old(inbox).nextStep == [] then
                LeavesTurn(old(log), old(S()), S(), old(turnEnds).value, HasPending(old(S()).w))
              else Proposes(old(log), old(S()), S())
    {
      StepKeeps(S(), StoppingSettles(ok));
      StoppingHasEnding(S());
      hide Valid, TurnClosed, BeginPreStep, LeavesTurn, ClaimsBatch, HasPending;
      if !ok || phase.abort.Some? {
        CloseTurn(Threw);
      } else if turnEnds.Some? && inbox.nextStep == [] {
        CloseTurn(Stopped);
      } else {
        PreStep(NextStep);
      }
    }

    /**
     * Log the turn's end; unless it was thrown out of or returned, look for more input, and renew
     * the controller for it.
     */
    method CloseTurn(exit: Exit)
      requires phase.Running?
      modifies this
      ensures S() == TurnClosed(old(S()), exit)
      ensures exit.Threw? ==> LeavesTurn(old(log), old(S()), S(), ThrownFor(old(phase).abort), false)
      ensures exit.Rejected? ==> LeavesTurn(old(log), old(S()), S(), Blocked, false)
      ensures exit.NothingFirst? ==> LeavesTurn(old(log), old(S()), S(), Completed, false)
      ensures (exit.NothingLeft? || exit.Stopped?) && old(turnEnds).Some? ==>
                LeavesTurn(old(log), old(S()), S(), old(turnEnds).value, HasPending(old(S()).w))
    {
      var reason := match exit
        case Threw => if phase.abort.Some? then Aborted(phase.abort.value) else Failed
        case Rejected => Blocked
        case NothingFirst => Completed
        case NothingLeft => turnEnds.GetOr(Completed)
        case Stopped => turnEnds.GetOr(Completed);
      var pending := inbox.nextTurn != [] || inbox.nextStep != [];
      var again := (exit.NothingLeft? || exit.Stopped?) && pending;
      ghost var record := Ended(|log|, exit, phase.abort, run.courses, pending, again);
      Append(TurnEnd(phase.turn, reason));
      run := run.(ended := run.ended + [record], last := Some(record));
      pc := TurnDone(again);
      if again {
        run := run.(renewed := run.renewed + [Renewal(acts, exit)], last := None);
        phase := Running(None, phase.turn, 0, false);
        acts := [];
      }
    }

    // ----- one step -----

    /** `buildRequest` goes on after the request plugins; a proposal without a route throws, like a rejection. */
    method AfterProposal(ok: bool)
      requires Valid(S()) && pc.Proposing? && phase.Running?
      modifies this
      ensures S() == Step(old(S()), RequestProposed(ok)) && Valid(S())
      ensures pc == if ok && old(phase).abort.None? then Preparing else Built(true)
      ensures unchanged(`log, `inbox, `phase, `turnEnds)
    {
      StepKeeps(S(), RequestProposed(ok));
      hide Valid;
      if !ok || phase.abort.Some? { pc := Built(true); } else { pc := Preparing; }
    }

    /** `buildRequest` records a changed header or context. */
    method AfterPrepared(ok: bool, header: bool, context: bool)
      requires Valid(S()) && pc.Preparing? && phase.Running?
      modifies this
      ensures S() == Step(old(S()), CallPrepared(ok, header, context)) && Valid(S())
      ensures if ok && old(phase).abort.None? then
                && pc == Built(false)
                && log == old(log) + (if header then [OtherEvent(0)] else [])
                    + (if context then [OtherEvent(1)] else [])
              else pc == Built(true) && unchanged(`log)
      ensures unchanged(`inbox, `phase, `turnEnds)
    {
      StepKeeps(S(), CallPrepared(ok, header, context));
      hide Valid;
      if !ok || phase.abort.Some? {
        pc := Built(true);
        return;
      }
      if header { Append(OtherEvent(0)); }
      if context { Append(OtherEvent(1)); }
      pc := Built(false);
    }

    /** `step` opens the request's stream. */
    method AfterRequest(ok: bool)
      requires Valid(S()) && pc.Built? && phase.Running?
      modifies this
      ensures S() == Step(old(S()), RequestReturns(ok)) && Valid(S())
      ensures pc == if !old(pc).threw && ok && old(phase).abort.None? then Streaming([]) else StepDone(StepThrows)
      ensures attempts == if old(pc).threw then old(attempts) else old(attempts) + [|log|]
      ensures unchanged(`log, `inbox, `phase, `turnEnds)
    {
      StepKeeps(S(), RequestReturns(ok));
      hide Valid;
      if pc.threw {
        pc := StepDone(StepThrows);
        return;
      }
      attempts := attempts + [|log|];
      if !ok || phase.abort.Some? { pc := StepDone(StepThrows); } else { pc := Streaming([]); }
    }

    method OnChunk(chunk: nat)
      requires Valid(S()) && pc.Streaming? && phase.Running?
      modifies this
      ensures S() == Step(old(S()), ChunkArrives(chunk)) && Valid(S())
      ensures if old(phase).abort.Some? then pc == Closing(old(pc).chunkSeqs) && unchanged(`log)
              else
                && pc == Streaming(old(pc).chunkSeqs + [|old(log)|])
                && log == old(log) + [AssistantChunk(phase.turn, phase.step, chunk)]
      ensures unchanged(`inbox, `phase, `turnEnds)
    {
      StepKeeps(S(), ChunkArrives(chunk));
      hide Valid;
      var chunkSeqs := pc.chunkSeqs;
      if phase.abort.Some? {
        pc := Closing(chunkSeqs);
      } else {
        pc := Streaming(chunkSeqs + [|log|]);
        Append(AssistantChunk(phase.turn, phase.step, chunk));
      }
    }

    /** What the code does when it leaves a stream by an exception. */
    method FailStream(chunkSeqs: seq<nat>, content: bool)
      requires phase.Running?
      modifies this
      ensures S() == StreamFails(old(S()), chunkSeqs, content)
      ensures BreaksOff(old(S()), S(), chunkSeqs, content)
    {
      if phase.abort.Some? && content { Append(AssistantMessage(phase.turn, phase.step, true, chunkSeqs)); }
      pc := StepDone(StepThrows);
    }

    method OnStreamThrows(content: bool)
      requires Valid(S()) && pc.Streaming? && phase.Running?
      modifies this
      ensures S() == Step(old(S()), StreamThrows(content)) && Valid(S())
      ensures BreaksOff(old(S()), S(), old(pc).chunkSeqs, content)
    {
      StepKeeps(S(), StreamThrows(content));
      hide Valid, StreamFails;
      FailStream(pc.chunkSeqs, content);
    }

    method OnStreamClosed(content: bool)
      requires Valid(S()) && pc.Closing? && phase.Running?
      modifies this
      ensures S() == Step(old(S()), StreamCloses(content)) && Valid(S())
      ensures BreaksOff(old(S()), S(), old(pc).chunkSeqs, content)
    {
      StepKeeps(S(), StreamCloses(content));
      hide Valid, StreamFails;
      FailStream(pc.chunkSeqs, content);
    }

    /** The stream is through: log the answer and go on with its tool calls, or ask whether to retry. */
    method OnStreamEnd(finish: Finish, content: bool)
      requires Valid(S()) && pc.Streaming? && phase.Running?
      modifies this
      ensures S() == Step(old(S()), StreamEnds(finish, content)) && Valid(S())
      ensures if old(phase).abort.Some? then BreaksOff(old(S()), S(), old(pc).chunkSeqs, content)
              else if finish.FinishFailure? then pc == Failing && unchanged(`log, `inbox, `phase, `turnEnds)
              else
                && log == old(log) + [AssistantMessage(phase.turn, phase.step, false, old(pc).chunkSeqs)]
                && unchanged(`inbox, `phase, `turnEnds)
                && if finish.FinishOther? && finish.calls != [] then pc == InTools(Tools(|log|, finish.calls, [], []))
                   else
                     var end := if finish.FinishMaxTokens? then StepMaxTokens else StepCompleted;
                     pc == StepDone(StepReturns(Some(end)))
    {
      StepKeeps(S(), StreamEnds(finish, content));
      hide Valid, StreamFails, BreaksOff;
      var chunkSeqs := pc.chunkSeqs;
      if phase.abort.Some? {
        FailStream(chunkSeqs, content);
      } else if finish.FinishFailure? {
        pc := Failing;
      } else {
        Append(AssistantMessage(phase.turn, phase.step, false, chunkSeqs));
        run := run.(course := Course(Some(finish), None));
        if finish.FinishMaxTokens? {
          pc := StepDone(StepReturns(Some(StepMaxTokens)));
        } else if finish.calls == [] {
          pc := StepDone(StepReturns(Some(StepCompleted)));
        } else {
          pc := InTools(Tools(|log|, finish.calls, [], []));
        }
      }
    }

    method AfterRequestError(ok: bool, retry: bool)
      requires Valid(S()) && pc.Failing? && phase.Running?
      modifies this
      ensures S() == Step(old(S()), FailureAnswered(ok, retry)) && Valid(S())
      ensures pc == if ok && old(phase).abort.None? && retry then Proposing else StepDone(StepThrows)
      ensures unchanged(`log, `inbox, `phase, `turnEnds)
    {
      StepKeeps(S(), FailureAnswered(ok, retry));
      hide Valid;
      if !ok || phase.abort.Some? || !retry { pc := StepDone(StepThrows); } else { pc := Proposing; }
    }

    /** `step` goes on after the tool scheduler. */
    method AfterTools()
      requires Valid(S()) && pc.ToolsDone? && phase.Running?
      modifies this
      ensures S() == Step(old(S()), ToolsResume) && Valid(S())
      ensures match old(pc).result
              case Ran(true) => pc == StepDone(StepReturns(Some(StepCompleted)))
              case Ran(false) => pc == StepDone(StepReturns(None))
              case SchedulerFailed => pc == StepDone(StepThrows)
      ensures unchanged(`log, `inbox, `phase, `turnEnds)
    {
      StepKeeps(S(), ToolsResume);
      hide Valid;
      match pc.result {
        case Ran(concluded) => pc := StepDone(StepReturns(if concluded then Some(StepCompleted) else None));
        case SchedulerFailed => pc := StepDone(StepThrows);
      }
    }
  }

  lemma AcceptableFits(l: Inbox.Lists, splice: Splice)
    requires Inbox.Acceptable(l, splice)
    ensures Inbox.InRange(l, splice)
  {
  }
}
