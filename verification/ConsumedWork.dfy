/**
 * How a log, or an owned suffix of one, accounts for the work it consumed: the one-pass fold, and
 * the question about the log that the fold answers.
 */
module ConsumedWork {
  import opened Options
  import opened SessionEvents

  /** A splice that takes pending input out of the inbox into the turn that is open. */
  predicate ClaimsInput(e: Event) {
    e.InboxSpliced? && e.splice.removedCount.Some? && !e.splice.canceled
  }

  /** A cancellation that leaves nothing in the place of the work it removed. */
  predicate DropsWork(e: Event) {
    e.InboxSpliced? && e.splice.removedCount.Some? && e.splice.canceled && e.splice.inserted == []
  }

  predicate AccountsForClaim(reason: TurnEndReason) {
    !reason.Completed?
  }

  // ----- the fold -----

  /** The fold's variables; `end` is a log position. */
  datatype Fold = Fold(stepped: set<nat>, claimed: set<nat>, open: Option<nat>, end: Option<nat>, droppedUnrun: bool)

  /** What one entry does to the fold. A turn's end spends its claim only when it had no step to spend. */
  function Next(f: Fold, e: Event, at: nat): Fold {
    match e
    case TurnStart(turn) => f.(open := Some(turn))
    case StepStart(turn, _) => f.(stepped := f.stepped + {turn})
    case InboxSpliced(splice) =>
      if splice.removedCount.None? then f
      else if splice.canceled then f.(droppedUnrun := f.droppedUnrun || splice.inserted == [])
      else if f.open.Some? then f.(claimed := f.claimed + {f.open.value})
      else f
    case TurnEnd(turn, reason) =>
      if turn in f.stepped then f.(open := None, stepped := f.stepped - {turn}, end := Some(at), droppedUnrun := false)
      else if turn in f.claimed && AccountsForClaim(reason) then
        f.(open := None, claimed := f.claimed - {turn}, end := Some(at), droppedUnrun := false)
      else f.(open := None, claimed := f.claimed - {turn})
    case _ => f
  }

  function FoldTo(events: seq<Event>, n: nat): Fold
    requires n <= |events|
  {
    if n == 0 then Fold({}, {}, None, None, false) else Next(FoldTo(events, n - 1), events[n - 1], n - 1)
  }

  /** The single pass over the log. */
  method FoldConsumedWork(events: seq<Event>) returns (end: Option<nat>, droppedUnrun: bool)
    ensures end == FoldTo(events, |events|).end && droppedUnrun == FoldTo(events, |events|).droppedUnrun
  {
    var stepped: set<nat>, claimed: set<nat> := {}, {};
    var open: Option<nat> := None;
    end, droppedUnrun := None, false;
    for i := 0 to |events|
      invariant Fold(stepped, claimed, open, end, droppedUnrun) == FoldTo(events, i)
    {
      match events[i] {
        case TurnStart(turn) => open := Some(turn);
        case StepStart(turn, _) => stepped := stepped + {turn};
        case InboxSpliced(splice) =>
          if splice.removedCount.Some? {
            if splice.canceled {
              droppedUnrun := droppedUnrun || splice.inserted == [];
            } else if open.Some? {
              claimed := claimed + {open.value};
            }
          }
        case TurnEnd(turn, reason) =>
          open := None;
          var accounts := turn in stepped;
          stepped := stepped - {turn};
          if !accounts {
            accounts := turn in claimed && AccountsForClaim(reason);
            claimed := claimed - {turn};
          }
          if accounts {
            end := Some(i);
            droppedUnrun := false;
          }
        case _ =>
      }
    }
  }

  // ----- the question -----

  predicate Ends(events: seq<Event>, i: nat, turn: nat) {
    i < |events| && events[i].TurnEnd? && events[i].turn == turn
  }

  predicate Steps(events: seq<Event>, i: nat, turn: nat) {
    i < |events| && events[i].StepStart? && events[i].turn == turn
  }

  /** Position `i` lies inside an open stretch of `turn`: it started there, and nothing started or ended since. */
  ghost predicate InsideTurn(events: seq<Event>, i: nat, turn: nat) {
    exists s: nat | s < i && i <= |events| ::
      && events[s].TurnStart? && events[s].turn == turn
      && forall m | s < m < i :: !events[m].TurnStart? && !events[m].TurnEnd?
  }

  ghost predicate Claims(events: seq<Event>, i: nat, turn: nat) {
    i < |events| && ClaimsInput(events[i]) && InsideTurn(events, i, turn)
  }

  /** The turn entered a step that no end of the same turn has closed over yet. */
  ghost predicate StepPending(events: seq<Event>, n: nat, turn: nat) {
    exists j: nat | j < n :: Steps(events, j, turn) && forall m: nat | j < m < n :: !Ends(events, m, turn)
  }

  /** The turn claimed input that no stepless end of the same turn has closed over yet. */
  ghost predicate ClaimPending(events: seq<Event>, n: nat, turn: nat) {
    exists j: nat | j < n ::
      Claims(events, j, turn) && forall m: nat | j < m < n && Ends(events, m, turn) :: StepPending(events, m, turn)
  }

  /** The turn end at `k` accounts for consumed work. */
  ghost predicate Accounts(events: seq<Event>, k: nat) {
    && k < |events| && events[k].TurnEnd?
    && (StepPending(events, k, events[k].turn) || (ClaimPending(events, k, events[k].turn)
        && !events[k].reason.Completed?))
  }

  /** `end` is the last accounting turn end before `n`, and `dropped` says whether work was dropped after it. */
  ghost predicate Answers(events: seq<Event>, n: nat, end: Option<nat>, dropped: bool) {
    && n <= |events|
    && (end.Some? ==> end.value < n && Accounts(events, end.value))
    && (forall k: nat | k < n && Accounts(events, k) :: end.Some? && k <= end.value)
    && (dropped <==> exists d: nat | d < n :: DropsWork(events[d]) && (end.Some? ==> end.value < d))
  }

  lemma {:induction false} OpenIsInside(events: seq<Event>, n: nat, turn: nat)
    requires n <= |events|
    ensures FoldTo(events, n).open == Some(turn) <==> InsideTurn(events, n, turn)
  {
    if n > 0 {
      OpenIsInside(events, n - 1, turn);
      var e := events[n - 1];
      if e.TurnStart? && e.turn == turn {
        assert InsideTurn(events, n, turn);
      } else if !e.TurnStart? && !e.TurnEnd? && InsideTurn(events, n - 1, turn) {
        var s: nat :| s < n - 1 && events[s].TurnStart? && events[s].turn == turn
            && forall m | s < m < n - 1 :: !events[m].TurnStart? && !events[m].TurnEnd?;
        assert forall m | s < m < n :: !events[m].TurnStart? && !events[m].TurnEnd?;
      }
    }
  }

  lemma {:induction false} SteppedIsPending(events: seq<Event>, n: nat, turn: nat)
    requires n <= |events|
    ensures turn in FoldTo(events, n).stepped <==> StepPending(events, n, turn)
  {
    if n > 0 {
      SteppedIsPending(events, n - 1, turn);
      if Steps(events, n - 1, turn) {
        assert StepPending(events, n, turn);
      } else if StepPending(events, n - 1, turn) && !Ends(events, n - 1, turn) {
        var j: nat :| j < n - 1 && Steps(events, j, turn) && forall m: nat | j < m < n - 1 :: !Ends(events, m, turn);
        assert forall m: nat | j < m < n :: !Ends(events, m, turn);
      }
    }
  }

  lemma {:induction false} ClaimedIsPending(events: seq<Event>, n: nat, turn: nat)
    requires n <= |events|
    ensures turn in FoldTo(events, n).claimed <==> ClaimPending(events, n, turn)
  {
    if n > 0 {
      hide InsideTurn, StepPending, ClaimPending;
      ClaimedIsPending(events, n - 1, turn);
      OpenIsInside(events, n - 1, turn);
      SteppedIsPending(events, n - 1, turn);
      ClaimPendingNext(events, n, turn);
    }
  }

  lemma ClaimPendingNext(events: seq<Event>, n: nat, turn: nat)
    requires 0 < n <= |events|
    ensures ClaimPending(events, n, turn) <==>
              || Claims(events, n - 1, turn)
              || (ClaimPending(events, n - 1, turn)
                  && !(Ends(events, n - 1, turn) && !StepPending(events, n - 1, turn)))
  {
    hide Claims, Ends, StepPending;
    var last := n - 1;
    if Claims(events, last, turn) {
      assert forall m: nat | last < m < n && Ends(events, m, turn) :: StepPending(events, m, turn);
    } else if ClaimPending(events, last, turn) && !(Ends(events, last, turn) && !StepPending(events, last, turn)) {
      var j: nat :| j < last && Claims(events, j, turn)
                    && forall m: nat | j < m < last && Ends(events, m, turn) :: StepPending(events, m, turn);
      assert forall m: nat | j < m < n && Ends(events, m, turn) :: StepPending(events, m, turn);
    }
  }

  /** What the fold computes, for every log, however its turns are numbered. */
  lemma {:induction false} FoldAnswers(events: seq<Event>, n: nat)
    requires n <= |events|
    ensures Answers(events, n, FoldTo(events, n).end, FoldTo(events, n).droppedUnrun)
  {
    if n > 0 {
      FoldAnswers(events, n - 1);
      var e := events[n - 1];
      if e.TurnEnd? {
        SteppedIsPending(events, n - 1, e.turn);
        ClaimedIsPending(events, n - 1, e.turn);
      }
      var f, f' := FoldTo(events, n - 1), FoldTo(events, n);
      if f'.droppedUnrun {
        if f.droppedUnrun {
          var d: nat :| d < n - 1 && DropsWork(events[d]) && (f.end.Some? ==> f.end.value < d);
          assert d < n;
        } else {
          assert DropsWork(events[n - 1]);
        }
      }
    }
  }

  // ----- distinctly numbered turns -----

  /** No two turn ends carry the same turn number. */
  ghost predicate DistinctEnds(events: seq<Event>) {
    forall i: nat, j: nat | i < j < |events| && events[i].TurnEnd? && events[j].TurnEnd? ::
          events[i].turn != events[j].turn
  }

  /** The turn end at `k` closed a turn that entered a step, or that claimed input and did not complete. */
  ghost predicate ConsumedWork(events: seq<Event>, k: nat) {
    && k < |events| && events[k].TurnEnd?
    && ((exists j: nat | j < k :: Steps(events, j, events[k].turn))
        || ((exists j: nat | j < k :: Claims(events, j, events[k].turn)) && !events[k].reason.Completed?))
  }

  /** On distinctly numbered turns the fold answers the plain question about the log. */
  lemma AccountsIsConsumedWork(events: seq<Event>, k: nat)
    requires DistinctEnds(events)
    ensures Accounts(events, k) <==> ConsumedWork(events, k)
  {
  }

  /** The plain answer: the last end of a turn that did work, and whether work was dropped after it. */
  ghost predicate PlainAnswer(events: seq<Event>, end: Option<nat>, dropped: bool) {
    && (end.Some? ==> ConsumedWork(events, end.value))
    && (forall k: nat | ConsumedWork(events, k) :: end.Some? && k <= end.value)
    && (dropped <==> exists d: nat | d < |events| :: DropsWork(events[d]) && (end.Some? ==> end.value < d))
  }

  lemma FoldIsMeaning(events: seq<Event>)
    requires DistinctEnds(events)
    ensures PlainAnswer(events, FoldTo(events, |events|).end, FoldTo(events, |events|).droppedUnrun)
  {
    FoldAnswers(events, |events|);
    forall k: nat ensures Accounts(events, k) <==> ConsumedWork(events, k) {
      AccountsIsConsumedWork(events, k);
    }
  }

  /** A credited end always closed a turn that did work. */
  lemma AccountsConsumed(events: seq<Event>, k: nat)
    requires Accounts(events, k)
    ensures ConsumedWork(events, k)
  {
  }

  /**
   * On any log, whatever its numbering: if `k` is the last end of a turn that did work, the fold
   * gives the plain answer exactly when that turn entered a step since its previous end, or did not
   * complete and claimed input since its previous stepless end.
   */
  lemma FoldIsPlainIff(events: seq<Event>, k: nat)
    requires ConsumedWork(events, k) && forall later: nat | k < later :: !ConsumedWork(events, later)
    ensures PlainAnswer(events, FoldTo(events, |events|).end, FoldTo(events, |events|).droppedUnrun) <==>
            StepPending(events, k, events[k].turn)
                || (ClaimPending(events, k, events[k].turn) && !events[k].reason.Completed?)
  {
    hide ConsumedWork, StepPending, ClaimPending, DropsWork;
    FoldAnswers(events, |events|);
    forall j: nat | Accounts(events, j) ensures ConsumedWork(events, j) {
      AccountsConsumed(events, j);
    }
    WorkIsTurnEnd(events, k);
    var f := FoldTo(events, |events|);
    assert PlainAnswer(events, f.end, f.droppedUnrun) ==> f.end == Some(k);
    assert Accounts(events, k) ==> f.end == Some(k);
  }

  lemma WorkIsTurnEnd(events: seq<Event>, k: nat)
    requires ConsumedWork(events, k)
    ensures k < |events| && events[k].TurnEnd?
  {
  }

  /** Where no turn did work, the fold gives the plain answer. */
  lemma FoldIsPlainIdle(events: seq<Event>)
    requires forall k: nat :: !ConsumedWork(events, k)
    ensures PlainAnswer(events, FoldTo(events, |events|).end, FoldTo(events, |events|).droppedUnrun)
  {
    FoldAnswers(events, |events|);
    forall j: nat | Accounts(events, j) ensures ConsumedWork(events, j) {
      AccountsConsumed(events, j);
    }
  }

  /** Where that fails: the second end of a reused turn 1 has its step spent by the first. */
  lemma ReusedTurnDiffers() returns (events: seq<Event>)
    ensures !DistinctEnds(events) && ConsumedWork(events, |events| - 1)
    ensures FoldTo(events, |events|).end != Some(|events| - 1)
  {
    events := [TurnStart(1), StepStart(1, 1), StepEnd(1, 1), TurnEnd(1, Completed), TurnStart(1),
        TurnEnd(1, Completed)];
    assert Steps(events, 1, 1);
    assert events[3].TurnEnd? && events[5].TurnEnd? && events[3].turn == events[5].turn;
    assert FoldTo(events, 2) == Fold({1}, {}, Some(1), None, false);
    assert FoldTo(events, 4) == Fold({}, {}, None, Some(3), false);
    assert FoldTo(events, 6) == Fold({}, {}, None, Some(3), false);
  }
}
