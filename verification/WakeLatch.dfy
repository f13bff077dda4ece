/**
 * The wake latch of one activity: a maintenance job, or a running driver since its latest abort
 * controller. The flag the driver keeps, and what it remembers of the activity's history.
 */
module WakeLatch {
  import opened Options
  import opened SessionEvents

  /** What touches the latch: accepted waking sends, and cancellations. */
  datatype Act = WakingSend | Cancel(cause: CancelCause, keepInbox: bool)

  datatype Latch = Latch(abort: Option<CancelCause>, wakeRequested: bool)

  /** The code's reading of one act: the first reason sticks, disposal never latches, a clearing cancel forgets. */
  function Next(maintenance: bool, l: Latch, a: Act): Latch {
    match a
    case WakingSend =>
      if l.abort != Some(Disposed) && (maintenance || l.abort.Some?) then l.(wakeRequested := true) else l
    case Cancel(cause, keepInbox) =>
      Latch(if l.abort.Some? then l.abort else Some(cause), keepInbox && l.wakeRequested)
  }

  function After(maintenance: bool, acts: seq<Act>): Latch {
    if acts == [] then
      Latch(None, false) else Next(maintenance, After(maintenance, acts[..|acts| - 1]), acts[|acts| - 1])
  }

  lemma AfterNext(maintenance: bool, acts: seq<Act>, a: Act)
    ensures After(maintenance, acts + [a]) == Next(maintenance, After(maintenance, acts), a)
  {
  }

  /** The activity was cancelled before act `n`, first for `cause`. */
  ghost predicate FirstCancelled(acts: seq<Act>, n: nat, cause: CancelCause) {
    exists c: nat | c < n && c < |acts| ::
          acts[c].Cancel? && acts[c].cause == cause && forall i | 0 <= i < c :: !acts[i].Cancel?
  }

  ghost predicate Uncancelled(acts: seq<Act>, n: nat) {
    forall i: nat | i < n && i < |acts| :: !acts[i].Cancel?
  }

  /**
   * A waking send the activity must not lose: sent to maintenance, or after a cancel first caused
   * by something other than disposal.
   */
  ghost predicate Qualifies(maintenance: bool, acts: seq<Act>, i: nat) {
    && i < |acts| && acts[i].WakingSend?
    && !FirstCancelled(acts, i, Disposed)
    && (maintenance || !Uncancelled(acts, i))
  }

  ghost predicate ClearedAfter(acts: seq<Act>, i: nat) {
    exists j: nat | i < j < |acts| :: acts[j].Cancel? && !acts[j].keepInbox
  }

  /** A qualifying wake is owed: sent, and not followed by a clearing cancel. */
  ghost predicate Owed(maintenance: bool, acts: seq<Act>) {
    exists i: nat | i < |acts| :: Qualifies(maintenance, acts, i) && !ClearedAfter(acts, i)
  }

  lemma {:induction false} AbortIsFirst(maintenance: bool, acts: seq<Act>, cause: CancelCause)
    ensures After(maintenance, acts).abort == Some(cause) <==> FirstCancelled(acts, |acts|, cause)
    ensures After(maintenance, acts).abort.None? <==> Uncancelled(acts, |acts|)
  {
    if acts != [] {
      var n := |acts| - 1;
      var prefix := acts[..n];
      AbortIsFirst(maintenance, prefix, cause);
      assert forall i | 0 <= i < n :: prefix[i] == acts[i];
      if FirstCancelled(prefix, n, cause) {
        var c: nat :| c < n && prefix[c].Cancel? && prefix[c].cause == cause
            && forall i | 0 <= i < c :: !prefix[i].Cancel?;
        assert acts[c].Cancel? && acts[c].cause == cause;
      } else if Uncancelled(prefix, n) && acts[n].Cancel? && acts[n].cause == cause {
        assert FirstCancelled(acts, |acts|, cause);
      }
    }
  }

  /** Acts of a prefix qualify as they do in the whole history. */
  lemma QualifiesPrefix(maintenance: bool, acts: seq<Act>, n: nat, i: nat)
    requires i < n <= |acts|
    ensures Qualifies(maintenance, acts[..n], i) <==> Qualifies(maintenance, acts, i)
  {
  }

  lemma FirstPrefix(acts: seq<Act>, n: nat, i: nat, cause: CancelCause)
    requires i <= n <= |acts|
    ensures FirstCancelled(acts[..n], i, cause) <==> FirstCancelled(acts, i, cause)
    ensures Uncancelled(acts[..n], i) <==> Uncancelled(acts, i)
  {
  }

  /** The flag is set exactly when a qualifying wake is owed. */
  lemma {:induction false} LatchIsOwed(maintenance: bool, acts: seq<Act>)
    ensures After(maintenance, acts).wakeRequested <==> Owed(maintenance, acts)
  {
    if acts != [] {
      LatchIsOwed(maintenance, acts[..|acts| - 1]);
      OwedNext(maintenance, acts);
    }
  }

  lemma OwedNext(maintenance: bool, acts: seq<Act>)
    requires acts != []
    ensures var n := |acts| - 1;
            Owed(maintenance, acts) <==>
            Qualifies(maintenance, acts, n) || (Owed(maintenance, acts[..n])
                && !(acts[n].Cancel? && !acts[n].keepInbox))
    ensures var l := After(maintenance, acts[..|acts| - 1]);
            Qualifies(maintenance, acts, |acts| - 1) <==>
            acts[|acts| - 1].WakingSend? && l.abort != Some(Disposed) && (maintenance || l.abort.Some?)
  {
    hide Qualifies;
    var n := |acts| - 1;
    var prefix := acts[..n];
    QualifiesNow(maintenance, acts);
    forall i: nat | i < n ensures Qualifies(maintenance, prefix, i) <==> Qualifies(maintenance, acts, i) {
      QualifiesPrefix(maintenance, acts, n, i);
    }
    forall i: nat | i < n
      ensures ClearedAfter(acts, i) <==> ClearedAfter(prefix, i) || (acts[n].Cancel? && !acts[n].keepInbox) {
      if ClearedAfter(prefix, i) {
        var j: nat :| i < j < |prefix| && prefix[j].Cancel? && !prefix[j].keepInbox;
        assert acts[j] == prefix[j];
      }
      if j: nat :| i < j < n && acts[j].Cancel? && !acts[j].keepInbox {
        assert prefix[j] == acts[j];
      }
    }
    assert !ClearedAfter(acts, n);
  }

  lemma QualifiesNow(maintenance: bool, acts: seq<Act>)
    requires acts != []
    ensures var l := After(maintenance, acts[..|acts| - 1]);
            Qualifies(maintenance, acts, |acts| - 1) <==>
            acts[|acts| - 1].WakingSend? && l.abort != Some(Disposed) && (maintenance || l.abort.Some?)
  {
    var n := |acts| - 1;
    AbortIsFirst(maintenance, acts[..n], Disposed);
    FirstPrefix(acts, n, n, Disposed);
  }

  // ----- disposal -----

  /** A running driver first cancelled as disposed owes no wake, whatever follows. */
  lemma DisposedDriverOwesNothing(acts: seq<Act>)
    requires FirstCancelled(acts, |acts|, Disposed)
    ensures !Owed(false, acts)
  {
  }

  /**
   * Maintenance first cancelled as disposed owes a wake exactly when one was sent before that
   * cancellation and every cancellation kept the inbox.
   */
  lemma DisposedMaintenanceOwes(acts: seq<Act>)
    requires FirstCancelled(acts, |acts|, Disposed)
    ensures Owed(true, acts) <==>
            && (exists i: nat | i < |acts| :: acts[i].WakingSend? && Uncancelled(acts, i))
            && (forall j | 0 <= j < |acts| && acts[j].Cancel? :: acts[j].keepInbox)
  {
    var c: nat :| c < |acts| && acts[c].Cancel? && acts[c].cause == Disposed
        && forall i | 0 <= i < c :: !acts[i].Cancel?;
    forall i: nat | i < |acts| && acts[i].WakingSend? ensures Qualifies(true, acts, i) <==> Uncancelled(acts, i) {
      if c < i {
        assert FirstCancelled(acts, i, Disposed);
      }
    }
    if i: nat :| i < |acts| && Qualifies(true, acts, i) && !ClearedAfter(acts, i) {
      assert acts[i].WakingSend? && Uncancelled(acts, i);
      assert forall j | 0 <= j < |acts| && acts[j].Cancel? :: i < j;
    }
    if i: nat :| i < |acts| && acts[i].WakingSend? && Uncancelled(acts, i) {
      assert Qualifies(true, acts, i);
    }
  }

  /** Disposing of a maintenance job while keeping its inbox does not take back a wake already latched. */
  lemma DisposedMaintenanceRestarts() returns (acts: seq<Act>)
    ensures FirstCancelled(acts, |acts|, Disposed) && Owed(true, acts)
  {
    acts := [WakingSend, Cancel(Disposed, true)];
    assert acts[1].Cancel? && acts[1].cause == Disposed;
    assert Uncancelled(acts, 0) && acts[0].WakingSend?;
    DisposedMaintenanceOwes(acts);
  }
}
