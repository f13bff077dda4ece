/**
 * Sharing, exclusive reservation and ready-entry LRU of unpublished sessions.
 *
 * Entries, waiter promises and reservations are named by fresh numbers, which stand for object
 * identity; `heap` holds every entry ever created, `order` is the insertion-ordered map. Each
 * public call, and each resumption of an awaiting `inspect` or `reserve`, is one step.
 */
module Preparations {
  import opened Options

  datatype Phase = Loading | Ready | Committing | Reserved

  datatype LoadResult = Pending | Loaded(source: nat) | LoadFailed

  /** History: `touched` is the time of the entry's last touch, `owner` the call that last took it to commit. */
  datatype Entry = Entry(
    id: nat, result: LoadResult, phase: Phase, source: Option<nat>,
    reservation: Option<nat>, waiter: Option<nat>, touched: nat, owner: nat)

  /** An awaiting call. */
  datatype Activity =
    | Inspecting(entry: nat)
    | AwaitingLoad(entry: nat)
    | AwaitingTurn(entry: nat, waiter: nat)
    | InCommit(entry: nat)
    | Done

  datatype CommitOutcome = CommitRejects | CommitUndefined | Committed(source: nat, aborted: bool)

  /** The map: its entries in insertion order, and every entry object. */
  datatype Table = Table(order: seq<nat>, heap: map<nat, Entry>, next: nat, clock: nat)

  datatype State = State(t: Table, capacity: nat, settled: set<nat>, nextWaiter: nat, nextReservation: nat,
      holders: map<nat, nat>, acts: map<nat, Activity>, lostWaiter: bool)

  function Without(order: seq<nat>, e: nat): (r: seq<nat>)
    ensures forall x :: x in r <==> x in order && x != e
  {
    if order == [] then []
    else if order[0] == e then Without(order[1..], e)
    else [order[0]] + Without(order[1..], e)
  }

  function ReadyList(order: seq<nat>, heap: map<nat, Entry>): (r: seq<nat>)
    ensures forall x :: x in r <==> x in order && x in heap && heap[x].phase == Ready
  {
    if order == [] then []
    else if order[0] in heap && heap[order[0]].phase == Ready then [order[0]] + ReadyList(order[1..], heap)
    else ReadyList(order[1..], heap)
  }

  /** `entries.get(id)`. */
  function Get(order: seq<nat>, heap: map<nat, Entry>, id: nat): (r: Option<nat>)
    ensures r.Some? ==> r.value in order && r.value in heap && heap[r.value].id == id
    ensures r.None? ==> forall e | e in order && e in heap :: heap[e].id != id
  {
    if order == [] then None
    else if order[0] in heap && heap[order[0]].id == id then Some(order[0])
    else Get(order[1..], heap, id)
  }

  predicate Current(t: Table, e: nat) {
    e in t.heap && Get(t.order, t.heap, t.heap[e].id) == Some(e)
  }

  // ----- the pool's private operations -----

  /** Move an entry to the map's end, then drop the first ready entry if there are too many. */
  function Touch(t: Table, e: nat, capacity: nat): Table
    requires e in t.heap
  {
    var heap := t.heap[e := t.heap[e].(touched := t.clock + 1)];
    var order := Without(t.order, e) + [e];
    var ready := ReadyList(order, heap);
    Table(if |ready| <= capacity then order else Without(order, ready[0]), heap, t.next, t.clock + 1)
  }

  function Settle(s: State, waiter: Option<nat>): State {
    if waiter.Some? then s.(settled := s.settled + {waiter.value}) else s
  }

  function MakeReady(s: State, e: nat): State
    requires e in s.t.heap
  {
    if !Current(s.t, e) then s
    else
      var entry := s.t.heap[e];
      var t := s.t.(heap := s.t.heap[e := entry.(phase := Ready, waiter := None)]);
      Settle(s, entry.waiter).(t := Touch(t, e, s.capacity))
  }

  function Remove(s: State, e: nat): State
    requires e in s.t.heap
  {
    if !Current(s.t, e) then s
    else
      var entry := s.t.heap[e];
      Settle(s, entry.waiter).(t := s.t.(order := Without(s.t.order, e), heap := s.t.heap[e := entry.(waiter := None)]))
  }

  // ----- steps -----

  datatype Action =
    | BeginInspect(act: nat, id: nat, loadThrows: bool)
    | BeginReserve(act: nat, id: nat, loadThrows: bool)
    | LoadSettles(entry: nat, source: Option<nat>)
    | InspectResumes(act: nat)
    | ReserveResumes(act: nat)
    | Abandon(act: nat)
    | CommitSettles(act: nat, outcome: CommitOutcome)
    | Attach(reservation: nat)
    | Discard(reservation: nat)
    | Release(reservation: nat, reusable: bool)
    | Invalidate(id: nat)
    | DiscardReady(id: nat, expected: nat)
    | TakeReady(id: nat)

  /** `entryFor`: the existing entry, or a fresh one whose load has started (or thrown at once). */
  function EntryFor(s: State, id: nat, loadThrows: bool): (r: (State, nat))
  {
    var existing := Get(s.t.order, s.t.heap, id);
    if existing.Some? then (s, existing.value)
    else
      var e := s.t.next;
      var entry := Entry(id, if loadThrows then LoadFailed else Pending, Loading, None, None, None, 0, 0);
      (s.(t := Table(if loadThrows then s.t.order else s.t.order + [e], s.t.heap[e := entry], e + 1, s.t.clock)), e)
  }

  /** A reservation no longer accepted by the pool. */
  predicate Stale(s: State, r: nat) {
    || r !in s.holders
    || s.holders[r] !in s.t.heap
    || !Current(s.t, s.holders[r])
    || s.t.heap[s.holders[r]].reservation != Some(r)
  }

  predicate Enabled(s: State, a: Action) {
    match a
    case BeginInspect(act, _, _) => act !in s.acts
    case BeginReserve(act, _, _) => act !in s.acts
    case LoadSettles(e, _) => e in s.t.heap && s.t.heap[e].result.Pending?
    case InspectResumes(act) =>
      act in s.acts && s.acts[act].Inspecting? && s.acts[act].entry in s.t.heap
      && !s.t.heap[s.acts[act].entry].result.Pending?
    case ReserveResumes(act) =>
      && act in s.acts && (s.acts[act].AwaitingLoad? || s.acts[act].AwaitingTurn?) && s.acts[act].entry in s.t.heap
      && (s.acts[act].AwaitingLoad? ==> !s.t.heap[s.acts[act].entry].result.Pending?)
      && (s.acts[act].AwaitingTurn? ==> s.acts[act].waiter in s.settled)
    case Abandon(act) =>
      act in s.acts && (s.acts[act].Inspecting? || s.acts[act].AwaitingLoad? || s.acts[act].AwaitingTurn?)
    case CommitSettles(act, _) => act in s.acts && s.acts[act].InCommit? && s.acts[act].entry in s.t.heap
    case _ => true
  }

  /** The body of `reserve` from its wait loop on. */
  function TakeTurn(s: State, act: nat, e: nat): State
    requires e in s.t.heap
  {
    var entry := s.t.heap[e];
    if entry.result == LoadFailed || !Current(s.t, e) then s.(acts := s.acts[act := Done])
    else if entry.phase != Ready then
      if entry.waiter.None? then s.(lostWaiter := true, acts := s.acts[act := Done])
      else s.(acts := s.acts[act := AwaitingTurn(e, entry.waiter.value)])
    else
      s.(t := s.t.(heap := s.t.heap[e := entry.(phase := Committing, waiter := Some(s.nextWaiter), owner := act)]),
         nextWaiter := s.nextWaiter + 1, acts := s.acts[act := InCommit(e)])
  }

  /** An entry held by a fresh reservation. */
  function HandedOut(s: State, e: nat): State
    requires e in s.t.heap
  {
    s.(t := s.t.(heap := s.t.heap[e := s.t.heap[e].(phase := Reserved, reservation := Some(s.nextReservation))]),
       holders := s.holders[s.nextReservation := e], nextReservation := s.nextReservation + 1)
  }

  /** The rest of `reserve`, after its commit settled. */
  function FinishCommit(s: State, act: nat, e: nat, outcome: CommitOutcome): State
    requires e in s.t.heap
  {
    var t := s.(acts := s.acts[act := Done]);
    match outcome
    case CommitRejects => Remove(t, e)
    case CommitUndefined => Remove(t, e)
    case Committed(source, aborted) =>
      var u := t.(t := t.t.(heap := t.t.heap[e := t.t.heap[e].(source := Some(source))]));
      if aborted then MakeReady(u, e)
      else if !Current(u.t, e) then u
      else HandedOut(u, e)
  }

  function Step(s: State, a: Action): State
    requires Enabled(s, a)
  {
    match a
    case BeginInspect(act, id, throws) =>
      var (t, e) := EntryFor(s, id, throws);
      t.(acts := t.acts[act := Inspecting(e)])
    case BeginReserve(act, id, throws) =>
      var (t, e) := EntryFor(s, id, throws);
      t.(acts := t.acts[act := AwaitingLoad(e)])
    case LoadSettles(e, source) =>
      var entry := s.t.heap[e];
      if source.None? then
        var t := s.(t := s.t.(heap := s.t.heap[e := entry.(result := LoadFailed)]));
        Remove(t, e)
      else
        var loaded := entry.(result := Loaded(source.value),
            source := if Current(s.t, e) then source else entry.source);
        MakeReady(s.(t := s.t.(heap := s.t.heap[e := loaded])), e)
    case InspectResumes(act) =>
      var e := s.acts[act].entry;
      var t := s.(acts := s.acts[act := Done]);
      if s.t.heap[e].result.Loaded? && Current(s.t, e) && s.t.heap[e].phase == Ready then
        t.(t := Touch(t.t, e, t.capacity)) else t
    case ReserveResumes(act) => TakeTurn(s, act, s.acts[act].entry)
    case Abandon(act) => s.(acts := s.acts[act := Done])
    case CommitSettles(act, outcome) => FinishCommit(s, act, s.acts[act].entry, outcome)
    case Attach(r) => if Stale(s, r) then s else Remove(s, s.holders[r])
    case Discard(r) => if Stale(s, r) then s else Remove(s, s.holders[r])
    case Release(r, reusable) =>
      if Stale(s, r) || s.t.heap[s.holders[r]].phase != Reserved then s
      else if !reusable then Remove(s, s.holders[r])
      else
        var e := s.holders[r];
        MakeReady(s.(t := s.t.(heap := s.t.heap[e := s.t.heap[e].(reservation := None)])), e)
    case Invalidate(id) =>
      var e := Get(s.t.order, s.t.heap, id);
      if e.Some? then Remove(s, e.value) else s
    case DiscardReady(id, expected) =>
      var e := Get(s.t.order, s.t.heap, id);
      if e.None? || s.t.heap[e.value].source != Some(expected) || s.t.heap[e.value].phase != Ready then s
      else Remove(s, e.value)
    case TakeReady(id) =>
      var e := Get(s.t.order, s.t.heap, id);
      if e.None? || s.t.heap[e.value].phase != Ready || s.t.heap[e.value].source.None? then s else Remove(s, e.value)
  }

  // ----- invariants -----

  ghost predicate NoDup(order: seq<nat>) {
    forall i, j | 0 <= i < j < |order| :: order[i] != order[j]
  }

  ghost predicate TableOk(t: Table) {
    && NoDup(t.order)
    && (forall e | e in t.order :: e in t.heap)
    && (forall e, f | e in t.order && f in t.order && t.heap[e].id == t.heap[f].id :: e == f)
  }

  /** What the phase of an entry in the map says about its fields. */
  ghost predicate EntryOk(entry: Entry) {
    && (entry.phase == Loading <==> entry.result.Pending?)
    && (entry.phase == Ready ==> entry.waiter.None?)
    && (entry.phase == Loading ==> entry.waiter.None?)
    && (entry.phase == Committing || entry.phase == Reserved ==> entry.waiter.Some?)
    && (entry.phase != Loading ==> entry.source.Some?)
    && (entry.reservation.Some? <==> entry.phase == Reserved)
  }

  ghost predicate Increasing(list: seq<nat>, heap: map<nat, Entry>) {
    && (forall x | x in list :: x in heap)
    && forall i, j | 0 <= i < j < |list| :: heap[list[i]].touched < heap[list[j]].touched
  }

  /** Ready entries lie in the map in last-touch order, and there are at most `capacity` of them. */
  ghost predicate LruOk(t: Table, capacity: nat) {
    var ready := ReadyList(t.order, t.heap);
    && Increasing(ready, t.heap)
    && (forall e | e in t.heap :: t.heap[e].touched <= t.clock && e < t.next)
    && |ready| <= capacity
  }

  /** An abstract LRU list: the touched element becomes newest, the oldest falls out beyond capacity. */
  function LruTouch(list: seq<nat>, e: nat, capacity: nat): seq<nat> {
    var next := Without(list, e) + [e];
    if |next| <= capacity then next else next[1..]
  }

  // ----- lists -----

  lemma {:induction false} WithoutParts(l: seq<nat>, e: nat)
    ensures NoDup(l) ==> NoDup(Without(l, e))
    ensures |Without(l, e)| <= |l|
    ensures e in l ==> |Without(l, e)| < |l|
    ensures e !in l ==> Without(l, e) == l
  {
    if l != [] {
      WithoutParts(l[1..], e);
      assert l == [l[0]] + l[1..];
      if NoDup(l) {
        assert forall i, j | 0 <= i < j < |l[1..]| :: l[1..][i] == l[i + 1] && l[1..][j] == l[j + 1];
        assert NoDup(l[1..]);
        if l[0] != e {
          var r := Without(l[1..], e);
          forall j | 0 <= j < |r| ensures r[j] != l[0] { assert r[j] in l[1..]; }
        }
      }
    }
  }

  lemma {:induction false} IncreasingWithout(l: seq<nat>, e: nat, heap: map<nat, Entry>)
    requires Increasing(l, heap)
    ensures Increasing(Without(l, e), heap)
  {
    if l != [] {
      hide Increasing;
      IncreasingTail(l, heap);
      IncreasingWithout(l[1..], e, heap);
      IncreasingCons(l[0], Without(l[1..], e), heap);
    }
  }

  lemma IncreasingTail(l: seq<nat>, heap: map<nat, Entry>)
    requires Increasing(l, heap) && l != []
    ensures l[0] in heap && Increasing(l[1..], heap)
    ensures forall x | x in l[1..] :: x in heap && heap[l[0]].touched < heap[x].touched
  {
    var rest := l[1..];
    forall i | 0 <= i < |rest| ensures rest[i] == l[i + 1] && rest[i] in heap {
      assert l[i + 1] in l;
    }
  }

  lemma IncreasingCons(e: nat, l: seq<nat>, heap: map<nat, Entry>)
    requires e in heap && Increasing(l, heap)
    requires forall x | x in l :: x in heap && heap[e].touched < heap[x].touched
    ensures Increasing([e] + l, heap)
  {
    var m := [e] + l;
    forall i, j | 0 <= i < j < |m| ensures heap[m[i]].touched < heap[m[j]].touched {
      assert m[j] == l[j - 1] && (i > 0 ==> m[i] == l[i - 1]);
      assert l[j - 1] in l;
    }
  }

  lemma IncreasingAppend(l: seq<nat>, e: nat, heap: map<nat, Entry>)
    requires e in heap && Increasing(l, heap)
    requires forall x | x in l :: x in heap && heap[x].touched < heap[e].touched
    ensures Increasing(l + [e], heap)
  {
    var m := l + [e];
    forall i, j | 0 <= i < j < |m| ensures heap[m[i]].touched < heap[m[j]].touched {
      assert m[i] == l[i] && l[i] in l && (j < |l| ==> m[j] == l[j]);
    }
  }

  lemma {:induction false} ReadyWithout(order: seq<nat>, heap: map<nat, Entry>, e: nat)
    ensures ReadyList(Without(order, e), heap) == Without(ReadyList(order, heap), e)
  {
    if order != [] {
      ReadyWithout(order[1..], heap, e);
    }
  }

  lemma {:induction false} ReadyAppend(order: seq<nat>, heap: map<nat, Entry>, e: nat)
    requires e in heap
    ensures ReadyList(order + [e], heap) == ReadyList(order, heap) + (if heap[e].phase == Ready then [e] else [])
  {
    if order != [] {
      assert (order + [e])[1..] == order[1..] + [e];
      ReadyAppend(order[1..], heap, e);
    } else {
      assert [e][1..] == [];
    }
  }

  lemma {:induction false} ReadyFrame(order: seq<nat>, heap: map<nat, Entry>, heap': map<nat, Entry>)
    requires forall e | e in order :: (e in heap && heap[e].phase == Ready) == (e in heap' && heap'[e].phase == Ready)
    ensures ReadyList(order, heap) == ReadyList(order, heap')
  {
    if order != [] {
      ReadyFrame(order[1..], heap, heap');
    }
  }

  lemma CurrentIff(t: Table, e: nat)
    requires TableOk(t) && e in t.heap
    ensures Current(t, e) <==> e in t.order
  {
  }

  /** Looking an id up depends on the entries' ids alone. */
  lemma {:induction false} GetFrame(order: seq<nat>, heap: map<nat, Entry>, heap': map<nat, Entry>, id: nat)
    requires forall x | x in order :: x in heap && x in heap' && heap'[x].id == heap[x].id
    ensures Get(order, heap', id) == Get(order, heap, id)
  {
    if order != [] {
      GetFrame(order[1..], heap, heap', id);
    }
  }

  // ----- the LRU refinement -----

  /** The table right after the move, before any eviction. */
  function Moved(t: Table, e: nat): Table
    requires e in t.heap
  {
    Table(Without(t.order, e) + [e], t.heap[e := t.heap[e].(touched := t.clock + 1)], t.next, t.clock + 1)
  }

  lemma MovedOrder(t: Table, e: nat)
    requires TableOk(t) && e in t.order
    ensures TableOk(Moved(t, e))
    ensures forall x :: x in Moved(t, e).order <==> x in t.order
  {
    WithoutParts(t.order, e);
  }

  lemma MovedReady(t: Table, e: nat)
    requires TableOk(t) && e in t.order && e in t.heap && t.heap[e].phase == Ready
    requires Increasing(Without(ReadyList(t.order, t.heap), e), t.heap)
    requires forall x | x in t.heap :: t.heap[x].touched <= t.clock
    ensures var u := Moved(t, e);
            && ReadyList(u.order, u.heap) == Without(ReadyList(t.order, t.heap), e) + [e]
            && Increasing(ReadyList(u.order, u.heap), u.heap)
  {
    hide Increasing, Without, ReadyList, NoDup;
    var u := Moved(t, e);
    var rest := Without(ReadyList(t.order, t.heap), e);
    ReadyWithout(t.order, u.heap, e);
    ReadyFrame(t.order, t.heap, u.heap);
    ReadyAppend(Without(t.order, e), u.heap, e);
    IncreasingFrame(rest, t.heap, u.heap);
    IncreasingAppend(rest, e, u.heap);
  }

  lemma OldestOut(l: seq<nat>, heap: map<nat, Entry>)
    requires Increasing(l, heap) && l != []
    ensures Without(l, l[0]) == l[1..] && Increasing(l[1..], heap)
    ensures forall y | y in l[1..] :: heap[l[0]].touched < heap[y].touched
  {
    assert forall j | 0 <= j < |l[1..]| :: l[1..][j] == l[j + 1];
    WithoutParts(l[1..], l[0]);
  }

  lemma TableWithout(t: Table, e: nat)
    requires TableOk(t)
    ensures TableOk(t.(order := Without(t.order, e)))
  {
    WithoutParts(t.order, e);
  }

  /** Dropping the first ready entry of a table drops the oldest. */
  lemma EvictOldest(u: Table)
    requires TableOk(u) && Increasing(ReadyList(u.order, u.heap), u.heap) && ReadyList(u.order, u.heap) != []
    ensures var ready := ReadyList(u.order, u.heap);
            var v := u.(order := Without(u.order, ready[0]));
            && TableOk(v) && ReadyList(v.order, v.heap) == ready[1..] && Increasing(ready[1..], u.heap)
            && (forall y | y in ready[1..] :: u.heap[ready[0]].touched < u.heap[y].touched)
  {
    hide TableOk, Increasing, NoDup, Without;
    var ready := ReadyList(u.order, u.heap);
    TableWithout(u, ready[0]);
    ReadyWithout(u.order, u.heap, ready[0]);
    OldestOut(ready, u.heap);
  }

  /**
   * Touching a ready entry is the abstract LRU touch: the ready list stays in last-touch order
   * within capacity, and an entry that leaves the map was its oldest ready entry.
   */
  lemma TouchRefinesLru(t: Table, e: nat, capacity: nat)
    requires TableOk(t) && e in t.order && e in t.heap && t.heap[e].phase == Ready
    requires Increasing(Without(ReadyList(t.order, t.heap), e), t.heap)
      && |Without(ReadyList(t.order, t.heap), e)| <= capacity
    requires forall x | x in t.heap :: t.heap[x].touched <= t.clock && x < t.next
    ensures var t' := Touch(t, e, capacity);
            && TableOk(t') && LruOk(t', capacity)
            && ReadyList(t'.order, t'.heap) == LruTouch(ReadyList(t.order, t.heap), e, capacity)
            && (forall x | x in t'.order :: x in t.order)
            && (forall x | x in t.order && x !in t'.order ::
                  && t'.heap[x].phase == Ready
                  && (forall y | y in ReadyList(t'.order, t'.heap) :: t'.heap[x].touched < t'.heap[y].touched))
  {
    hide TableOk, Increasing, NoDup, Without, ReadyList;
    MovedOrder(t, e);
    MovedReady(t, e);
    assert Touch(t, e, capacity).heap == Moved(t, e).heap;
    if |ReadyList(Moved(t, e).order, Moved(t, e).heap)| > capacity {
      EvictOldest(Moved(t, e));
    }
  }

  // ----- what each operation does to the table -----

  /** `t'` differs from `t` at `e` only, except that other ready entries may have left the map. */
  ghost predicate Touches(t: Table, t': Table, e: nat) {
    && (forall x | x in t.heap :: x in t'.heap && (x != e ==> t'.heap[x] == t.heap[x]))
    && (forall x | x in t'.heap :: x in t.heap)
    && (forall x | x in t'.order :: x in t.order)
    && (forall x | x in t.order && x !in t'.order && x != e :: x in t.heap && t.heap[x].phase == Ready)
    && t'.next == t.next
  }

  ghost predicate TableInv(t: Table, capacity: nat) {
    && TableOk(t)
    && (forall e | e in t.order :: EntryOk(t.heap[e]))
    && LruOk(t, capacity)
  }

  lemma RemoveTable(s: State, e: nat)
    requires TableOk(s.t) && LruOk(s.t, s.capacity) && e in s.t.heap
    requires forall x | x in s.t.order && x != e :: EntryOk(s.t.heap[x])
    ensures var s' := Remove(s, e);
            && TableInv(s'.t, s.capacity) && Touches(s.t, s'.t, e) && e !in s'.t.order
            && s' == s.(t := s'.t, settled := s'.settled) && s.settled <= s'.settled
            && (e in s.t.order && s.t.heap[e].waiter.Some? ==> s.t.heap[e].waiter.value in s'.settled)
            && s'.t.heap[e] == s.t.heap[e].(waiter := s'.t.heap[e].waiter)
  {
    CurrentIff(s.t, e);
    hide TableOk, LruOk, Without, Current, EntryOk;
    WithoutOk(s.t, e);
    WithoutLru(s.t, e, s.capacity);
    if Current(s.t, e) { assert Remove(s, e).t == Unlisted(s.t, e); } else { assert Remove(s, e) == s; }
  }

  /** The table without an entry, whose waiter is forgotten. */
  function Unlisted(t: Table, e: nat): Table
    requires e in t.heap
  {
    t.(order := Without(t.order, e), heap := t.heap[e := t.heap[e].(waiter := None)])
  }

  lemma WithoutOk(t: Table, e: nat)
    requires TableOk(t) && e in t.heap
    ensures TableOk(Unlisted(t, e)) && TableOk(t)
  {
    hide Without, NoDup;
    TableWithout(t, e);
  }

  lemma WithoutLru(t: Table, e: nat, capacity: nat)
    requires LruOk(t, capacity) && e in t.heap
    ensures LruOk(Unlisted(t, e), capacity)
  {
    hide Without, Increasing, ReadyList;
    var u := Unlisted(t, e);
    var ready := ReadyList(t.order, t.heap);
    ReadyWithout(t.order, t.heap, e);
    IncreasingWithout(ready, e, t.heap);
    WithoutParts(ready, e);
    ReadyFrame(u.order, t.heap, u.heap);
    IncreasingFrame(Without(ready, e), t.heap, u.heap);
  }

  /** `s` is a pool whose entry `e`, not ready, has just been given what a ready entry needs. */
  lemma MakeReadyTable(s: State, e: nat)
    requires TableOk(s.t) && LruOk(s.t, s.capacity) && e in s.t.heap
    requires forall x | x in s.t.order && x != e :: EntryOk(s.t.heap[x])
    requires s.t.heap[e].phase != Ready || e !in s.t.order
    requires e in s.t.order ==>
          !s.t.heap[e].result.Pending? && s.t.heap[e].source.Some? && s.t.heap[e].reservation.None?
    ensures var s' := MakeReady(s, e);
            && TableInv(s'.t, s.capacity) && Touches(s.t, s'.t, e)
            && s' == s.(t := s'.t, settled := s'.settled) && s.settled <= s'.settled
            && (e in s'.t.order ==> s'.t.heap[e].phase == Ready)
            && (e in s.t.order ==>
                  s'.t.heap[e] == s.t.heap[e].(phase := Ready, waiter := None, touched := s'.t.heap[e].touched))
            && (e !in s.t.order ==> s' == s)
            && (e in s.t.order ==>
                  ReadyList(s'.t.order, s'.t.heap) == LruTouch(ReadyList(s.t.order, s.t.heap), e, s.capacity))
            && (e in s.t.order && s.t.heap[e].waiter.Some? ==> s.t.heap[e].waiter.value in s'.settled)
  {
    hide TableOk, LruOk, Touch, Get, Current, ReadyList, LruTouch, Touches;
    CurrentIff(s.t, e);
    if e in s.t.order {
      ReadiedTable(s.t, e, s.capacity);
      TouchedOnly(s.t, Readied(s.t, e, s.capacity), e);
    } else {
      NothingTouched(s.t, e);
    }
  }

  lemma TouchedOnly(t: Table, u: Table, e: nat)
    requires Touches(t, u, e) && TableOk(t)
    ensures forall x | x in u.order && x != e :: x in t.order && x in t.heap && x in u.heap && u.heap[x] == t.heap[x]
  {
  }

  lemma NothingTouched(t: Table, e: nat)
    requires TableOk(t)
    ensures Touches(t, t, e)
  {
  }

  /** An entry marked ready and touched. */
  function Readied(t: Table, e: nat, capacity: nat): Table
    requires e in t.heap
  {
    Touch(t.(heap := t.heap[e := t.heap[e].(phase := Ready, waiter := None)]), e, capacity)
  }

  lemma ReadiedTable(t: Table, e: nat, capacity: nat)
    requires TableOk(t) && LruOk(t, capacity) && e in t.heap && e in t.order && t.heap[e].phase != Ready
    ensures var u := Readied(t, e, capacity);
            && TableOk(u) && LruOk(u, capacity) && Touches(t, u, e)
            && u.heap[e] == t.heap[e].(phase := Ready, waiter := None, touched := u.heap[e].touched)
            && ReadyList(u.order, u.heap) == LruTouch(ReadyList(t.order, t.heap), e, capacity)
  {
    hide NoDup, Increasing, Without, ReadyList, Touch;
    WithoutParts(ReadyList(t.order, t.heap), e);
    var v := t.(heap := t.heap[e := t.heap[e].(phase := Ready, waiter := None)]);
    ReadyMinus(t, v, e);
    TouchRefinesLru(v, e, capacity);
    TouchTouches(v, e, capacity);
  }

  /** Marking an entry ready adds only that entry to the ready list. */
  lemma ReadyMinus(t: Table, u: Table, e: nat)
    requires e in t.order && e in t.heap && t.heap[e].phase != Ready && Increasing(ReadyList(t.order, t.heap), t.heap)
    requires e in u.heap && u == t.(heap := t.heap[e := u.heap[e]])
    ensures Without(ReadyList(u.order, u.heap), e) == ReadyList(t.order, t.heap)
    ensures Increasing(ReadyList(t.order, t.heap), u.heap)
  {
    ReadyWithout(t.order, u.heap, e);
    ReadyWithout(t.order, t.heap, e);
    ReadyFrame(Without(t.order, e), t.heap, u.heap);
    WithoutParts(ReadyList(t.order, t.heap), e);
  }

  lemma TouchTouches(t: Table, e: nat, capacity: nat)
    requires TableOk(t) && e in t.order && t.heap[e].phase == Ready
    ensures Touches(t, Touch(t, e, capacity), e)
    ensures Touch(t, e, capacity).heap == t.heap[e := t.heap[e].(touched := t.clock + 1)]
  {
    hide ReadyList, Without, NoDup;
  }

  lemma TouchTable(t: Table, e: nat, capacity: nat)
    requires TableInv(t, capacity) && e in t.order && t.heap[e].phase == Ready
    ensures TableInv(Touch(t, e, capacity), capacity) && Touches(t, Touch(t, e, capacity), e)
  {
    hide NoDup, Increasing, Without, ReadyList, Touch;
    var ready := ReadyList(t.order, t.heap);
    IncreasingWithout(ready, e, t.heap);
    WithoutParts(ready, e);
    TouchRefinesLru(t, e, capacity);
    TouchTouches(t, e, capacity);
  }

  lemma TouchLru(t: Table, e: nat, capacity: nat)
    requires TableInv(t, capacity) && e in t.order && t.heap[e].phase == Ready
    ensures var u := Touch(t, e, capacity);
            ReadyList(u.order, u.heap) == LruTouch(ReadyList(t.order, t.heap), e, capacity)
  {
    hide NoDup, Increasing, Without, ReadyList, Touch;
    var ready := ReadyList(t.order, t.heap);
    IncreasingWithout(ready, e, t.heap);
    WithoutParts(ready, e);
    TouchRefinesLru(t, e, capacity);
  }

  // ----- what awaiting calls may rely on -----

  ghost predicate ActOk(s: State, a: nat)
    requires a in s.acts
  {
    match s.acts[a]
    case Done => true
    case Inspecting(e) => e in s.t.heap
    case AwaitingLoad(e) => e in s.t.heap
    case AwaitingTurn(e, w) =>
      && e in s.t.heap && s.t.heap[e].result.Loaded? && w < s.nextWaiter
      && (w in s.settled || (e in s.t.order && s.t.heap[e].waiter == Some(w)))
    case InCommit(e) =>
      && e in s.t.heap && s.t.heap[e].result.Loaded? && s.t.heap[e].owner == a
      && (e in s.t.order ==> s.t.heap[e].phase == Committing)
  }

  /** A held entry in the map has its one holder: a call in commit, or the returned reservation. */
  ghost predicate Owned(s: State, e: nat)
    requires e in s.t.heap
  {
    var entry := s.t.heap[e];
    && (entry.phase == Committing ==> entry.owner in s.acts && s.acts[entry.owner] == InCommit(e))
    && (entry.phase == Reserved ==>
          entry.reservation.Some? && entry.reservation.value in s.holders && s.holders[entry.reservation.value] == e)
    && (entry.waiter.Some? ==> entry.waiter.value < s.nextWaiter)
  }

  ghost predicate CallsInv(s: State) {
    && !s.lostWaiter
    && (forall e | e in s.t.order :: e in s.t.heap)
    && (forall a | a in s.acts :: ActOk(s, a))
    && (forall e | e in s.t.order :: Owned(s, e))
    && (forall r | r in s.holders :: r < s.nextReservation && s.holders[r] in s.t.heap)
  }

  ghost predicate Inv(s: State) {
    TableInv(s.t, s.capacity) && CallsInv(s)
  }

  /**
   * Making `e` ready or removing it keeps the calls' invariant, if its waiter is settled and nobody
   * is in commit on it.
   */
  lemma CallsFrame(s: State, s': State, e: nat)
    requires !s.lostWaiter && (forall x | x in s.t.order :: x in s.t.heap)
    requires forall a | a in s.acts :: ActOk(s, a)
    requires forall x | x in s.t.order && x != e :: Owned(s, x) && EntryOk(s.t.heap[x])
    requires forall r | r in s.holders :: r < s.nextReservation && s.holders[r] in s.t.heap
    requires Touches(s.t, s'.t, e) && s' == s.(t := s'.t, settled := s'.settled) && s.settled <= s'.settled
    requires e in s.t.heap && s'.t.heap[e].result == s.t.heap[e].result && s'.t.heap[e].owner == s.t.heap[e].owner
    requires e in s.t.order && s.t.heap[e].waiter.Some? ==> s.t.heap[e].waiter.value in s'.settled
    requires e in s'.t.order ==>
          s'.t.heap[e].phase == Ready && s'.t.heap[e].waiter.None? && forall a | a in s.acts :: s.acts[a] != InCommit(e)
    ensures CallsInv(s')
  {
  }

  /** A fresh entry that is not ready joins the heap, and perhaps the map's end. */
  lemma AddTable(t: Table, order: seq<nat>, entry: Entry, capacity: nat)
    requires TableOk(t) && LruOk(t, capacity)
    requires entry.phase != Ready && entry.touched == 0 && forall x | x in t.order :: t.heap[x].id != entry.id
    requires order == t.order || order == t.order + [t.next]
    ensures TableOk(Table(order, t.heap[t.next := entry], t.next + 1, t.clock))
  {
    assert t.next !in t.heap;
  }

  lemma AddLru(t: Table, order: seq<nat>, entry: Entry, capacity: nat)
    requires LruOk(t, capacity) && t.next !in t.order
    requires entry.phase != Ready && entry.touched == 0
    requires order == t.order || order == t.order + [t.next]
    ensures LruOk(Table(order, t.heap[t.next := entry], t.next + 1, t.clock), capacity)
  {
    hide Increasing;
    var heap := t.heap[t.next := entry];
    assert t.next !in t.heap;
    ReadyFrame(t.order, t.heap, heap);
    ReadyAppend(t.order, heap, t.next);
    IncreasingFrame(ReadyList(t.order, t.heap), t.heap, heap);
    assert ReadyList(order, heap) == ReadyList(t.order, t.heap);
  }

  lemma EntryForTable(s: State, id: nat, throws: bool)
    requires TableInv(s.t, s.capacity)
    ensures var (t, e) := EntryFor(s, id, throws);
            && TableInv(t.t, s.capacity) && t == s.(t := t.t) && e in t.t.heap
            && (forall x | x in s.t.heap :: x in t.t.heap && t.t.heap[x] == s.t.heap[x])
            && (forall x | x in s.t.order :: x in t.t.order)
            && (forall x | x in t.t.order && x !in s.t.order ::
                  x == e && x !in s.t.heap && t.t.heap[x].phase == Loading && EntryOk(t.t.heap[x]))
  {
    hide ReadyList, Increasing, NoDup, Get;
    if Get(s.t.order, s.t.heap, id).None? {
      assert s.t.next !in s.t.heap;
      AddLru(s.t, EntryFor(s, id, throws).0.t.order, EntryFor(s, id, throws).0.t.heap[s.t.next], s.capacity);
      AddTable(s.t, EntryFor(s, id, throws).0.t.order, EntryFor(s, id, throws).0.t.heap[s.t.next], s.capacity);
    }
  }

  lemma IncreasingFrame(l: seq<nat>, heap: map<nat, Entry>, heap': map<nat, Entry>)
    requires Increasing(l, heap)
    requires forall x | x in l :: x in heap' && (x in heap ==> heap'[x].touched == heap[x].touched)
    ensures Increasing(l, heap')
  {
  }

  lemma EntryForKeeps(s: State, id: nat, throws: bool)
    requires Inv(s)
    ensures var (t, e) := EntryFor(s, id, throws); Inv(t) && e in t.t.heap && t.acts == s.acts
  {
    hide EntryFor, ReadyList, Increasing, NoDup, LruOk, TableOk;
    var (t, e) := EntryFor(s, id, throws);
    EntryForTable(s, id, throws);
    forall x | x in t.t.order ensures x in t.t.heap && Owned(t, x) {
      if x in s.t.order { assert Owned(s, x); }
    }
    forall a | a in t.acts ensures ActOk(t, a) {
      assert ActOk(s, a);
      if s.acts[a].InCommit? { assert s.acts[a].entry in s.t.heap; }
    }
  }

  /** Changing one held or loading entry's fields, but not its readiness, keeps the table. */
  lemma UpdateTable(t: Table, e: nat, entry: Entry, capacity: nat)
    requires TableOk(t) && LruOk(t, capacity) && e in t.heap
    requires entry.id == t.heap[e].id && entry.touched == t.heap[e].touched
    requires e in t.order ==> (entry.phase == Ready <==> t.heap[e].phase == Ready)
    ensures TableOk(t.(heap := t.heap[e := entry])) && LruOk(t.(heap := t.heap[e := entry]), capacity)
  {
    hide Increasing, NoDup;
    ReadyFrame(t.order, t.heap, t.heap[e := entry]);
    IncreasingFrame(ReadyList(t.order, t.heap), t.heap, t.heap[e := entry]);
  }

  /** A ready entry leaves the ready list when a call takes it to commit. */
  lemma TakeTable(t: Table, e: nat, entry: Entry, capacity: nat)
    requires TableOk(t) && LruOk(t, capacity) && e in t.heap
    requires entry.id == t.heap[e].id && entry.touched == t.heap[e].touched && entry.phase != Ready
    ensures TableOk(t.(heap := t.heap[e := entry])) && LruOk(t.(heap := t.heap[e := entry]), capacity)
  {
    hide Increasing, NoDup, Without;
    var heap := t.heap[e := entry];
    var ready := ReadyList(t.order, t.heap);
    ReadyWithout(t.order, t.heap, e);
    ReadyWithout(t.order, heap, e);
    ReadyFrame(Without(t.order, e), t.heap, heap);
    WithoutParts(ReadyList(t.order, heap), e);
    WithoutParts(ready, e);
    IncreasingWithout(ready, e, t.heap);
    IncreasingFrame(Without(ready, e), t.heap, heap);
  }

  lemma TakeTurnKeeps(s: State, act: nat, e: nat)
    requires Inv(s) && e in s.t.heap && act in s.acts && !s.acts[act].InCommit? && s.acts[act] != Done
    requires s.acts[act].entry == e && !s.t.heap[e].result.Pending?
    ensures Inv(TakeTurn(s, act, e))
  {
    CurrentIff(s.t, e);
    var entry := s.t.heap[e];
    if entry.result == LoadFailed || e !in s.t.order {
      DoneKeeps(s, act);
    } else {
      if entry.phase == Ready {
        TakenKeeps(s, act, e);
      } else {
        WaiterOf(s, e);
        WaitKeeps(s, act, e);
      }
    }
    hide Inv, Current;
  }

  /** A held entry in the map has its waiter. */
  lemma WaiterOf(s: State, e: nat)
    requires Inv(s) && e in s.t.order && !s.t.heap[e].result.Pending? && s.t.heap[e].phase != Ready
    ensures s.t.heap[e].waiter.Some? && s.t.heap[e].waiter.value < s.nextWaiter
  {
    hide TableOk, LruOk, ActOk;
    assert EntryOk(s.t.heap[e]) && Owned(s, e);
  }

  lemma WaitKeeps(s: State, act: nat, e: nat)
    requires Inv(s) && e in s.t.order && e in s.t.heap && s.t.heap[e].result.Loaded?
    requires act in s.acts && !s.acts[act].InCommit?
    requires s.t.heap[e].waiter.Some? && s.t.heap[e].waiter.value < s.nextWaiter
    ensures Inv(s.(acts := s.acts[act := AwaitingTurn(e, s.t.heap[e].waiter.value)]))
  {
    hide TableOk, LruOk, EntryOk;
    var s' := s.(acts := s.acts[act := AwaitingTurn(e, s.t.heap[e].waiter.value)]);
    forall a | a in s'.acts ensures ActOk(s', a) {
      if a != act { assert ActOk(s, a); }
    }
    forall x | x in s'.t.order ensures Owned(s', x) { assert Owned(s, x); }
  }

  /** The state in which a call has taken a ready entry to commit. */
  function TakenBy(s: State, act: nat, e: nat): State
    requires e in s.t.heap
  {
    s.(t := s.t.(heap := s.t.heap[e := s.t.heap[e].(phase := Committing, waiter := Some(s.nextWaiter), owner := act)]),
       nextWaiter := s.nextWaiter + 1, acts := s.acts[act := InCommit(e)])
  }

  lemma TakenKeeps(s: State, act: nat, e: nat)
    requires Inv(s) && e in s.t.order && e in s.t.heap && s.t.heap[e].phase == Ready && s.t.heap[e].result.Loaded?
    requires act in s.acts && !s.acts[act].InCommit?
    ensures Inv(TakenBy(s, act, e))
  {
    var s' := TakenBy(s, act, e);
    TakeTable(s.t, e, s'.t.heap[e], s.capacity);
    assert EntryOk(s.t.heap[e]);
    TakenCalls(s, act, e);
    hide TableOk, LruOk, CallsInv;
  }

  lemma TakenCalls(s: State, act: nat, e: nat)
    requires CallsInv(s) && e in s.t.order && e in s.t.heap && s.t.heap[e].phase == Ready && s.t.heap[e].result.Loaded?
    requires s.t.heap[e].waiter.None? && s.t.heap[e].reservation.None? && act in s.acts && !s.acts[act].InCommit?
    ensures CallsInv(TakenBy(s, act, e))
  {
    var s' := TakenBy(s, act, e);
    forall a | a in s'.acts ensures ActOk(s', a) {
      if a != act { assert ActOk(s, a); }
    }
    forall x | x in s'.t.order ensures Owned(s', x) { assert Owned(s, x); }
  }

  /** Removing an entry from a pool that is sound except perhaps at that entry. */
  lemma RemoveKeeps(s: State, e: nat)
    requires TableOk(s.t) && LruOk(s.t, s.capacity) && e in s.t.heap
    requires forall x | x in s.t.order && x != e :: EntryOk(s.t.heap[x]) && Owned(s, x)
    requires !s.lostWaiter && forall a | a in s.acts :: ActOk(s, a)
    requires forall r | r in s.holders :: r < s.nextReservation && s.holders[r] in s.t.heap
    ensures Inv(Remove(s, e))
  {
    hide LruOk, Remove, EntryOk;
    RemoveTable(s, e);
    var s' := Remove(s, e);
    CallsFrame(s, s', e);
  }

  /** Making an entry ready in a pool that is sound except perhaps at that entry. */
  lemma MakeReadyKeeps(s: State, e: nat)
    requires TableOk(s.t) && LruOk(s.t, s.capacity) && e in s.t.heap
    requires forall x | x in s.t.order && x != e :: EntryOk(s.t.heap[x]) && Owned(s, x)
    requires !s.lostWaiter && forall a | a in s.acts :: ActOk(s, a)
    requires forall r | r in s.holders :: r < s.nextReservation && s.holders[r] in s.t.heap
    requires s.t.heap[e].phase != Ready || e !in s.t.order
    requires e in s.t.order ==>
          !s.t.heap[e].result.Pending? && s.t.heap[e].source.Some? && s.t.heap[e].reservation.None?
    requires e in s.t.order ==> forall a | a in s.acts :: s.acts[a] != InCommit(e)
    requires e !in s.t.order ==> Inv(s)
    ensures Inv(MakeReady(s, e))
  {
    hide LruOk, MakeReady, EntryOk;
    MakeReadyTable(s, e);
    if e in s.t.order { CallsFrame(s, MakeReady(s, e), e); }
  }

  lemma LoadSettlesKeeps(s: State, e: nat, source: Option<nat>)
    requires Inv(s) && Enabled(s, LoadSettles(e, source))
    ensures Inv(Step(s, LoadSettles(e, source)))
  {
    hide LruOk, MakeReady, Remove, Current, Get;
    CurrentIff(s.t, e);
    var entry := s.t.heap[e];
    var entry' := if source.None? then entry.(result := LoadFailed)
                  else entry.(result := Loaded(source.value),
                      source := if Current(s.t, e) then source else entry.source);
    var t := s.(t := s.t.(heap := s.t.heap[e := entry']));
    UpdateTable(s.t, e, entry', s.capacity);
    forall a | a in t.acts ensures ActOk(t, a) && t.acts[a] != InCommit(e) { assert ActOk(s, a); }
    forall x | x in t.t.order && x != e ensures Owned(t, x) { assert Owned(s, x); }
    if e !in s.t.order { assert Inv(t); }
    if source.None? { RemoveKeeps(t, e); } else { MakeReadyKeeps(t, e); }
  }

  lemma InspectResumesKeeps(s: State, act: nat)
    requires Inv(s) && Enabled(s, InspectResumes(act))
    ensures Inv(Step(s, InspectResumes(act)))
  {
    hide LruOk, Touch, Current, Get;
    var e := s.acts[act].entry;
    CurrentIff(s.t, e);
    var t := s.(acts := s.acts[act := Done]);
    DoneKeeps(s, act);
    if s.t.heap[e].result.Loaded? && e in s.t.order && s.t.heap[e].phase == Ready {
      TouchTable(t.t, e, t.capacity);
      TouchTouches(t.t, e, t.capacity);
      assert EntryOk(s.t.heap[e]);
      forall a | a in t.acts ensures t.acts[a] != InCommit(e) { assert ActOk(t, a); }
      var t' := t.(t := Touch(t.t, e, t.capacity));
      assert t'.t.heap[e] == t.t.heap[e].(touched := t.t.clock + 1);
      CallsFrame(t, t', e);
    }
  }

  /** A call that is not in commit on an entry in the map may end. */
  lemma DoneKeeps(s: State, act: nat)
    requires Inv(s) && act in s.acts && (s.acts[act].InCommit? ==> s.acts[act].entry !in s.t.order)
    ensures Inv(s.(acts := s.acts[act := Done]))
  {
  }

  lemma FinishCommitKeeps(s: State, act: nat, outcome: CommitOutcome)
    requires Inv(s) && Enabled(s, CommitSettles(act, outcome))
    ensures Inv(Step(s, CommitSettles(act, outcome)))
  {
    hide LruOk, MakeReady, Remove, Current, Get, ActOk, Owned;
    CommitActs(s, act, outcome);
    var e := s.acts[act].entry;
    var t := s.(acts := s.acts[act := Done]);
    if outcome.CommitRejects? || outcome.CommitUndefined? {
      RemoveKeeps(t, e);
    } else {
      CommitLands(s, t, e, outcome);
    }
  }

  /** What is left of the calls once a commit's has returned. */
  lemma CommitActs(s: State, act: nat, outcome: CommitOutcome)
    requires Inv(s) && Enabled(s, CommitSettles(act, outcome))
    ensures act in s.acts && s.acts[act].InCommit? && s.acts[act].entry in s.t.heap
    ensures var e, t := s.acts[act].entry, s.(acts := s.acts[act := Done]);
            && s.t.heap[e].result.Loaded? && (e in s.t.order ==> s.t.heap[e].phase == Committing)
            && (forall a | a in t.acts :: ActOk(t, a) && t.acts[a] != InCommit(e))
            && (forall x | x in t.t.order && x != e :: Owned(t, x))
  {
  }

  lemma CommitLands(s: State, t: State, e: nat, outcome: CommitOutcome)
    requires Inv(s) && e in s.t.heap && outcome.Committed? && t == s.(acts := t.acts)
    requires s.t.heap[e].result.Loaded? && (e in s.t.order ==> s.t.heap[e].phase == Committing)
    requires forall a | a in t.acts :: ActOk(t, a) && t.acts[a] != InCommit(e)
    requires forall x | x in t.t.order && x != e :: Owned(t, x)
    ensures var u := t.(t := t.t.(heap := t.t.heap[e := t.t.heap[e].(source := Some(outcome.source))]));
            Inv(if outcome.aborted then MakeReady(u, e)
                else if !Current(u.t, e) then u
                else HandedOut(u, e))
  {
    hide LruOk, MakeReady, Remove, Current, Get;
    CurrentIff(s.t, e);
    var entry := s.t.heap[e].(source := Some(outcome.source));
    var u := t.(t := t.t.(heap := t.t.heap[e := entry]));
    UpdateTable(s.t, e, entry, s.capacity);
    forall a | a in u.acts ensures ActOk(u, a) { assert ActOk(t, a); }
    forall x | x in u.t.order && x != e ensures Owned(u, x) { assert Owned(t, x); }
    if e !in s.t.order {
      assert Inv(u);
      if outcome.aborted { MakeReadyKeeps(u, e); }
      CurrentIff(u.t, e);
    } else {
      assert EntryOk(s.t.heap[e]) && Owned(s, e);
      if outcome.aborted {
        MakeReadyKeeps(u, e);
      } else {
        CurrentIff(u.t, e);
        ReserveKeeps(u, e);
      }
    }
  }

  /** A committed entry becomes reserved under a fresh reservation. */
  lemma ReserveKeeps(u: State, e: nat)
    requires TableOk(u.t) && LruOk(u.t, u.capacity) && e in u.t.order
    requires forall x | x in u.t.order && x != e :: EntryOk(u.t.heap[x]) && Owned(u, x)
    requires EntryOk(u.t.heap[e]) && u.t.heap[e].phase == Committing && u.t.heap[e].waiter.value < u.nextWaiter
    requires !u.lostWaiter && forall a | a in u.acts :: ActOk(u, a) && u.acts[a] != InCommit(e)
    requires forall r | r in u.holders :: r < u.nextReservation && u.holders[r] in u.t.heap
    ensures Inv(HandedOut(u, e))
  {
    hide LruOk;
    var entry := u.t.heap[e].(phase := Reserved, reservation := Some(u.nextReservation));
    var v := u.(t := u.t.(heap := u.t.heap[e := entry]), holders := u.holders[u.nextReservation := e],
        nextReservation := u.nextReservation + 1);
    UpdateTable(u.t, e, entry, u.capacity);
    forall a | a in v.acts ensures ActOk(v, a) { assert ActOk(u, a); }
    forall x | x in v.t.order ensures Owned(v, x) { assert x == e || Owned(u, x); }
  }

  lemma ReleaseKeeps(s: State, r: nat, reusable: bool)
    requires Inv(s)
    ensures Inv(Step(s, Release(r, reusable)))
  {
    hide LruOk, MakeReady, Remove, Current, Get;
    if !Stale(s, r) && s.t.heap[s.holders[r]].phase == Reserved {
      var e := s.holders[r];
      CurrentIff(s.t, e);
      if !reusable { RemoveKeeps(s, e); }
      else {
        assert EntryOk(s.t.heap[e]);
        var entry := s.t.heap[e].(reservation := None);
        var t := s.(t := s.t.(heap := s.t.heap[e := entry]));
        UpdateTable(s.t, e, entry, s.capacity);
        forall a | a in t.acts ensures ActOk(t, a) && t.acts[a] != InCommit(e) { assert ActOk(s, a); }
        forall x | x in t.t.order && x != e ensures Owned(t, x) { assert Owned(s, x); }
        MakeReadyKeeps(t, e);
      }
    }
  }

  /** Every step of every interleaving keeps the pool's invariant. */
  lemma StepKeeps(s: State, a: Action)
    requires Inv(s) && Enabled(s, a)
    ensures Inv(Step(s, a))
  {
    hide LruOk, TableOk, Remove, MakeReady, Get, Current, EntryFor, TakeTurn, FinishCommit, EntryOk;
    match a {
      case BeginInspect(act, id, throws) =>
        EntryForKeeps(s, id, throws); BeginKeeps(EntryFor(s, id, throws).0, act, Inspecting(EntryFor(s, id, throws).1));
      case BeginReserve(act, id, throws) =>
        EntryForKeeps(s, id, throws); BeginKeeps(EntryFor(s, id, throws).0, act,
            AwaitingLoad(EntryFor(s, id, throws).1));
      case LoadSettles(e, source) => LoadSettlesKeeps(s, e, source);
      case InspectResumes(act) => InspectResumesKeeps(s, act);
      case ReserveResumes(act) => assert ActOk(s, act); TakeTurnKeeps(s, act, s.acts[act].entry);
      case Abandon(act) => DoneKeeps(s, act);
      case CommitSettles(act, outcome) => FinishCommitKeeps(s, act, outcome);
      case Attach(r) => if !Stale(s, r) { RemoveKeeps(s, s.holders[r]); }
      case Discard(r) => if !Stale(s, r) { RemoveKeeps(s, s.holders[r]); }
      case Release(r, reusable) => ReleaseKeeps(s, r, reusable);
      case Invalidate(id) =>
        if Get(s.t.order, s.t.heap, id).Some? { RemoveKeeps(s, Get(s.t.order, s.t.heap, id).value); }
      case DiscardReady(id, _) =>
        if Get(s.t.order, s.t.heap, id).Some? { RemoveKeeps(s, Get(s.t.order, s.t.heap, id).value); }
      case TakeReady(id) =>
        if Get(s.t.order, s.t.heap, id).Some? { RemoveKeeps(s, Get(s.t.order, s.t.heap, id).value); }
    }
  }

  lemma BeginKeeps(s: State, act: nat, activity: Activity)
    requires Inv(s) && act !in s.acts && (activity.Inspecting? || activity.AwaitingLoad?) && activity.entry in s.t.heap
    ensures Inv(s.(acts := s.acts[act := activity]))
  {
  }

  // ----- what the invariant means -----

  /** A reservation the pool accepts. */
  predicate Live(s: State, r: nat) {
    !Stale(s, r)
  }

  /**
   * One holder per id: over the entries in the map, two calls in commit, two live reservations,
   * or a call in commit and a live reservation never belong to the same id.
   */
  lemma Exclusive(s: State, id: nat)
    requires Inv(s)
    ensures forall a, b | a in s.acts && b in s.acts && HoldsCommit(s, a, id) && HoldsCommit(s, b, id) :: a == b
    ensures forall q, r | HoldsReservation(s, q, id) && HoldsReservation(s, r, id) :: q == r
    ensures forall a, r | a in s.acts && HoldsCommit(s, a, id) :: !HoldsReservation(s, r, id)
  {
  }

  ghost predicate HoldsCommit(s: State, a: nat, id: nat)
    requires a in s.acts
  {
    s.acts[a].InCommit? && s.acts[a].entry in s.t.order && s.acts[a].entry in s.t.heap
    && s.t.heap[s.acts[a].entry].id == id
  }

  ghost predicate HoldsReservation(s: State, r: nat, id: nat) {
    Live(s, r) && s.t.heap[s.holders[r]].id == id
  }

  /**
   * No waiter is forgotten: a call whose awaited entry is ready or gone can resume at once, and
   * one that must still wait waits on a live holder.
   */
  lemma WaitersServed(s: State, a: nat)
    requires Inv(s) && a in s.acts && s.acts[a].AwaitingTurn?
    ensures var e := s.acts[a].entry;
            && e in s.t.heap
            && (e !in s.t.order || s.t.heap[e].phase == Ready ==> s.acts[a].waiter in s.settled)
            && (s.acts[a].waiter !in s.settled ==>
                  || (s.t.heap[e].owner in s.acts && s.acts[s.t.heap[e].owner] == InCommit(e))
                  || (s.t.heap[e].reservation.Some? && Live(s, s.t.heap[e].reservation.value)))
  {
  }

  // ----- what each operation is for -----

  /** Entry `e` is out of the map with its waiter settled, and every other entry is as it was. */
  ghost predicate Removed(s: State, t: State, e: nat)
    requires e in s.t.heap
  {
    && (forall x :: x in t.t.order <==> x in s.t.order && x != e)
    && (forall x | x in s.t.heap && x != e :: x in t.t.heap && t.t.heap[x] == s.t.heap[x])
    && (e in s.t.order && s.t.heap[e].waiter.Some? ==> s.t.heap[e].waiter.value in t.settled)
  }

  /** Entry `e` is the newest ready one, subject to the capacity; entries that are not ready are as they were. */
  ghost predicate Newest(s: State, t: State, e: nat) {
    && ReadyList(t.t.order, t.t.heap) == LruTouch(ReadyList(s.t.order, s.t.heap), e, s.capacity)
    && (forall x | x in t.t.order :: x in s.t.order)
    && (forall x | x in s.t.order && x != e :: x in t.t.order || (x in s.t.heap && s.t.heap[x].phase == Ready))
    && (forall x | x in s.t.heap && x != e :: x in t.t.heap && t.t.heap[x] == s.t.heap[x])
  }

  /** Entry `e` was made ready with its waiter settled, if it was in the map; otherwise the map stands. */
  ghost predicate MadeReady(s: State, t: State, e: nat)
    requires e in s.t.heap
  {
    && e in t.t.heap
    && (if e in s.t.order then
          && Newest(s, t, e)
          && t.t.heap[e].phase == Ready && t.t.heap[e].waiter.None? && t.t.heap[e].reservation.None?
          && (s.t.heap[e].waiter.Some? ==> s.t.heap[e].waiter.value in t.settled)
        else
          && t.t.order == s.t.order
          && forall x | x in s.t.heap && x != e :: x in t.t.heap && t.t.heap[x] == s.t.heap[x])
  }

  /** The call's activity is `a`, and nobody else's has changed. */
  predicate ActsBecome(s: State, t: State, act: nat, a: Activity) {
    t.acts == s.acts[act := a]
  }

  lemma RemoveMeans(s: State, e: nat)
    requires TableOk(s.t) && e in s.t.heap
    ensures Removed(s, Remove(s, e), e)
    ensures Remove(s, e) == s.(t := Remove(s, e).t, settled := Remove(s, e).settled)
    ensures e in Remove(s, e).t.heap && Remove(s, e).t.heap[e] == s.t.heap[e].(waiter := Remove(s, e).t.heap[e].waiter)
  {
    CurrentIff(s.t, e);
    hide TableOk, Without, Current;
  }

  lemma MakeReadyMeans(s: State, e: nat)
    requires TableOk(s.t) && LruOk(s.t, s.capacity) && e in s.t.heap
    requires forall x | x in s.t.order && x != e :: EntryOk(s.t.heap[x])
    requires s.t.heap[e].phase != Ready || e !in s.t.order
    requires e in s.t.order ==>
          !s.t.heap[e].result.Pending? && s.t.heap[e].source.Some? && s.t.heap[e].reservation.None?
    ensures MadeReady(s, MakeReady(s, e), e)
    ensures MakeReady(s, e) == s.(t := MakeReady(s, e).t, settled := MakeReady(s, e).settled)
    ensures MakeReady(s, e).t.heap[e].source == s.t.heap[e].source
      && MakeReady(s, e).t.heap[e].result == s.t.heap[e].result
  {
    hide TableOk, LruOk, EntryOk, ReadyList, LruTouch, MakeReady;
    MakeReadyTable(s, e);
  }

  /** `v` differs from `s` in entry `e` alone, but not in whether it is ready, nor in its waiter. */
  ghost predicate Updates(s: State, v: State, e: nat) {
    && e in s.t.heap && e in v.t.heap && v.t == s.t.(heap := s.t.heap[e := v.t.heap[e]])
    && v.capacity == s.capacity && v.t.heap[e].waiter == s.t.heap[e].waiter
    && ReadyList(s.t.order, v.t.heap) == ReadyList(s.t.order, s.t.heap)
  }

  lemma UpdateTo(s: State, v: State, e: nat)
    requires e in s.t.heap && e in v.t.heap && v.t == s.t.(heap := s.t.heap[e := v.t.heap[e]])
      && v.capacity == s.capacity
    requires v.t.heap[e].waiter == s.t.heap[e].waiter
    requires e in s.t.order ==> v.t.heap[e].phase == s.t.heap[e].phase
    ensures Updates(s, v, e)
  {
    ReadyFrame(s.t.order, s.t.heap, v.t.heap);
    hide ReadyList;
  }

  lemma RemovedFrom(s: State, v: State, t: State, e: nat)
    requires Updates(s, v, e) && Removed(v, t, e)
    ensures Removed(s, t, e)
  {
    hide ReadyList;
  }

  lemma MadeReadyFrom(s: State, v: State, t: State, e: nat)
    requires Updates(s, v, e) && MadeReady(v, t, e)
    ensures MadeReady(s, t, e)
  {
    hide ReadyList, LruTouch;
  }

  /** What a settled load leaves: its entry ready with the loaded source, or out of the map. */
  ghost predicate LoadDone(s: State, t: State, e: nat, source: Option<nat>)
    requires e in s.t.heap
  {
    && t.acts == s.acts && t.holders == s.holders && e in t.t.heap
    && (if source.None? then Removed(s, t, e) && t.t.heap[e].result == LoadFailed
        else
          && MadeReady(s, t, e) && t.t.heap[e].result == Loaded(source.value)
          && (e in s.t.order ==> t.t.heap[e].source == source))
  }

  lemma LoadMeans(s: State, e: nat, source: Option<nat>)
    requires Inv(s) && Enabled(s, LoadSettles(e, source))
    ensures LoadDone(s, Step(s, LoadSettles(e, source)), e, source)
  {
    LoadStep(s, e, source);
    LoadingEntry(s, e);
    var v := LoadedAt(s, e, source);
    UpdateTo(s, v, e);
    LoadedTable(s, e, source);
    if source.None? {
      RemoveMeans(v, e);
      hide Inv, Updates, Removed, MadeReady, TableOk, LruOk, Remove, MakeReady, Current, Step, Enabled, EntryOk;
      RemovedFrom(s, v, Remove(v, e), e);
    } else {
      MakeReadyMeans(v, e);
      hide Inv, Updates, Removed, MadeReady, TableOk, LruOk, Remove, MakeReady, Current, Step, Enabled, EntryOk;
      MadeReadyFrom(s, v, MakeReady(v, e), e);
    }
  }

  /** The state in which an entry's load has settled, before the entry is made ready or removed. */
  function LoadedAt(s: State, e: nat, source: Option<nat>): State
    requires e in s.t.heap
  {
    var entry := s.t.heap[e];
    var loaded := if source.None? then entry.(result := LoadFailed)
                  else entry.(result := Loaded(source.value),
                      source := if e in s.t.order then source else entry.source);
    s.(t := s.t.(heap := s.t.heap[e := loaded]))
  }

  lemma LoadedTable(s: State, e: nat, source: Option<nat>)
    requires Inv(s) && e in s.t.heap
    ensures var v := LoadedAt(s, e, source); TableOk(v.t) && LruOk(v.t, v.capacity)
  {
    UpdateTable(s.t, e, LoadedAt(s, e, source).t.heap[e], s.capacity);
  }

  lemma LoadingEntry(s: State, e: nat)
    requires Inv(s) && e in s.t.heap && s.t.heap[e].result.Pending?
    ensures e in s.t.order ==> s.t.heap[e].phase == Loading && s.t.heap[e].reservation.None? && s.t.heap[e].waiter.None?
    ensures forall x | x in s.t.order && x != e :: EntryOk(s.t.heap[x])
  {
    hide LruOk, ActOk, Owned;
    if e in s.t.order { assert EntryOk(s.t.heap[e]); }
  }

  lemma LoadStep(s: State, e: nat, source: Option<nat>)
    requires Inv(s) && Enabled(s, LoadSettles(e, source))
    ensures e in s.t.heap && s.t.heap[e].result.Pending?
    ensures Step(s, LoadSettles(e, source)) ==
              if source.None? then Remove(LoadedAt(s, e, source), e) else MakeReady(LoadedAt(s, e, source), e)
  {
    CurrentIff(s.t, e);
    hide Inv, Remove, MakeReady, Current;
  }

  /**
   * What a settled commit leaves: a failed one takes its entry out of the map; a successful one
   * replaces the source, and then makes the entry ready again if the caller had given up, or hands
   * it out under a fresh reservation if it is still in the map.
   */
  ghost predicate CommitDone(s: State, t: State, act: nat, outcome: CommitOutcome)
    requires act in s.acts && s.acts[act].InCommit? && s.acts[act].entry in s.t.heap
  {
    var e := s.acts[act].entry;
    && ActsBecome(s, t, act, Done) && e in t.t.heap
    && (!outcome.Committed? ==> Removed(s, t, e) && t.holders == s.holders)
    && (outcome.Committed? ==> t.t.heap[e].source == Some(outcome.source))
    && (outcome.Committed? && outcome.aborted ==> MadeReady(s, t, e) && t.holders == s.holders)
    && (outcome.Committed? && !outcome.aborted ==>
          && t.t.order == s.t.order && t.settled == s.settled
          && (forall x | x in s.t.heap && x != e :: x in t.t.heap && t.t.heap[x] == s.t.heap[x])
          && (if e in s.t.order then
                && t.holders == s.holders[s.nextReservation := e]
                && t.t.heap[e].phase == Reserved && t.t.heap[e].reservation == Some(s.nextReservation)
              else t.holders == s.holders))
  }

  lemma CommitMeans(s: State, act: nat, outcome: CommitOutcome)
    requires Inv(s) && Enabled(s, CommitSettles(act, outcome))
    ensures act in s.acts && s.acts[act].InCommit? && s.acts[act].entry in s.t.heap
    ensures CommitDone(s, Step(s, CommitSettles(act, outcome)), act, outcome)
  {
    CommitStep(s, act, outcome);
    CommittingEntry(s, act);
    if !outcome.Committed? {
      FailedCommitMeans(s, act, outcome);
    } else if outcome.aborted {
      AbortedCommitMeans(s, act, outcome);
    } else {
      KeptCommitMeans(s, act, outcome);
    }
    hide Inv, CommitDone, Step, Enabled, FinishCommit;
  }

  lemma FailedCommitMeans(s: State, act: nat, outcome: CommitOutcome)
    requires Inv(s) && act in s.acts && s.acts[act].InCommit? && s.acts[act].entry in s.t.heap && !outcome.Committed?
    ensures CommitDone(s, FinishCommit(s, act, s.acts[act].entry, outcome), act, outcome)
  {
    var e := s.acts[act].entry;
    var done := s.(acts := s.acts[act := Done]);
    RemoveMeans(done, e);
    hide Inv, Remove, MakeReady, Current, Newest;
  }

  /** The state in which a commit's source has replaced its entry's. */
  function Sourced(s: State, act: nat, e: nat, source: nat): State
    requires e in s.t.heap
  {
    s.(acts := s.acts[act := Done], t := s.t.(heap := s.t.heap[e := s.t.heap[e].(source := Some(source))]))
  }

  lemma SourcedTable(s: State, act: nat, e: nat, source: nat)
    requires Inv(s) && e in s.t.heap
    ensures var u := Sourced(s, act, e, source); TableOk(u.t) && LruOk(u.t, u.capacity) && Updates(s, u, e)
  {
    var u := Sourced(s, act, e, source);
    UpdateTable(s.t, e, u.t.heap[e], s.capacity);
    UpdateTo(s, u, e);
  }

  lemma AbortedCommitMeans(s: State, act: nat, outcome: CommitOutcome)
    requires Inv(s) && act in s.acts && s.acts[act].InCommit? && s.acts[act].entry in s.t.heap
    requires outcome.Committed? && outcome.aborted
    ensures CommitDone(s, FinishCommit(s, act, s.acts[act].entry, outcome), act, outcome)
  {
    CommittingEntry(s, act);
    var e := s.acts[act].entry;
    var u := Sourced(s, act, e, outcome.source);
    SourcedTable(s, act, e, outcome.source);
    MakeReadyMeans(u, e);
    hide Inv, TableOk, LruOk, EntryOk, Updates, MadeReady, Removed, Remove, MakeReady, Current;
    MadeReadyFrom(s, u, MakeReady(u, e), e);
  }

  lemma KeptCommitMeans(s: State, act: nat, outcome: CommitOutcome)
    requires Inv(s) && act in s.acts && s.acts[act].InCommit? && s.acts[act].entry in s.t.heap
    requires outcome.Committed? && !outcome.aborted
    ensures CommitDone(s, FinishCommit(s, act, s.acts[act].entry, outcome), act, outcome)
  {
    var e := s.acts[act].entry;
    SourcedTable(s, act, e, outcome.source);
    CurrentIff(Sourced(s, act, e, outcome.source).t, e);
    hide Inv, TableOk, LruOk, EntryOk, Updates, MadeReady, Removed, Remove, MakeReady, Current;
  }

  lemma CommittingEntry(s: State, act: nat)
    requires Inv(s) && act in s.acts && s.acts[act].InCommit? && s.acts[act].entry in s.t.heap
    ensures TableOk(s.t) && LruOk(s.t, s.capacity)
    ensures var e := s.acts[act].entry;
            && (e in s.t.order ==> s.t.heap[e].phase == Committing && s.t.heap[e].reservation.None?)
            && !s.t.heap[e].result.Pending?
            && forall x | x in s.t.order && x != e :: EntryOk(s.t.heap[x])
  {
    hide TableOk, LruOk, Owned;
    assert ActOk(s, act);
    var e := s.acts[act].entry;
    if e in s.t.order { assert EntryOk(s.t.heap[e]); }
  }

  /** What a released reservation leaves. */
  lemma ReleaseMeans(s: State, r: nat, reusable: bool)
    requires Inv(s) && Live(s, r)
    ensures var t, e := Step(s, Release(r, reusable)), s.holders[r];
            t.acts == s.acts && (if reusable then MadeReady(s, t, e) else Removed(s, t, e))
  {
    HeldIsReserved(s, r);
    Consumes(s, r, reusable);
    var e := s.holders[r];
    ReservedEntry(s, e);
    RemoveMeans(s, e);
    var entry := s.t.heap[e].(reservation := None);
    var u := s.(t := s.t.(heap := s.t.heap[e := entry]));
    UpdateTable(s.t, e, entry, s.capacity);
    UpdateTo(s, u, e);
    MakeReadyMeans(u, e);
    hide Inv, TableOk, LruOk, EntryOk, Updates, MadeReady, Removed, Remove, MakeReady, Live, Step;
    MadeReadyFrom(s, u, MakeReady(u, e), e);
  }

  lemma ReservedEntry(s: State, e: nat)
    requires Inv(s) && e in s.t.heap && s.t.heap[e].phase == Reserved
    ensures TableOk(s.t) && LruOk(s.t, s.capacity)
    ensures e in s.t.order ==> !s.t.heap[e].result.Pending? && s.t.heap[e].source.Some?
    ensures forall x | x in s.t.order && x != e :: EntryOk(s.t.heap[x])
  {
    hide TableOk, LruOk, ActOk, Owned;
    if e in s.t.order { assert EntryOk(s.t.heap[e]); }
  }

  /** What an inspection leaves: its entry touched, if it is ready in the map. */
  lemma InspectMeans(s: State, act: nat)
    requires Inv(s) && Enabled(s, InspectResumes(act))
    ensures act in s.acts && s.acts[act].Inspecting? && s.acts[act].entry in s.t.heap
    ensures var t, e := Step(s, InspectResumes(act)), s.acts[act].entry;
            && ActsBecome(s, t, act, Done) && t.settled == s.settled && t.holders == s.holders
            && (if e in s.t.order && s.t.heap[e].phase == Ready && s.t.heap[e].result.Loaded?
                then Newest(s, t, e) && t.t.heap[e].touched > s.t.clock else t.t == s.t)
  {
    var e := s.acts[act].entry;
    CurrentIff(s.t, e);
    var done := s.(acts := s.acts[act := Done]);
    hide Inv, TableOk, LruOk, Touch, Current, EntryOk, Newest;
    if e in s.t.order && s.t.heap[e].phase == Ready { NewestTouched(s, done.(t := Touch(s.t, e, s.capacity)), e); }
  }

  lemma NewestTouched(s: State, t: State, e: nat)
    requires TableInv(s.t, s.capacity) && e in s.t.order && s.t.heap[e].phase == Ready
      && t.t == Touch(s.t, e, s.capacity)
    ensures Newest(s, t, e) && e in t.t.heap && t.t.heap[e].touched > s.t.clock
  {
    TouchLru(s.t, e, s.capacity);
    TouchTouches(s.t, e, s.capacity);
    hide TableInv, ReadyList, LruTouch, Touch;
  }

  /** What an attached or discarded live reservation leaves. */
  lemma ConsumedMeans(s: State, r: nat)
    requires Inv(s)
    ensures !Stale(s, r) ==> Removed(s, Remove(s, s.holders[r]), s.holders[r])
  {
    if !Stale(s, r) { RemoveMeans(s, s.holders[r]); }
  }

  /** Removing the entry of an id leaves none of that id, and the others as they were. */
  lemma InvalidateMeans(s: State, id: nat)
    requires Inv(s)
    ensures forall x | x in s.t.order :: x in s.t.heap
    ensures forall e | e in s.t.order && s.t.heap[e].id == id ::
              var t := Remove(s, e).t;
              && (forall x | x in t.order :: x in t.heap && t.heap[x].id != id)
              && (forall x | x in s.t.order && s.t.heap[x].id != id ::
                    x in t.order && x in t.heap && t.heap[x] == s.t.heap[x])
  {
    InvBounds(s);
    forall e | e in s.t.order && s.t.heap[e].id == id
      ensures var t := Remove(s, e).t;
              && (forall x | x in t.order :: x in t.heap && t.heap[x].id != id)
              && (forall x | x in s.t.order && s.t.heap[x].id != id ::
                    x in t.order && x in t.heap && t.heap[x] == s.t.heap[x]) {
      RemoveMeans(s, e);
      OneOfId(s, e);
      hide Remove, Inv;
    }
  }

  lemma OneOfId(s: State, e: nat)
    requires Inv(s) && e in s.t.order && e in s.t.heap
    ensures forall x | x in s.t.order && x != e :: x in s.t.heap && s.t.heap[x].id != s.t.heap[e].id
  {
    hide LruOk, CallsInv, EntryOk;
  }

  lemma NextFresh(s: State)
    requires Inv(s)
    ensures s.t.next !in s.t.heap
  {
    hide CallsInv, TableOk, ReadyList, Increasing;
  }

  lemma FreshReservation(s: State)
    requires Inv(s)
    ensures s.nextReservation !in s.holders
  {
    hide TableInv, ActOk, Owned;
  }

  /** Replacing a source does not change whether an entry is the map's. */
  lemma CurrentSourced(s: State, act: nat, outcome: CommitOutcome)
    requires Inv(s) && act in s.acts && s.acts[act].InCommit? && s.acts[act].entry in s.t.heap
    ensures outcome.Committed? ==>
              (s.acts[act].entry in s.t.order <==>
                 Current(Sourced(s, act, s.acts[act].entry, outcome.source).t, s.acts[act].entry))
  {
    if outcome.Committed? {
      SourcedTable(s, act, s.acts[act].entry, outcome.source);
      CurrentIff(Sourced(s, act, s.acts[act].entry, outcome.source).t, s.acts[act].entry);
    }
    hide Inv, Updates, LruOk;
  }

  // ----- what never comes back -----

  /**
   * How the pool moves on: no known entry re-enters the map, no known entry is given an old
   * reservation, and reservations keep their holders.
   */
  ghost predicate Forward(s: State, s': State) {
    && (forall x | x in s'.t.order :: x in s.t.order || x !in s.t.heap)
    && (forall x | x in s.t.heap :: x in s'.t.heap && OldReservation(s, s.t.heap[x], s'.t.heap[x]))
    && (forall r | r in s.holders :: r in s'.holders && s'.holders[r] == s.holders[r])
    && s.nextReservation <= s'.nextReservation
  }

  predicate OldReservation(s: State, before: Entry, after: Entry) {
    after.reservation == before.reservation || after.reservation.None? || s.nextReservation <= after.reservation.value
  }

  lemma ForwardTrans(s: State, t: State, u: State)
    requires Forward(s, t) && Forward(t, u)
    ensures Forward(s, u)
  {
    forall x | x in s.t.heap ensures x in u.t.heap && OldReservation(s, s.t.heap[x], u.t.heap[x]) {
      assert OldReservation(s, s.t.heap[x], t.t.heap[x]) && OldReservation(t, t.t.heap[x], u.t.heap[x]);
    }
  }

  lemma RemoveForward(s: State, e: nat)
    requires e in s.t.heap
    ensures Forward(s, Remove(s, e))
  {
  }

  lemma MakeReadyForward(s: State, e: nat)
    requires e in s.t.heap
    ensures Forward(s, MakeReady(s, e))
  {
    hide ReadyList;
  }

  lemma TouchForward(s: State, e: nat)
    requires e in s.t.heap && Current(s.t, e)
    ensures Forward(s, s.(t := Touch(s.t, e, s.capacity)))
  {
    hide ReadyList;
  }

  /** Rewriting one entry without giving it an old reservation. */
  lemma UpdateForward(s: State, s': State, x: nat)
    requires x in s.t.heap && x in s'.t.heap
    requires s'.t == s.t.(heap := s.t.heap[x := s'.t.heap[x]]) && OldReservation(s, s.t.heap[x], s'.t.heap[x])
    requires (forall r | r in s.holders :: r in s'.holders && s'.holders[r] == s.holders[r])
      && s.nextReservation <= s'.nextReservation
    ensures Forward(s, s')
  {
  }

  lemma EntryForForward(s: State, id: nat, throws: bool)
    requires Inv(s)
    ensures Forward(s, EntryFor(s, id, throws).0)
  {
  }

  lemma CommitForward(s: State, act: nat, outcome: CommitOutcome)
    requires Inv(s) && Enabled(s, CommitSettles(act, outcome))
    ensures Forward(s, Step(s, CommitSettles(act, outcome)))
  {
    hide TableOk, LruOk, EntryOk, Get, Current, Remove, MakeReady;
    var x := s.acts[act].entry;
    var t := s.(acts := s.acts[act := Done]);
    match outcome {
      case CommitRejects => RemoveForward(t, x);
      case CommitUndefined => RemoveForward(t, x);
      case Committed(source, aborted) =>
        var u := t.(t := t.t.(heap := t.t.heap[x := t.t.heap[x].(source := Some(source))]));
        UpdateForward(s, u, x);
        if aborted {
          MakeReadyForward(u, x);
          ForwardTrans(s, u, MakeReady(u, x));
        } else if Current(u.t, x) {
          HoldersGrow(s, x);
          UpdateForward(s, Step(s, CommitSettles(act, outcome)), x);
        }
    }
  }

  lemma HoldersGrow(s: State, x: nat)
    requires Inv(s)
    ensures s.nextReservation !in s.holders
  {
    hide TableInv, ActOk, Owned;
  }

  /** Every step moves the pool forward. */
  lemma StepForward(s: State, a: Action)
    requires Inv(s) && Enabled(s, a)
    ensures Forward(s, Step(s, a))
  {
    hide TableOk, LruOk, EntryOk, Get, Current, Touch, Remove, MakeReady, EntryFor, Forward, Inv;
    SameForward(s);
    match a {
      case BeginInspect(act, id, throws) =>
        EntryForForward(s, id, throws);
        ActsForward(s, EntryFor(s, id, throws).0, Step(s, a));
      case BeginReserve(act, id, throws) =>
        EntryForForward(s, id, throws);
        ActsForward(s, EntryFor(s, id, throws).0, Step(s, a));
      case LoadSettles(x, source) =>
        var entry := s.t.heap[x];
        var entry' := if source.None? then entry.(result := LoadFailed)
                      else entry.(result := Loaded(source.value),
                          source := if Current(s.t, x) then source else entry.source);
        var t := s.(t := s.t.(heap := s.t.heap[x := entry']));
        UpdateForward(s, t, x);
        RemoveForward(t, x);
        MakeReadyForward(t, x);
        ForwardTrans(s, t, Step(s, a));
      case InspectResumes(act) =>
        var t := s.(acts := s.acts[act := Done]);
        if Step(s, a) != t { TouchForward(t, s.acts[act].entry); }
        ActsForward(s, s, t);
        SameForward(t);
        ForwardTrans(s, t, Step(s, a));
      case ReserveResumes(act) =>
        TurnForward(s, act, s.acts[act].entry);
      case Abandon(_) => ActsForward(s, s, Step(s, a));
      case CommitSettles(act, outcome) => CommitForward(s, act, outcome);
      case Release(q, reusable) =>
        if !Stale(s, q) && s.t.heap[s.holders[q]].phase == Reserved {
          var x := s.holders[q];
          RemoveForward(s, x);
          if reusable {
            var t := s.(t := s.t.(heap := s.t.heap[x := s.t.heap[x].(reservation := None)]));
            UpdateForward(s, t, x);
            MakeReadyForward(t, x);
            ForwardTrans(s, t, Step(s, a));
          }
        }
      case Attach(q) => if !Stale(s, q) { RemoveForward(s, s.holders[q]); }
      case Discard(q) => if !Stale(s, q) { RemoveForward(s, s.holders[q]); }
      case Invalidate(id) =>
        if Get(s.t.order, s.t.heap, id).Some? { RemoveForward(s, Get(s.t.order, s.t.heap, id).value); }
      case DiscardReady(id, _) =>
        if Get(s.t.order, s.t.heap, id).Some? { RemoveForward(s, Get(s.t.order, s.t.heap, id).value); }
      case TakeReady(id) =>
        if Get(s.t.order, s.t.heap, id).Some? { RemoveForward(s, Get(s.t.order, s.t.heap, id).value); }
    }
  }

  lemma SameForward(s: State)
    ensures Forward(s, s)
  {
  }

  lemma ActsForward(s: State, t: State, u: State)
    requires Forward(s, t) && u == t.(acts := u.acts)
    ensures Forward(s, u)
  {
  }

  lemma TurnForward(s: State, act: nat, e: nat)
    requires e in s.t.heap
    ensures Forward(s, TakeTurn(s, act, e))
  {
  }

  /** An entry that left the map. */
  predicate Out(s: State, e: nat) {
    e in s.t.heap && e !in s.t.order
  }

  /** A reservation that was handed out and is no longer accepted. */
  predicate Revoked(s: State, r: nat) {
    r in s.holders && Stale(s, r)
  }

  /** Over any step an entry out of the map stays out. */
  lemma EntryStaysOut(s: State, a: Action, e: nat)
    requires Inv(s) && Enabled(s, a) && Out(s, e)
    ensures Out(Step(s, a), e)
  {
    hide Inv, Enabled, Step;
    StepForward(s, a);
  }

  /** Over any step a revoked reservation stays revoked. */
  lemma ReservationStaysRevoked(s: State, a: Action, r: nat)
    requires Inv(s) && Enabled(s, a) && Revoked(s, r)
    ensures Revoked(Step(s, a), r)
  {
    hide Enabled, Step, LruOk, EntryOk, ActOk, Owned, Get, Current, Forward;
    StepForward(s, a);
    StepKeeps(s, a);
    CurrentIff(s.t, s.holders[r]);
    ForwardAt(s, Step(s, a), s.holders[r], r);
    CurrentIff(Step(s, a).t, s.holders[r]);
  }

  lemma ForwardAt(s: State, s': State, e: nat, r: nat)
    requires Forward(s, s') && e in s.t.heap && r in s.holders
    ensures r in s'.holders && s'.holders[r] == s.holders[r]
    ensures e in s'.t.heap && (e in s'.t.order ==> e in s.t.order) && OldReservation(s, s.t.heap[e], s'.t.heap[e])
  {
  }

  /** Attaching, discarding or releasing a live reservation revokes it. */
  lemma ConsumedIsRevoked(s: State, r: nat, reusable: bool)
    requires Inv(s) && Live(s, r)
    ensures Revoked(Step(s, Attach(r)), r) && Revoked(Step(s, Discard(r)), r)
      && Revoked(Step(s, Release(r, reusable)), r)
  {
    RemovedIsRevoked(s, r);
    ReleasedIsRevoked(s, r);
    HeldIsReserved(s, r);
    Consumes(s, r, reusable);
    hide Inv, Live, Remove, MakeReady, Revoked, Step;
  }

  lemma Consumes(s: State, r: nat, reusable: bool)
    requires Live(s, r) && s.t.heap[s.holders[r]].phase == Reserved
    ensures Step(s, Attach(r)) == Remove(s, s.holders[r]) && Step(s, Discard(r)) == Remove(s, s.holders[r])
    ensures var e := s.holders[r];
            var freed := s.(t := s.t.(heap := s.t.heap[e := s.t.heap[e].(reservation := None)]));
            Step(s, Release(r, reusable)) == if reusable then MakeReady(freed, e) else Remove(s, e)
  {
    hide Current, Remove, MakeReady;
  }

  lemma HeldIsReserved(s: State, r: nat)
    requires Inv(s) && Live(s, r)
    ensures s.t.heap[s.holders[r]].phase == Reserved && r < s.nextReservation
  {
    CurrentIff(s.t, s.holders[r]);
    hide TableOk, LruOk, ActOk, Owned, Current;
    assert EntryOk(s.t.heap[s.holders[r]]);
  }

  lemma ReleasedIsRevoked(s: State, r: nat)
    requires Inv(s) && Live(s, r)
    ensures var e := s.holders[r];
            Revoked(MakeReady(s.(t := s.t.(heap := s.t.heap[e := s.t.heap[e].(reservation := None)])), e), r)
  {
    HeldIsReserved(s, r);
    hide Inv, Current, MakeReady;
    var e := s.holders[r];
    MakeReadyForward(s.(t := s.t.(heap := s.t.heap[e := s.t.heap[e].(reservation := None)])), e);
  }

  lemma RemovedIsRevoked(s: State, r: nat)
    requires Inv(s) && r in s.holders
    ensures Revoked(Remove(s, s.holders[r]), r)
  {
    hide LruOk, ActOk, Owned, Touches;
    RemoveTable(s, s.holders[r]);
    CurrentIff(Remove(s, s.holders[r]).t, s.holders[r]);
  }

  lemma CommitStep(s: State, act: nat, outcome: CommitOutcome)
    requires Enabled(s, CommitSettles(act, outcome))
    ensures act in s.acts && s.acts[act].InCommit? && s.acts[act].entry in s.t.heap
    ensures Step(s, CommitSettles(act, outcome)) == FinishCommit(s, act, s.acts[act].entry, outcome)
  {
    hide FinishCommit;
  }

  lemma InvBounds(s: State)
    requires Inv(s)
    ensures forall x | x in s.t.order :: x in s.t.heap
  {
  }

  // ----- whole runs -----

  function Initial(capacity: nat): State {
    State(Table([], map[], 0, 0), capacity, {}, 0, 0, map[], map[], false)
  }

  ghost predicate Runs(s: State, actions: seq<Action>)
    decreases |actions|
  {
    actions == [] || (Enabled(s, actions[0]) && Runs(Step(s, actions[0]), actions[1..]))
  }

  function Run(s: State, actions: seq<Action>): State
    requires Runs(s, actions)
    decreases |actions|
  {
    if actions == [] then s else Run(Step(s, actions[0]), actions[1..])
  }

  /** Every run keeps the invariant; in particular no call ever finds its waiter missing. */
  lemma {:induction false} RunKeeps(s: State, actions: seq<Action>)
    requires Inv(s) && Runs(s, actions)
    ensures Inv(Run(s, actions)) && !Run(s, actions).lostWaiter
    decreases |actions|
  {
    if actions != [] {
      StepKeeps(s, actions[0]);
      RunKeeps(Step(s, actions[0]), actions[1..]);
    }
  }

  lemma EveryRun(capacity: nat, actions: seq<Action>)
    requires Runs(Initial(capacity), actions)
    ensures Inv(Run(Initial(capacity), actions)) && !Run(Initial(capacity), actions).lostWaiter
  {
    RunKeeps(Initial(capacity), actions);
  }

  /** An entry out of the map at one moment of a run is out at every later one. */
  lemma {:induction false} OutForever(s: State, actions: seq<Action>, e: nat)
    requires Inv(s) && Runs(s, actions) && Out(s, e)
    ensures Out(Run(s, actions), e)
    decreases |actions|
  {
    if actions != [] {
      StepKeeps(s, actions[0]);
      EntryStaysOut(s, actions[0], e);
      OutForever(Step(s, actions[0]), actions[1..], e);
    }
  }

  /** A reservation revoked at one moment of a run is revoked at every later one. */
  lemma {:induction false} RevokedForever(s: State, actions: seq<Action>, r: nat)
    requires Inv(s) && Runs(s, actions) && Revoked(s, r)
    ensures Revoked(Run(s, actions), r)
    decreases |actions|
  {
    if actions != [] {
      StepKeeps(s, actions[0]);
      ReservationStaysRevoked(s, actions[0], r);
      RevokedForever(Step(s, actions[0]), actions[1..], r);
    }
  }

  // ----- the pool -----

  lemma {:induction false} ReadyConcat(a: seq<nat>, b: seq<nat>, heap: map<nat, Entry>)
    ensures ReadyList(a + b, heap) == ReadyList(a, heap) + ReadyList(b, heap)
  {
    if a == [] {
      assert a + b == b;
    } else {
      assert (a + b)[1..] == a[1..] + b;
      ReadyConcat(a[1..], b, heap);
    }
  }

  datatype DiscardResult = Discarded | Retained | Missing

  /** The pool; each public method, and each resumption of an awaiting call, refines one `Step`. */
  class SessionPreparations {
    const capacity: nat
    var order: seq<nat>
    var heap: map<nat, Entry>
    var next: nat
    var clock: nat
    var settled: set<nat>
    var nextWaiter: nat
    var nextReservation: nat
    var holders: map<nat, nat>
    var acts: map<nat, Activity>
    var lostWaiter: bool

    function S(): State
      reads this
    {
      State(Table(order, heap, next, clock), capacity, settled, nextWaiter, nextReservation, holders, acts, lostWaiter)
    }

    constructor (capacity: nat)
      ensures S() == Initial(capacity) && Inv(S())
    {
      this.capacity := capacity;
      order, heap, next, clock, settled, nextWaiter, nextReservation := [], map[], 0, 0, {}, 0, 0;
      holders, acts, lostWaiter := map[], map[], false;
    }

    method CountReady() returns (readyCount: nat)
      requires forall x | x in order :: x in heap
      ensures readyCount == |ReadyList(order, heap)|
    {
      readyCount := 0;
      for i := 0 to |order|
        invariant readyCount == |ReadyList(order[..i], heap)|
      {
        assert order[..i + 1] == order[..i] + [order[i]];
        ReadyAppend(order[..i], heap, order[i]);
        if heap[order[i]].phase == Ready { readyCount := readyCount + 1; }
      }
      assert order[..|order|] == order;
    }

    method FirstReady() returns (e: Option<nat>)
      requires forall x | x in order :: x in heap
      ensures e == if ReadyList(order, heap) == [] then None else Some(ReadyList(order, heap)[0])
    {
      for i := 0 to |order|
        invariant ReadyList(order[..i], heap) == []
      {
        assert order[..i + 1] == order[..i] + [order[i]];
        ReadyAppend(order[..i], heap, order[i]);
        if heap[order[i]].phase == Ready {
          assert order == order[..i + 1] + order[i + 1..];
          ReadyConcat(order[..i + 1], order[i + 1..], heap);
          return Some(order[i]);
        }
      }
      assert order[..|order|] == order;
      return None;
    }

    /** Re-insert an entry at the map's end, count the ready ones, and evict the first if there are too many. */
    method TouchEntry(e: nat)
      requires e in heap && forall x | x in order :: x in heap
      modifies `order, `heap, `clock
      ensures S() == old(S()).(t := Touch(old(S()).t, e, capacity))
    {
      hide ReadyList;
      order := Without(order, e) + [e];
      clock := clock + 1;
      heap := heap[e := heap[e].(touched := clock)];
      assert forall x | x in order :: x in heap;
      var readyCount := CountReady();
      if readyCount <= capacity { return; }
      var oldest := FirstReady();
      if oldest.Some? { order := Without(order, oldest.value); }
    }

    method SettleWaiter(waiter: Option<nat>)
      modifies `settled
      ensures settled == old(settled) + (if waiter.Some? then {waiter.value} else {})
    {
      if waiter.Some? { settled := settled + {waiter.value}; }
    }

    method MakeEntryReady(e: nat)
      requires e in heap && forall x | x in order :: x in heap
      modifies `order, `heap, `clock, `settled
      ensures S() == MakeReady(old(S()), e)
    {
      hide Touch;
      if Get(order, heap, heap[e].id) != Some(e) { return; }
      var waiter := heap[e].waiter;
      heap := heap[e := heap[e].(phase := Ready, waiter := None)];
      SettleWaiter(waiter);
      TouchEntry(e);
    }

    method RemoveEntry(e: nat)
      requires e in heap
      modifies `order, `heap, `settled
      ensures S() == Remove(old(S()), e)
    {
      if Get(order, heap, heap[e].id) != Some(e) { return; }
      order := Without(order, e);
      var waiter := heap[e].waiter;
      heap := heap[e := heap[e].(waiter := None)];
      SettleWaiter(waiter);
    }

    /** Find the id's entry, or add a loading one whose load starts, or throws, at once. */
    method FindOrLoad(id: nat, loadThrows: bool) returns (e: nat)
      requires Inv(S())
      modifies this
      ensures (S(), e) == EntryFor(old(S()), id, loadThrows)
      ensures e in heap && heap[e].id == id && acts == old(acts) && settled == old(settled)
      ensures forall x | x in old(order) && old(heap)[x].id == id :: e == x && order == old(order) && heap == old(heap)
      ensures (forall x | x in old(order) :: old(heap)[x].id != id) ==>
                && e !in old(heap) && heap == old(heap)[e := heap[e]] && heap[e].phase == Loading
                && heap[e].result == (if loadThrows then LoadFailed else Pending)
                && order == (if loadThrows then old(order) else old(order) + [e])
    {
      NextFresh(S());
      hide Increasing, LruOk, NoDup;
      var existing := Get(order, heap, id);
      if existing.Some? { return existing.value; }
      e := next;
      next := next + 1;
      heap := heap[e := Entry(id, if loadThrows then LoadFailed else Pending, Loading, None, None, None, 0, 0)];
      if !loadThrows { order := order + [e]; }
    }

    method Inspect(act: nat, id: nat, loadThrows: bool)
      requires Inv(S()) && Enabled(S(), BeginInspect(act, id, loadThrows))
      modifies this
      ensures S() == Step(old(S()), BeginInspect(act, id, loadThrows)) && Inv(S())
      ensures acts.Keys == old(acts).Keys + {act} && acts[act].Inspecting?
      ensures acts[act].entry in heap && heap[acts[act].entry].id == id
      ensures forall x | x in old(order) && old(heap)[x].id == id :: acts[act].entry == x && heap == old(heap)
    {
      hide Inv, EntryFor;
      StepKeeps(S(), BeginInspect(act, id, loadThrows));
      var e := FindOrLoad(id, loadThrows);
      acts := acts[act := Inspecting(e)];
    }

    /**
     * The entry's current source, or the loaded one where it has none; nothing when the load
     * failed, whose error is thrown.
     */
    method ResumeInspect(act: nat) returns (source: Option<nat>)
      requires Inv(S()) && Enabled(S(), InspectResumes(act))
      modifies this
      ensures S() == Step(old(S()), InspectResumes(act)) && Inv(S())
      ensures var entry := old(heap)[old(acts)[act].entry];
              source == if entry.result.LoadFailed? then None
                        else if entry.source.Some? then entry.source else Some(entry.result.source)
      ensures var e := old(acts)[act].entry;
              if e in old(order) && old(heap)[e].phase == Ready && source.Some? then
                Newest(old(S()), S(), e) && heap[e].touched > old(clock)
              else order == old(order) && heap == old(heap)
    {
      InspectMeans(S(), act);
      hide Newest, Touch, LruOk, NoDup;
      StepKeeps(S(), InspectResumes(act));
      var e := acts[act].entry;
      source := None;
      if heap[e].result.Loaded? { source := Some(heap[e].source.GetOr(heap[e].result.source)); }
      acts := acts[act := Done];
      if heap[e].result.Loaded? && Get(order, heap, heap[e].id) == Some(e) && heap[e].phase == Ready { TouchEntry(e); }
    }

    /** A settled load makes its entry ready, or takes it out of the map. */
    method OnLoaded(e: nat, source: Option<nat>)
      requires Inv(S()) && Enabled(S(), LoadSettles(e, source))
      modifies this
      ensures S() == Step(old(S()), LoadSettles(e, source)) && Inv(S())
      ensures LoadDone(old(S()), S(), e, source)
    {
      LoadMeans(S(), e, source);
      hide LoadDone, MakeReady, Remove, LruOk, NoDup;
      StepKeeps(S(), LoadSettles(e, source));
      if source.Some? {
        var current := Get(order, heap, heap[e].id) == Some(e);
        heap := heap[e := heap[e].(result := Loaded(source.value), source := if current then source
            else heap[e].source)];
        MakeEntryReady(e);
      } else {
        heap := heap[e := heap[e].(result := LoadFailed)];
        RemoveEntry(e);
      }
    }

    method Reserve(act: nat, id: nat, loadThrows: bool)
      requires Inv(S()) && Enabled(S(), BeginReserve(act, id, loadThrows))
      modifies this
      ensures S() == Step(old(S()), BeginReserve(act, id, loadThrows)) && Inv(S())
      ensures acts.Keys == old(acts).Keys + {act} && acts[act].AwaitingLoad?
      ensures acts[act].entry in heap && heap[acts[act].entry].id == id
      ensures forall x | x in old(order) && old(heap)[x].id == id :: acts[act].entry == x && heap == old(heap)
    {
      hide Inv, EntryFor;
      StepKeeps(S(), BeginReserve(act, id, loadThrows));
      var e := FindOrLoad(id, loadThrows);
      acts := acts[act := AwaitingLoad(e)];
    }

    /** `reserve` from its wait loop on, up to its next await. */
    method ResumeReserve(act: nat)
      requires Inv(S()) && Enabled(S(), ReserveResumes(act))
      modifies this
      ensures S() == Step(old(S()), ReserveResumes(act)) && Inv(S())
      ensures var e := old(acts)[act].entry;
              var entry := old(heap)[e];
              && order == old(order) && settled == old(settled) && holders == old(holders)
              && (if entry.result.LoadFailed? || e !in old(order) then
                    acts == old(acts)[act := Done] && heap == old(heap)
                  else if entry.phase != Ready then
                    entry.waiter.Some? && acts == old(acts)[act := AwaitingTurn(e, entry.waiter.value)]
                    && heap == old(heap)
                  else
                    && acts == old(acts)[act := InCommit(e)]
                    && heap == old(heap)[e := entry.(phase := Committing, waiter := Some(old(nextWaiter)),
                        owner := act)])
    {
      hide LruOk, NoDup;
      StepKeeps(S(), ReserveResumes(act));
      assert ActOk(S(), act);
      CurrentIff(S().t, acts[act].entry);
      var e := acts[act].entry;
      if heap[e].result == LoadFailed || Get(order, heap, heap[e].id) != Some(e) {
        acts := acts[act := Done];
      } else if heap[e].phase != Ready {
        if heap[e].waiter.None? {
          assert false;  // the "lost its reservation waiter" throw
        }
        acts := acts[act := AwaitingTurn(e, heap[e].waiter.value)];
      } else {
        heap := heap[e := heap[e].(phase := Committing, waiter := Some(nextWaiter), owner := act)];
        nextWaiter := nextWaiter + 1;
        acts := acts[act := InCommit(e)];
      }
    }

    /** The rest of `reserve`: the returned reservation, or none. */
    method ResumeCommit(act: nat, outcome: CommitOutcome) returns (reservation: Option<nat>)
      requires Inv(S()) && Enabled(S(), CommitSettles(act, outcome))
      modifies this
      ensures S() == Step(old(S()), CommitSettles(act, outcome)) && Inv(S())
      ensures CommitDone(old(S()), S(), act, outcome)
      ensures reservation.Some? <==> outcome.Committed? && !outcome.aborted && old(acts)[act].entry in old(order)
      ensures reservation.Some? ==>
                && Live(S(), reservation.value) && reservation.value !in old(holders)
                && holders[reservation.value] == old(acts)[act].entry
    {
      CommitMeans(S(), act, outcome);
      CommittingEntry(S(), act);
      FreshReservation(S());
      InvBounds(S());
      StepKeeps(S(), CommitSettles(act, outcome));
      CommitStep(S(), act, outcome);
      CurrentSourced(S(), act, outcome);
      hide CommitDone, TableOk, Inv, Enabled, Step, MakeReady, Remove, Get, HandedOut, Live;
      var e := acts[act].entry;
      acts := acts[act := Done];
      if !outcome.Committed? {
        RemoveEntry(e);
        return None;
      }
      heap := heap[e := heap[e].(source := Some(outcome.source))];
      if outcome.aborted {
        MakeEntryReady(e);
        return None;
      }
      if Get(order, heap, heap[e].id) != Some(e) { return None; }
      var r := HandOut(e);
      return Some(r);
    }

    /** Hold an entry by a fresh reservation. */
    method HandOut(e: nat) returns (reservation: nat)
      requires e in heap && Current(S().t, e) && forall x | x in order :: x in heap
      modifies this
      ensures S() == HandedOut(old(S()), e) && Live(S(), reservation)
      ensures reservation == old(nextReservation) && holders == old(holders)[reservation := e]
      ensures heap[e].phase == Reserved && heap[e].reservation == Some(reservation) && order == old(order)
    {
      hide Get;
      reservation := nextReservation;
      nextReservation := nextReservation + 1;
      ghost var before := heap;
      heap := heap[e := heap[e].(phase := Reserved, reservation := Some(reservation))];
      holders := holders[reservation := e];
      GetFrame(order, before, heap, before[e].id);
    }

    /** The reservation for publishing exactly this session; `aliased` when another owner holds its id. */
    method ReservationFor(id: nat, session: nat) returns (reservation: Option<nat>, aliased: bool)
      requires Inv(S())
      ensures !aliased && reservation.None? <==> forall e | e in order :: heap[e].id != id
      ensures reservation.Some? ==>
                && !aliased && HoldsReservation(S(), reservation.value, id)
                && heap[holders[reservation.value]].source == Some(session)
    {
      hide LruOk, NoDup;
      var found := Get(order, heap, id);
      if found.None? { return None, false; }
      var e := found.value;
      if heap[e].phase == Reserved && heap[e].source == Some(session) && heap[e].reservation.Some? {
        assert Owned(S(), e);
        CurrentIff(S().t, e);
        return heap[e].reservation, false;
      }
      return None, true;
    }

    /** Consume a reservation after its session attached; a stale one throws and changes nothing. */
    method AttachReservation(r: nat) returns (threw: bool)
      requires Inv(S())
      modifies this
      ensures S() == Step(old(S()), Attach(r)) && Inv(S())
      ensures threw == old(Stale(S(), r)) && (threw ==> S() == old(S()))
      ensures !threw ==> Removed(old(S()), S(), old(holders)[r])
    {
      ConsumedMeans(S(), r);
      hide Removed, Remove, LruOk, NoDup;
      StepKeeps(S(), Attach(r));
      if Stale(S(), r) { return true; }
      RemoveEntry(holders[r]);
      return false;
    }

    method DiscardReservation(r: nat)
      requires Inv(S())
      modifies this
      ensures S() == Step(old(S()), Discard(r)) && Inv(S())
      ensures old(Stale(S(), r)) ==> S() == old(S())
      ensures !old(Stale(S(), r)) ==> Removed(old(S()), S(), old(holders)[r])
    {
      ConsumedMeans(S(), r);
      hide Removed, Remove, LruOk, NoDup;
      StepKeeps(S(), Discard(r));
      if Stale(S(), r) { return; }
      RemoveEntry(holders[r]);
    }

    method ReleaseReservation(r: nat, reusable: bool)
      requires Inv(S())
      modifies this
      ensures S() == Step(old(S()), Release(r, reusable)) && Inv(S())
      ensures old(Stale(S(), r)) ==> S() == old(S())
      ensures !old(Stale(S(), r)) ==>
                if reusable then MadeReady(old(S()), S(), old(holders)[r]) else Removed(old(S()), S(), old(holders)[r])
    {
      if Live(S(), r) { ReleaseMeans(S(), r, reusable); }
      hide Removed, MadeReady, Remove, MakeReady, LruOk, NoDup;
      StepKeeps(S(), Release(r, reusable));
      if Stale(S(), r) || heap[holders[r]].phase != Reserved { return; }
      var e := holders[r];
      if !reusable {
        RemoveEntry(e);
        return;
      }
      heap := heap[e := heap[e].(reservation := None)];
      MakeEntryReady(e);
    }

    method InvalidateId(id: nat)
      requires Inv(S())
      modifies this
      ensures S() == Step(old(S()), Invalidate(id)) && Inv(S())
      ensures forall e | e in order :: heap[e].id != id
      ensures forall e | e in old(order) && old(heap)[e].id != id :: e in order && heap[e] == old(heap)[e]
    {
      InvalidateMeans(S(), id);
      hide Remove, LruOk, NoDup;
      StepKeeps(S(), Invalidate(id));
      var found := Get(order, heap, id);
      if found.Some? { RemoveEntry(found.value); }
    }

    method DiscardIfReady(id: nat, expected: nat) returns (r: DiscardResult)
      requires Inv(S())
      modifies this
      ensures S() == Step(old(S()), DiscardReady(id, expected)) && Inv(S())
      ensures r != Discarded ==> S() == old(S())
      ensures r == Missing
            <==> forall e | e in old(order) && old(heap)[e].id == id :: old(heap)[e].source != Some(expected)
      ensures r == Discarded <==>
                exists e ::
                  && e in old(order) && old(heap)[e].id == id
                  && old(heap)[e].source == Some(expected) && old(heap)[e].phase == Ready
      ensures r == Discarded ==> forall e | e in order :: heap[e].id != id
      ensures forall e | e in old(order) && old(heap)[e].id != id :: e in order && heap[e] == old(heap)[e]
    {
      InvalidateMeans(S(), id);
      hide Remove, LruOk, NoDup, ActOk, Owned;
      StepKeeps(S(), DiscardReady(id, expected));
      var found := Get(order, heap, id);
      if found.None? || heap[found.value].source != Some(expected) { return Missing; }
      if heap[found.value].phase != Ready { return Retained; }
      RemoveEntry(found.value);
      return Discarded;
    }

    /** Whether an append may proceed: nobody holds the id's entry. */
    method AssertWritable(id: nat) returns (writable: bool)
      requires Inv(S())
      ensures writable
            <==> forall e | e in order && heap[e].id == id :: heap[e].phase == Loading || heap[e].phase == Ready
    {
      hide LruOk, NoDup;
      var found := Get(order, heap, id);
      writable := found.None? || !(heap[found.value].phase == Committing || heap[found.value].phase == Reserved);
    }

    method TakeIfReady(id: nat) returns (source: Option<nat>)
      requires Inv(S())
      modifies this
      ensures S() == Step(old(S()), TakeReady(id)) && Inv(S())
      ensures source.Some? ==> forall e | e in order :: heap[e].id != id
      ensures source.Some? <==> exists e :: e in old(order) && old(heap)[e].id == id && old(heap)[e].phase == Ready
      ensures forall e | e in old(order) && old(heap)[e].id == id && source.Some? :: source == old(heap)[e].source
      ensures source.None? ==> S() == old(S())
      ensures forall e | e in old(order) && old(heap)[e].id != id :: e in order && heap[e] == old(heap)[e]
    {
      InvalidateMeans(S(), id);
      hide LruOk, NoDup;
      StepKeeps(S(), TakeReady(id));
      var found := Get(order, heap, id);
      if found.None? || heap[found.value].phase != Ready || heap[found.value].source.None? { return None; }
      source := heap[found.value].source;
      RemoveEntry(found.value);
    }
  }
}
