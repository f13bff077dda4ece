/**
 * The inbox: two pending lists owned by an event-sourced projection. Every mutation commits one
 * normalized splice to the session log before it touches the lists, and a resumed inbox is
 * rebuilt from the log alone.
 *
 * No observer mutates the inbox reentrantly.
 */
module Inbox {
  import opened Options
  import opened SessionEvents

  /** A JavaScript number, as far as a splice coordinate can be one. */
  datatype Number = NaN | NegativeInfinity | PositiveInfinity | Finite(value: real)

  datatype Lists = Lists(nextTurn: seq<Message>, nextStep: seq<Message>)

  function Pick(l: Lists, target: Target): seq<Message> {
    if target.NextTurn? then l.nextTurn else l.nextStep
  }

  function With(l: Lists, target: Target, list: seq<Message>): Lists {
    if target.NextTurn? then l.(nextTurn := list) else l.(nextStep := list)
  }

  function All(l: Lists): seq<Message> {
    l.nextTurn + l.nextStep
  }

  function Ids(ms: seq<Message>): (ids: seq<nat>)
    ensures |ids| == |ms| && forall i | 0 <= i < |ms| :: ids[i] == ms[i].id
  {
    seq(|ms|, i requires 0 <= i < |ms| => ms[i].id)
  }

  predicate Distinct(ids: seq<nat>) {
    forall i, j | 0 <= i < j < |ids| :: ids[i] != ids[j]
  }

  function RemovedCount(s: Splice): int {
    s.removedCount.GetOr(0)
  }

  predicate InRange(l: Lists, s: Splice) {
    0 <= s.start && 0 <= RemovedCount(s) && s.start + RemovedCount(s) <= |Pick(l, s.target)|
  }

  /** The lists after one splice whose coordinates are in range. */
  function Spliced(l: Lists, s: Splice): Lists
    requires InRange(l, s)
  {
    var list := Pick(l, s.target);
    With(l, s.target, list[..s.start] + s.inserted + list[s.start + RemovedCount(s)..])
  }

  /** Whether a splice fits the lists and leaves every pending identity unique. */
  predicate Acceptable(l: Lists, s: Splice) {
    && InRange(l, s)
    && Distinct(Ids(All(Spliced(l, s))))
  }

  /** Replay of a log: the pending lists, or nothing when some recorded splice does not fit. */
  function Replay(events: seq<Event>): Option<Lists> {
    if events == [] then Some(Lists([], []))
    else
      var before := Replay(events[..|events| - 1]);
      var e := events[|events| - 1];
      if before.None? || !e.InboxSpliced? then before
      else if Acceptable(before.value, e.splice) then Some(Spliced(before.value, e.splice))
      else None
  }

  lemma ReplayNext(events: seq<Event>, e: Event)
    ensures Replay(events + [e]) ==
            (var before := Replay(events);
             if before.None? || !e.InboxSpliced? then before
             else if Acceptable(before.value, e.splice) then Some(Spliced(before.value, e.splice)) else None)
  {
  }

  // ----- coordinates -----

  /** `Math.trunc` of a finite number. */
  function Trunc(v: real): int {
    if v >= 0.0 then v.Floor else -(-v).Floor
  }

  /** The start coordinate as the inbox normalizes it. */
  function NormalStart(start: Number, length: nat): int {
    match start
    case NaN => 0
    case NegativeInfinity => 0
    case PositiveInfinity => length
    case Finite(v) => if Trunc(v) < 0 then Max(length + Trunc(v), 0) else Min(Trunc(v), length)
  }

  /** The delete count as the inbox normalizes it. */
  function NormalDeleteCount(count: Number, length: nat, start: int): int {
    match count
    case NaN => Min(0, length - start)
    case NegativeInfinity => Min(0, length - start)
    case PositiveInfinity => length - start
    case Finite(v) => Min(Max(Trunc(v), 0), length - start)
  }

  function Max(a: int, b: int): int { if a >= b then a else b }

  function Min(a: int, b: int): int { if a <= b then a else b }

  /** `ToIntegerOrInfinity` of section 7.1.5 of ECMA-262: an integer rounded toward zero, or an infinity. */
  ghost predicate IntegerOf(n: Number, i: int) {
    match n
    case NaN => i == 0
    case Finite(v) => if v >= 0.0 then i as real <= v < i as real + 1.0 else i as real - 1.0 < v <= i as real
    case _ => false
  }

  /** `actualStart` in section 23.1.3.31 of ECMA-262. */
  ghost predicate IsActualStart(start: Number, length: nat, actual: int) {
    match start
    case NegativeInfinity => actual == 0
    case PositiveInfinity => actual == length
    case _ =>
      exists i ::
            IntegerOf(start, i) && actual == (if i < 0 then (if length + i > 0 then length + i else 0)
            else if i < length then i else length)
  }

  /** `actualDeleteCount` in section 23.1.3.31 of ECMA-262: the requested count clamped to what is there. */
  ghost predicate IsActualDeleteCount(count: Number, length: nat, actualStart: int, actual: int) {
    match count
    case NegativeInfinity => actual == 0
    case PositiveInfinity => actual == length - actualStart
    case _ =>
      exists i ::
            IntegerOf(count, i) && actual == (if i < 0 then 0
            else if i > length - actualStart then length - actualStart else i)
  }

  /** The inbox's normalization is the standard's, for every pair of numbers. */
  lemma NormalizesAsStandard(start: Number, count: Number, length: nat)
    ensures var at := NormalStart(start, length);
            && 0 <= at <= length && IsActualStart(start, length, at)
            && 0 <= NormalDeleteCount(count, length, at) <= length - at
            && IsActualDeleteCount(count, length, at, NormalDeleteCount(count, length, at))
  {
    assert start.Finite? ==> IntegerOf(start, Trunc(start.value));
    assert count.Finite? ==> IntegerOf(count, Trunc(count.value));
    assert start.NaN? ==> IntegerOf(start, 0);
    assert count.NaN? ==> IntegerOf(count, 0);
  }

  // ----- what a log accounts for -----

  function RemovedBy(l: Lists, s: Splice): seq<Message>
    requires InRange(l, s)
  {
    Pick(l, s.target)[s.start..s.start + RemovedCount(s)]
  }

  /** Everything a log inserted, claimed into turns, and discarded. */
  datatype Account = Account(inserted: multiset<Message>, claimed: multiset<Message>, discarded: multiset<Message>)

  function Accounts(events: seq<Event>): Account
    requires Replay(events).Some?
  {
    if events == [] then Account(multiset{}, multiset{}, multiset{})
    else
      var prefix, e := events[..|events| - 1], events[|events| - 1];
      if e.InboxSpliced? then Moved(Accounts(prefix), Replay(prefix).value, e.splice) else Accounts(prefix)
  }

  function Moved(a: Account, l: Lists, s: Splice): Account
    requires InRange(l, s)
  {
    var removed := multiset(RemovedBy(l, s));
    if s.canceled then Account(a.inserted + multiset(s.inserted), a.claimed, a.discarded + removed)
    else Account(a.inserted + multiset(s.inserted), a.claimed + removed, a.discarded)
  }

  ghost predicate Balanced(a: Account, l: Lists) {
    a.inserted == multiset(All(l)) + (a.claimed + a.discarded)
  }

  lemma AccountsNext(log: seq<Event>, e: Event)
    requires Replay(log + [e]).Some?
    ensures Replay(log).Some?
    ensures e.InboxSpliced? ==> InRange(Replay(log).value, e.splice)
    ensures Accounts(log + [e]) ==
          (if e.InboxSpliced? then Moved(Accounts(log), Replay(log).value, e.splice) else Accounts(log))
  {
  }

  /** Where a list begins in both lists in a row. */
  function Offset(l: Lists, target: Target): nat {
    if target.NextTurn? then 0 else |l.nextTurn|
  }

  /** A splice of either list is a splice of both lists in a row. */
  lemma SplicedAll(l: Lists, s: Splice)
    requires InRange(l, s)
    ensures var at, n := Offset(l, s.target) + s.start, RemovedCount(s);
            && at + n <= |All(l)|
            && All(Spliced(l, s)) == All(l)[..at] + s.inserted + All(l)[at + n..]
            && RemovedBy(l, s) == All(l)[at..at + n]
  {
    hide Distinct, Ids;
    if s.target.NextTurn? {
      SplicedFront(l.nextTurn, l.nextStep, s.start, RemovedCount(s), s.inserted);
    } else {
      SplicedBack(l.nextTurn, l.nextStep, s.start, RemovedCount(s), s.inserted);
    }
  }

  lemma SplicedFront(list: seq<Message>, back: seq<Message>, at: nat, n: nat, inserted: seq<Message>)
    requires at + n <= |list|
    ensures (list[..at] + inserted + list[at + n..]) + back == (list + back)[..at] + inserted + (list + back)[at + n..]
    ensures list[at..at + n] == (list + back)[at..at + n]
  {
  }

  lemma SplicedBack(front: seq<Message>, list: seq<Message>, at: nat, n: nat, inserted: seq<Message>)
    requires at + n <= |list|
    ensures front + (list[..at] + inserted + list[at + n..]) ==
            (front + list)[..|front| + at] + inserted + (front + list)[|front| + at + n..]
    ensures list[at..at + n] == (front + list)[|front| + at..|front| + at + n]
  {
  }

  lemma ReplacedMultiset(list: seq<Message>, from: nat, to: nat, inserted: seq<Message>, next: seq<Message>,
      removed: seq<Message>)
    requires from <= to <= |list|
    requires next == list[..from] + inserted + list[to..] && removed == list[from..to]
    ensures multiset(next) + multiset(removed) == multiset(list) + multiset(inserted)
  {
    var front, back := list[..from], list[to..];
    assert list == front + removed + back;
    assert multiset(list) == multiset(front) + multiset(removed) + multiset(back);
    assert multiset(next) == multiset(front) + multiset(inserted) + multiset(back);
  }

  lemma Balance(inserted: multiset<Message>, pending: multiset<Message>, gone: multiset<Message>,
      added: multiset<Message>, pending': multiset<Message>, removed: multiset<Message>)
    requires inserted == pending + gone && pending' + removed == pending + added
    ensures inserted + added == pending' + (gone + removed)
  {
    forall m ensures (inserted + added)[m] == (pending' + (gone + removed))[m] {
      assert (pending' + removed)[m] == (pending + added)[m];
    }
  }

  lemma Regroup(claimed: multiset<Message>, discarded: multiset<Message>, removed: multiset<Message>)
    ensures (claimed + discarded) + removed == (claimed + removed) + discarded
    ensures (claimed + discarded) + removed == claimed + (discarded + removed)
  {
  }

  lemma MovedBalances(a: Account, l: Lists, s: Splice)
    requires InRange(l, s) && Balanced(a, l)
    ensures Balanced(Moved(a, l, s), Spliced(l, s))
  {
    hide Distinct, Ids, All, Spliced, RemovedBy;
    SpliceConserves(l, s);
    var removed := multiset(RemovedBy(l, s));
    Balance(a.inserted, multiset(All(l)), a.claimed + a.discarded, multiset(s.inserted), multiset(All(Spliced(l, s))),
        removed);
    Regroup(a.claimed, a.discarded, removed);
  }

  /** A splice trades what it removes for what it inserts. */
  lemma SpliceConserves(l: Lists, s: Splice)
    requires InRange(l, s)
    ensures multiset(All(Spliced(l, s))) + multiset(RemovedBy(l, s)) == multiset(All(l)) + multiset(s.inserted)
  {
    hide Distinct, Ids, All, Spliced, RemovedBy;
    SplicedAll(l, s);
    var at := Offset(l, s.target) + s.start;
    ReplacedMultiset(All(l), at, at + RemovedCount(s), s.inserted, All(Spliced(l, s)), RemovedBy(l, s));
  }

  /** Every inserted message is exactly one of pending, claimed, or discarded, as often as it was inserted. */
  lemma {:induction false} EveryMessageAccounted(events: seq<Event>)
    requires Replay(events).Some?
    ensures Balanced(Accounts(events), Replay(events).value)
  {
    hide InRange, Distinct, Ids, Spliced, RemovedBy, Moved;
    if events != [] {
      var prefix, e := events[..|events| - 1], events[|events| - 1];
      EveryMessageAccounted(prefix);
      if e.InboxSpliced? {
        MovedBalances(Accounts(prefix), Replay(prefix).value, e.splice);
      }
    }
  }

  /** No identity is ever pending twice, on either list, in any replayable log. */
  lemma {:induction false} ReplayDistinct(events: seq<Event>)
    requires Replay(events).Some?
    ensures Distinct(Ids(All(Replay(events).value)))
  {
    if events != [] {
      ReplayDistinct(events[..|events| - 1]);
    }
  }

  /** Entries of other kinds do not move the projection. */
  lemma {:induction false} ReplayOthers(events: seq<Event>, others: seq<Event>)
    requires forall e | e in others :: !e.InboxSpliced?
    ensures Replay(events + others) == Replay(events)
    decreases |others|
  {
    hide Replay, Acceptable, Spliced;
    if others == [] {
      assert events + others == events;
    } else {
      assert others[0] in others;
      ReplayNext(events, others[0]);
      ReplayOthers(events + [others[0]], others[1..]);
      assert events + [others[0]] + others[1..] == events + others;
    }
  }

  /** The constructor's replay loop: the lists, or the log position whose splice does not fit. */
  method Rebuild(events: seq<Event>, seedLength: nat) returns (lists: Option<Lists>, invalid: nat)
    requires seedLength <= |events|
    ensures lists == Replay(events[seedLength..])
    ensures lists.None? ==>
          seedLength <= invalid < |events| && events[invalid].InboxSpliced? && Replay(events[seedLength..invalid]).Some?
  {
    hide Replay, InRange, Distinct, Ids, Spliced, All;
    var l := Lists([], []);
    var i := seedLength;
    ReplayNothing(events[seedLength..i]);
    while i < |events|
      invariant seedLength <= i <= |events|
      invariant Replay(events[seedLength..i]) == Some(l)
    {
      SliceNext(events, seedLength, i);
      ReplayNext(events[seedLength..i], events[i]);
      if events[i].InboxSpliced? {
        if !Acceptable(l, events[i].splice) {
          Slice(events, seedLength, i + 1);
          ReplayFails(events[seedLength..], i + 1 - seedLength);
          return None, i;
        }
        l := Spliced(l, events[i].splice);
      }
      i := i + 1;
    }
    assert events[seedLength..i] == events[seedLength..];
    return Some(l), i;
  }

  lemma ReplayNothing(events: seq<Event>)
    requires events == []
    ensures Replay(events) == Some(Lists([], []))
  {
  }

  lemma Slice(events: seq<Event>, from: nat, to: nat)
    requires from <= to <= |events|
    ensures events[from..][..to - from] == events[from..to]
  {
  }

  lemma SliceNext(events: seq<Event>, from: nat, to: nat)
    requires from <= to < |events|
    ensures events[from..to + 1] == events[from..to] + [events[to]]
  {
  }

  /** A log with an unfit prefix does not replay. */
  lemma {:induction false} ReplayFails(events: seq<Event>, n: nat)
    requires n <= |events| && Replay(events[..n]).None?
    ensures Replay(events).None?
    decreases |events|
  {
    if n < |events| {
      assert events[..|events| - 1][..n] == events[..n];
      ReplayFails(events[..|events| - 1], n);
    } else {
      assert events[..n] == events;
    }
  }

  /** A removal cannot make two identities equal. */
  lemma ShorterDistinct(l: Lists, s: Splice)
    requires Distinct(Ids(All(l))) && s.inserted == [] && InRange(l, s)
    ensures Distinct(Ids(All(Spliced(l, s))))
  {
    hide Distinct, Ids, All, Spliced, RemovedBy;
    SplicedAll(l, s);
    var at := Offset(l, s.target) + s.start;
    assert All(Spliced(l, s)) == All(l)[..at] + All(l)[at + RemovedCount(s)..];
    CutDistinct(All(l), at, at + RemovedCount(s));
  }

  lemma CutDistinct(all: seq<Message>, from: nat, to: nat)
    requires from <= to <= |all| && Distinct(Ids(all))
    ensures Distinct(Ids(all[..from] + all[to..]))
  {
  }

  /** Inserting one message keeps identities distinct exactly when its own is not pending. */
  lemma InsertedDistinct(all: seq<Message>, at: nat, message: Message)
    requires at <= |all| && Distinct(Ids(all))
    ensures Distinct(Ids(all[..at] + [message] + all[at..])) <==> message.id !in Ids(all)
  {
    var next := all[..at] + [message] + all[at..];
    assert next[at] == message;
    forall i | 0 <= i < |next| && i != at ensures Ids(next)[i] == Ids(all)[if i < at then i else i - 1] {}
    if message.id in Ids(all) {
      var i :| 0 <= i < |all| && Ids(all)[i] == message.id;
      var j := if i < at then i else i + 1;
      assert Ids(next)[j] == Ids(next)[at];
    }
  }

  // ----- what each operation does to the lists and to the log -----

  /** The entry a mutation logs for normalized coordinates. */
  function Normalized(target: Target, at: int, count: int, inserted: seq<Message>, discardRemoved: bool): Splice {
    Splice(target, at, if count == 0 then None else Some(count), inserted, discardRemoved && count > 0)
  }

  /** The claim of up to `count` messages from the front of one list, as an entry, if it takes any. */
  function ClaimEntry(l: Lists, target: Target, count: nat): seq<Event> {
    var n := Min(count, |Pick(l, target)|);
    if n == 0 then [] else [InboxSpliced(Normalized(target, 0, n, [], false))]
  }

  /** The lists left by that claim. */
  function Unclaimed(l: Lists, target: Target, count: nat): Lists {
    With(l, target, Pick(l, target)[Min(count, |Pick(l, target)|)..])
  }

  /** A claim is a replayable entry that moves exactly the taken messages to the claimed account. */
  lemma ClaimCounted(log: seq<Event>, l: Lists, target: Target, count: nat)
    requires Replay(log) == Some(l)
    ensures var next := log + ClaimEntry(l, target, count);
            && Replay(next) == Some(Unclaimed(l, target, count))
            && Accounts(next) == Accounts(log)
              .(claimed := Accounts(log).claimed + multiset(Pick(l, target)[..Min(count, |Pick(l, target)|)]))
  {
    hide All, Distinct, Ids;
    var list := Pick(l, target);
    var n := Min(count, |list|);
    if n == 0 {
      assert log + [] == log;
      assert list[0..] == list;
    } else {
      var s := Normalized(target, 0, n, [], false);
      ReplayDistinct(log);
      ShorterDistinct(l, s);
      ReplayNext(log, InboxSpliced(s));
      AccountsNext(log, InboxSpliced(s));
      assert list[..0] + [] + list[n..] == list[n..];
    }
  }

  /** Where an identity is pending: the next-turn list is searched first. */
  function Locate(l: Lists, id: nat): (at: Option<(Target, nat)>)
    ensures at.None? <==> id !in Ids(All(l))
    ensures at.Some? ==> at.value.1 < |Pick(l, at.value.0)| && Pick(l, at.value.0)[at.value.1].id == id
  {
    var turn := FindIndex(l.nextTurn, id);
    var step := FindIndex(l.nextStep, id);
    assert All(l) == l.nextTurn + l.nextStep;
    assert forall i | 0 <= i < |l.nextTurn| :: Ids(All(l))[i] == l.nextTurn[i].id;
    assert forall i | 0 <= i < |l.nextStep| :: Ids(All(l))[|l.nextTurn| + i] == l.nextStep[i].id;
    if turn < |l.nextTurn| then Some((NextTurn, turn)) else if step < |l.nextStep| then Some((NextStep, step)) else None
  }

  function FindIndex(ms: seq<Message>, id: nat): (i: nat)
    ensures i <= |ms| && (i < |ms| ==> ms[i].id == id)
    ensures forall j | 0 <= j < i :: ms[j].id != id
  {
    if ms == [] then 0 else if ms[0].id == id then 0 else 1 + FindIndex(ms[1..], id)
  }

  // ----- the live inbox -----

  class LiveInbox {
    const seedLength: nat
    var events: seq<Event>
    var nextTurn: seq<Message>
    var nextStep: seq<Message>

    function L(): Lists
      reads this
    {
      Lists(nextTurn, nextStep)
    }

    /** The entries the inbox owns: everything after the seed. */
    function Log(): seq<Event>
      requires seedLength <= |events|
      reads this
    {
      events[seedLength..]
    }

    /** The live lists are what the log replays to. */
    ghost predicate Valid()
      reads this
    {
      seedLength <= |events| && Replay(Log()) == Some(L())
    }

    constructor (events: seq<Event>, seedLength: nat, rebuilt: Lists)
      requires seedLength <= |events| && Replay(events[seedLength..]) == Some(rebuilt)
      ensures Valid() && this.events == events && this.seedLength == seedLength && L() == rebuilt
    {
      this.events, this.seedLength := events, seedLength;
      nextTurn, nextStep := rebuilt.nextTurn, rebuilt.nextStep;
    }

    /** Another party appends to the session log. */
    method Observe(others: seq<Event>)
      requires Valid() && forall e | e in others :: !e.InboxSpliced?
      modifies `events
      ensures Valid() && events == old(events) + others
    {
      hide Distinct, Ids, All, Replay;
      ReplayOthers(Log(), others);
      assert (events + others)[seedLength..] == events[seedLength..] + others;
      events := events + others;
    }

    /**
     * Normalize, validate, log, then apply one mutation. It throws, changing nothing, exactly when
     * the result would hold some identity twice; a mutation that does nothing logs nothing.
     */
    method Mutate(target: Target, start: Number, deleteCount: Number, inserted: seq<Message>, discardRemoved: bool)
      returns (removed: seq<Message>, threw: bool)
      requires Valid()
      modifies this
      ensures Valid()
      ensures var list := Pick(old(L()), target);
              var at := NormalStart(start, |list|);
              var count := NormalDeleteCount(deleteCount, |list|, at);
              var s := Normalized(target, at, count, inserted, discardRemoved);
              && InRange(old(L()), s) && count == RemovedCount(s)
              && if count == 0 && inserted == [] then
                   !threw && removed == [] && L() == old(L()) && events == old(events)
                 else if !Distinct(Ids(All(Spliced(old(L()), s)))) then
                   threw && removed == [] && L() == old(L()) && events == old(events)
                 else
                   !threw && removed == list[at..at + count] && L() == Spliced(old(L()), s)
                   && events == old(events) + [InboxSpliced(s)]
    {
      hide Distinct, Ids, All, Spliced, NormalStart, NormalDeleteCount, Trunc;
      var list := Pick(L(), target);
      NormalizesAsStandard(start, deleteCount, |list|);
      var at := NormalStart(start, |list|);
      var count := NormalDeleteCount(deleteCount, |list|, at);
      var s := Normalized(target, at, count, inserted, discardRemoved);
      if count == 0 && inserted == [] { return [], false; }
      if !Acceptable(L(), s) { return [], true; }
      ReplayNext(Log(), InboxSpliced(s));
      assert (events + [InboxSpliced(s)])[seedLength..] == Log() + [InboxSpliced(s)];
      events := events + [InboxSpliced(s)];
      removed := list[at..at + count];
      var next := Spliced(L(), s);
      nextTurn, nextStep := next.nextTurn, next.nextStep;
      return removed, false;
    }

    /** Append one message; it throws exactly when its identity is pending. */
    method Append(target: Target, message: Message) returns (threw: bool)
      requires Valid()
      modifies this
      ensures Valid()
      ensures threw <==> message.id in Ids(All(old(L())))
      ensures threw ==> L() == old(L()) && events == old(events)
      ensures !threw ==>
                && L() == With(old(L()), target, Pick(old(L()), target) + [message])
                && events == old(events) + [InboxSpliced(Splice(target, |Pick(old(L()), target)|, None, [message],
                    false))]
    {
      hide Distinct, Ids, All, Replay;
      var list := Pick(L(), target);
      InsertionAccepted(Log(), L(), target, |list|, message);
      var removed;
      removed, threw := Mutate(target, PositiveInfinity, Finite(0.0), [message], true);
      assert list[..|list|] + [message] + list[|list|..] == list + [message];
    }

    /** Prepend one message; it throws exactly when its identity is pending. */
    method Prepend(target: Target, message: Message) returns (threw: bool)
      requires Valid()
      modifies this
      ensures Valid()
      ensures threw <==> message.id in Ids(All(old(L())))
      ensures threw ==> L() == old(L()) && events == old(events)
      ensures !threw ==>
                && L() == With(old(L()), target, [message] + Pick(old(L()), target))
                && events == old(events) + [InboxSpliced(Splice(target, 0, None, [message], false))]
    {
      hide Distinct, Ids, All, Replay;
      var list := Pick(L(), target);
      InsertionAccepted(Log(), L(), target, 0, message);
      var removed;
      removed, threw := Mutate(target, Finite(0.0), Finite(0.0), [message], true);
      assert list[..0] + [message] + list[0..] == [message] + list;
    }

    /** Replace a pending message in place. It throws exactly when the replacement's identity is pending elsewhere. */
    method Replace(id: nat, message: Message) returns (found: bool, threw: bool)
      requires Valid()
      modifies this
      ensures Valid()
      ensures found <==> id in Ids(All(old(L())))
      ensures threw <==> found && message.id != id && message.id in Ids(All(old(L())))
      ensures !found || threw ==> L() == old(L()) && events == old(events)
      ensures found && !threw ==>
                var (target, i) := Locate(old(L()), id).value;
                && L() == With(old(L()), target, Pick(old(L()), target)[i := message])
                && events == old(events) + [InboxSpliced(Splice(target, i, Some(1), [message], true))]
    {
      hide Distinct, Ids, All, Replay, NormalStart, NormalDeleteCount, Spliced;
      var location := Locate(L(), id);
      if location.None? { return false, false; }
      var (target, i) := location.value;
      var list := Pick(L(), target);
      ReplacementAccepted(Log(), L(), id, message);
      OneAt(L(), target, i, [message]);
      var removed;
      removed, threw := Mutate(target, Finite(i as real), Finite(1.0), [message], true);
      assert list[..i] + [message] + list[i + 1..] == list[i := message];
      return true, threw;
    }

    /** Remove a pending message, logged as a cancellation; it never throws. */
    method Remove(id: nat) returns (found: bool)
      requires Valid()
      modifies this
      ensures Valid()
      ensures found <==> id in Ids(All(old(L())))
      ensures !found ==> L() == old(L()) && events == old(events)
      ensures found ==>
                var (target, i) := Locate(old(L()), id).value;
                && L() == With(old(L()), target, Pick(old(L()), target)[..i] + Pick(old(L()), target)[i + 1..])
                && events == old(events) + [InboxSpliced(Splice(target, i, Some(1), [], true))]
    {
      hide Distinct, Ids, All, Replay, NormalStart, NormalDeleteCount, Spliced;
      var location := Locate(L(), id);
      if location.None? { return false; }
      var (target, i) := location.value;
      var list := Pick(L(), target);
      OneAt(L(), target, i, []);
      ReplayDistinct(Log());
      ShorterDistinct(L(), Normalized(target, i, 1, [], true));
      var _, _ := Mutate(target, Finite(i as real), Finite(1.0), [], true);
      assert list[..i] + [] + list[i + 1..] == list[..i] + list[i + 1..];
      return true;
    }

    /** Cancel all pending input, next-step input first. */
    method Clear()
      requires Valid()
      modifies this
      ensures Valid() && L() == Lists([], [])
      ensures events == old(events)
                        + (if old(nextStep) == [] then []
                            else [InboxSpliced(Splice(NextStep, 0, Some(|old(nextStep)|), [], true))])
                        + (if old(nextTurn) == [] then []
                            else [InboxSpliced(Splice(NextTurn, 0, Some(|old(nextTurn)|), [], true))])
    {
      ClearList(NextStep);
      ClearList(NextTurn);
    }

    method ClearList(target: Target)
      requires Valid()
      modifies this
      ensures Valid() && L() == With(old(L()), target, [])
      ensures events == old(events)
                        + (if Pick(old(L()), target) == [] then []
                            else [InboxSpliced(Splice(target, 0, Some(|Pick(old(L()), target)|), [], true))])
    {
      hide Distinct, Ids, All;
      var list := Pick(L(), target);
      ReplayDistinct(Log());
      ShorterDistinct(L(), Normalized(target, 0, |list|, [], true));
      var _, _ := Mutate(target, Finite(0.0), Finite(|list| as real), [], true);
      assert list[..0] + [] + list[|list|..] == [];
    }

    /**
     * Take one step's batch: all next-step input, then one queued turn if requested. The removals
     * are logged as claims, not cancellations, and account for exactly the batch.
     */
    method Claim(target: Target) returns (claimed: seq<Message>)
      requires Valid()
      modifies this
      ensures Valid()
      ensures nextStep == []
      ensures target.NextStep? ==> claimed == old(nextStep) && nextTurn == old(nextTurn)
      ensures target.NextTurn? ==>
                if old(nextTurn) == [] then claimed == old(nextStep) && nextTurn == []
                else claimed == old(nextStep) + [old(nextTurn)[0]] && nextTurn == old(nextTurn)[1..]
      ensures Accounts(Log()) == old(Accounts(Log())).(claimed := old(Accounts(Log())).claimed + multiset(claimed))
    {
      hide Replay, Accounts;
      claimed := ClaimFrom(NextStep, |nextStep|);
      if target.NextTurn? {
        var turn := ClaimFrom(NextTurn, 1);
        claimed := claimed + turn;
      }
    }

    method ClaimFrom(target: Target, count: nat) returns (claimed: seq<Message>)
      requires Valid()
      modifies this
      ensures Valid()
      ensures claimed == Pick(old(L()), target)[..Min(count, |Pick(old(L()), target)|)]
      ensures L() == Unclaimed(old(L()), target, count)
      ensures Accounts(Log()) == old(Accounts(Log())).(claimed := old(Accounts(Log())).claimed + multiset(claimed))
    {
      hide All, Distinct, Ids, Accounts, Replay;
      var list := Pick(L(), target);
      ClaimCounted(Log(), L(), target, count);
      ghost var log, entry := Log(), ClaimEntry(L(), target, count);
      ReplayDistinct(log);
      ShorterDistinct(L(), Normalized(target, 0, Min(count, |list|), [], false));
      var threw;
      claimed, threw := Mutate(target, Finite(0.0), Finite(count as real), [], false);
      assert Log() == log + entry;
      assert list[..0] + [] + list[Min(count, |list|)..] == list[Min(count, |list|)..];
    }
  }

  /** A splice of one message at a position in range, normalized, applied. */
  lemma OneAt(l: Lists, target: Target, i: nat, inserted: seq<Message>)
    requires i < |Pick(l, target)|
    ensures NormalStart(Finite(i as real), |Pick(l, target)|) == i
    ensures NormalDeleteCount(Finite(1.0), |Pick(l, target)|, i) == 1
    ensures InRange(l, Splice(target, i, Some(1), inserted, true))
    ensures Spliced(l, Splice(target, i, Some(1), inserted, true)) ==
          With(l, target, Pick(l, target)[..i] + inserted + Pick(l, target)[i + 1..])
  {
  }

  /** Whether inserting one message is accepted, in terms of what is pending. */
  lemma InsertionAccepted(log: seq<Event>, l: Lists, target: Target, at: nat, message: Message)
    requires Replay(log) == Some(l) && at <= |Pick(l, target)|
    ensures var s := Splice(target, at, None, [message], false);
            InRange(l, s) && (Distinct(Ids(All(Spliced(l, s)))) <==> message.id !in Ids(All(l)))
  {
    hide Distinct, Ids, All, Spliced, RemovedBy;
    ReplayDistinct(log);
    SplicedAll(l, Splice(target, at, None, [message], false));
    InsertedDistinct(All(l), Offset(l, target) + at, message);
  }

  /** Whether replacing one pending message is accepted, in terms of what is pending. */
  lemma ReplacementAccepted(log: seq<Event>, l: Lists, id: nat, message: Message)
    requires Replay(log) == Some(l) && Locate(l, id).Some?
    ensures var (target, i) := Locate(l, id).value;
            var s := Splice(target, i, Some(1), [message], true);
            InRange(l, s) && (Distinct(Ids(All(Spliced(l, s)))) <==> message.id == id || message.id !in Ids(All(l)))
  {
    hide Distinct, Ids, All, Spliced, RemovedBy;
    ReplayDistinct(log);
    var (target, i) := Locate(l, id).value;
    SplicedAll(l, Splice(target, i, Some(1), [message], true));
    PickedIn(l, target, i);
    ReplacedDistinct(All(l), Offset(l, target) + i, message);
  }

  lemma PickedIn(l: Lists, target: Target, i: nat)
    requires i < |Pick(l, target)|
    ensures Offset(l, target) + i < |All(l)| && All(l)[Offset(l, target) + i] == Pick(l, target)[i]
  {
  }

  lemma ReplacedDistinct(all: seq<Message>, at: nat, message: Message)
    requires at < |all| && Distinct(Ids(all))
    ensures Distinct(Ids(all[..at] + [message] + all[at + 1..]))
          <==> message.id == all[at].id || message.id !in Ids(all)
  {
    var next := all[..at] + [message] + all[at + 1..];
    assert next == all[at := message];
    forall i | 0 <= i < |next| && i != at ensures Ids(next)[i] == Ids(all)[i] {}
    assert Ids(next)[at] == message.id && Ids(all)[at] == all[at].id;
    if message.id in Ids(all) && message.id != all[at].id {
      var i :| 0 <= i < |all| && Ids(all)[i] == message.id;
      assert Ids(next)[i] == Ids(next)[at];
    }
  }
}
