/**
 * Scope-aware registries: named tables whose insertions undo themselves, the merge of a scope's
 * inherited tables, and the ownership of each scope's layer by the effects registered through it.
 */
module ScopeStore {
  import opened Options
  import Scope

  // ----- insertion-ordered maps -----

  /** A `Map`, as its entries in insertion order. */
  type Table<V> = seq<(string, V)>

  predicate DistinctNames<V>(t: Table<V>) {
    forall i, j | 0 <= i < j < |t| :: t[i].0 != t[j].0
  }

  function Names<V>(t: Table<V>): (ns: seq<string>)
    ensures |ns| == |t|
  {
    seq(|t|, i requires 0 <= i < |t| => t[i].0)
  }

  function Find<V>(t: Table<V>, name: string): (found: Option<V>)
    ensures found.Some? <==> exists i :: 0 <= i < |t| && t[i].0 == name
  {
    if t == [] then None
    else if t[|t| - 1].0 == name then Some(t[|t| - 1].1)
    else Find(t[..|t| - 1], name)
  }

  /** `Map.set`: an existing name keeps its place. */
  function Set<V>(t: Table<V>, name: string, value: V): (r: Table<V>)
    ensures Find(t, name).None? ==> r == t + [(name, value)]
  {
    if t == [] then [(name, value)]
    else if t[|t| - 1].0 == name then t[..|t| - 1] + [(name, value)]
    else if Find(t, name).None? then t + [(name, value)]
    else Set(t[..|t| - 1], name, value) + [t[|t| - 1]]
  }

  /** `Map.delete`. */
  function Remove<V>(t: Table<V>, name: string): Table<V> {
    if t == [] then []
    else if t[|t| - 1].0 == name then Remove(t[..|t| - 1], name)
    else Remove(t[..|t| - 1], name) + [t[|t| - 1]]
  }

  lemma {:induction false} RemoveAbsent<V>(t: Table<V>, name: string)
    requires Find(t, name).None?
    ensures Remove(t, name) == t
  {
    if t != [] {
      RemoveAbsent(t[..|t| - 1], name);
    }
  }

  lemma {:induction false} FindSet<V>(t: Table<V>, name: string, value: V, other: string)
    ensures Find(Set(t, name, value), other) == if other == name then Some(value) else Find(t, other)
  {
    if t != [] && t[|t| - 1].0 != name && Find(t, name).Some? {
      FindSet(t[..|t| - 1], name, value, other);
    }
  }

  lemma {:induction false} NamesSet<V>(t: Table<V>, name: string, value: V)
    ensures Names(Set(t, name, value)) == if Find(t, name).Some? then Names(t) else Names(t) + [name]
  {
    if t != [] && t[|t| - 1].0 != name && Find(t, name).Some? {
      NamesSet(t[..|t| - 1], name, value);
      assert Names(t) == Names(t[..|t| - 1]) + [t[|t| - 1].0];
    }
  }

  // ----- named entries -----

  /** One insertion's undo closure: what it inserted, into which generation of the table, and its flag. */
  datatype Undo<V> = Undo(name: string, value: V, generation: nat, active: bool)

  /** The insertions not yet undone, in insertion order. */
  function Active<V>(undos: seq<Undo<V>>): Table<V> {
    if undos == [] then []
    else
      var u := undos[|undos| - 1];
      Active(undos[..|undos| - 1]) + (if u.active then [(u.name, u.value)] else [])
  }

  lemma Snoc<V>(t: Table<V>, e: (string, V), name: string)
    ensures Find(t + [e], name) == if e.0 == name then Some(e.1) else Find(t, name)
    ensures Remove(t + [e], name) == Remove(t, name) + (if e.0 == name then [] else [e])
    ensures DistinctNames(t + [e]) ==> DistinctNames(t) && Find(t, e.0).None?
  {
  }

  /** Undoing one active insertion removes exactly its entry. */
  lemma {:induction false} ActiveUndone<V>(undos: seq<Undo<V>>, i: nat)
    requires i < |undos| && undos[i].active && DistinctNames(Active(undos))
    ensures Find(Active(undos), undos[i].name) == Some(undos[i].value)
    ensures Active(undos[i := undos[i].(active := false)]) == Remove(Active(undos), undos[i].name)
  {
    hide Find, Remove, DistinctNames;
    var last := |undos| - 1;
    var before, u := undos[..last], undos[last];
    var undone := undos[i := undos[i].(active := false)];
    var t := Active(before);
    Snoc(t, (u.name, u.value), undos[i].name);
    if i == last {
      assert undone[..last] == before;
      RemoveAbsent(t, u.name);
    } else {
      assert undone[..last] == before[i := before[i].(active := false)];
      assert t + [] == t;
      ActiveUndone(before, i);
    }
  }

  lemma {:induction false} RemoveKeepsDistinct<V>(t: Table<V>, name: string)
    requires DistinctNames(t)
    ensures DistinctNames(Remove(t, name))
    ensures forall e | e in Remove(t, name) :: e in t
  {
    if t != [] {
      var init, last := t[..|t| - 1], t[|t| - 1];
      RemoveKeepsDistinct(init, name);
      assert forall e | e in init :: e.0 != last.0;
    }
  }

  /**
   * A table of uniquely named entries. Each `Map` it ever used is a generation; a drained
   * generation is replaced, so that iterators over it do not see later insertions.
   */
  class NamedEntries<V(==)> {
    var generations: seq<Table<V>>
    var undos: seq<Undo<V>>

    /**
     * Whatever was inserted and undone, in any order and however often, the table is its active
     * insertions in order.
     */
    ghost predicate Valid()
      reads this
    {
      && generations != []
      && (forall g | 0 <= g < |generations| - 1 :: generations[g] == [])
      && Data() == Active(undos)
      && DistinctNames(Data())
      && (forall i | 0 <= i < |undos| && undos[i].active :: undos[i].generation == |generations| - 1)
    }

    function Data(): Table<V>
      requires generations != []
      reads this
    {
      generations[|generations| - 1]
    }

    constructor ()
      ensures Valid() && Data() == [] && undos == []
    {
      generations, undos := [[]], [];
    }

    /** Insert one unique name; a taken name throws and changes nothing. */
    method Insert(name: string, value: V) returns (undo: Option<nat>)
      requires Valid()
      modifies this
      ensures Valid()
      ensures undo.None? <==> Find(old(Data()), name).Some?
      ensures undo.None? ==> Data() == old(Data()) && undos == old(undos)
      ensures undo.Some? ==>
                && undo.value == |old(undos)| && Data() == old(Data()) + [(name, value)]
                && undos == old(undos) + [Undo(name, value, |generations| - 1, true)]
    {
      var g := |generations| - 1;
      if Find(generations[g], name).Some? { return None; }
      generations := generations[g := Set(generations[g], name, value)];
      undos := undos + [Undo(name, value, g, true)];
      assert undos[..|undos| - 1] == old(undos);
      return Some(|undos| - 1);
    }

    /** Run an undo. The first run removes exactly its own insertion; every later run does nothing. */
    method RunUndo(i: nat)
      requires Valid() && i < |undos|
      modifies this
      ensures Valid()
      ensures Data() == if old(undos)[i].active then Remove(old(Data()), old(undos)[i].name) else old(Data())
      ensures undos == old(undos)[i := old(undos)[i].(active := false)]
    {
      if !undos[i].active {
        assert undos[i := undos[i].(active := false)] == undos;
        return;
      }
      ActiveUndone(undos, i);
      RemoveKeepsDistinct(Data(), undos[i].name);
      var g, name := undos[i].generation, undos[i].name;
      undos := undos[i := undos[i].(active := false)];
      generations := generations[g := Remove(generations[g], name)];
      if |generations[g]| == 0 && g == |generations| - 1 {
        NoneActive(undos);
        generations := generations + [[]];
      }
    }

    method Get(name: string) returns (value: Option<V>)
      requires Valid()
      ensures value == Find(Active(undos), name)
    {
      value := Find(generations[|generations| - 1], name);
    }
  }

  lemma {:induction false} NoneActive<V>(undos: seq<Undo<V>>)
    requires Active(undos) == []
    ensures forall i | 0 <= i < |undos| :: !undos[i].active
  {
    if undos != [] {
      NoneActive(undos[..|undos| - 1]);
    }
  }

  // ----- merging a scope's inherited tables -----

  /** The existing layers along a chain listed nearest first: farthest ancestor first, exact scope last. */
  function Overlays<V>(chain: seq<Scope.Key>, scoped: map<Scope.Key, Table<V>>): seq<Table<V>> {
    if chain == [] then []
    else Overlays(chain[1..], scoped) + (if chain[0] in scoped then [scoped[chain[0]]] else [])
  }

  /** The nearest scope on the chain that has the name decides it; failing all, the global table. */
  function Nearest<V>(chain: seq<Scope.Key>, scoped: map<Scope.Key, Table<V>>, global: Table<V>,
      name: string): Option<V> {
    if chain == [] then Find(global, name)
    else if chain[0] in scoped && Find(scoped[chain[0]], name).Some? then Find(scoped[chain[0]], name)
    else Nearest(chain[1..], scoped, global, name)
  }

  function SetAll<V>(t: Table<V>, entries: Table<V>): Table<V> {
    if entries == [] then
      t else Set(SetAll(t, entries[..|entries| - 1]), entries[|entries| - 1].0, entries[|entries| - 1].1)
  }

  function Layered<V>(global: Table<V>, layers: seq<Table<V>>): Table<V> {
    if layers == [] then global else SetAll(Layered(global, layers[..|layers| - 1]), layers[|layers| - 1])
  }

  lemma {:induction false} FindSetAll<V>(t: Table<V>, entries: Table<V>, name: string)
    ensures Find(SetAll(t, entries), name) == if Find(entries, name).Some? then Find(entries, name) else Find(t, name)
  {
    if entries != [] {
      var init, last := entries[..|entries| - 1], entries[|entries| - 1];
      FindSetAll(t, init, name);
      FindSet(SetAll(t, init), last.0, last.1, name);
    }
  }

  lemma SetNothing<V>(t: Table<V>, entries: Table<V>)
    requires entries == []
    ensures SetAll(t, entries) == t
  {
  }

  lemma SetNext<V>(t: Table<V>, entries: Table<V>, n: nat)
    requires n < |entries|
    ensures SetAll(t, entries[..n + 1]) == Set(SetAll(t, entries[..n]), entries[n].0, entries[n].1)
  {
    hide Set;
    assert entries[..n + 1][..n] == entries[..n];
  }

  lemma LayeredNothing<V>(global: Table<V>, layers: seq<Table<V>>)
    requires layers == []
    ensures Layered(global, layers) == global
  {
  }

  lemma LayeredNext<V>(global: Table<V>, layers: seq<Table<V>>, n: nat)
    requires n < |layers|
    ensures Layered(global, layers[..n + 1]) == SetAll(Layered(global, layers[..n]), layers[n][..|layers[n]|])
  {
    hide SetAll;
    assert layers[..n + 1][..n] == layers[..n] && layers[n][..|layers[n]|] == layers[n];
  }

  /** Layering a chain's overlays over the global table is looking each name up nearest first. */
  lemma {:induction false} LayeredIsNearest<V>(chain: seq<Scope.Key>, scoped: map<Scope.Key, Table<V>>,
      global: Table<V>, name: string)
    ensures Find(Layered(global, Overlays(chain, scoped)), name) == Nearest(chain, scoped, global, name)
  {
    if chain != [] {
      LayeredIsNearest(chain[1..], scoped, global, name);
      var rest := Overlays(chain[1..], scoped);
      if chain[0] in scoped {
        assert (rest + [scoped[chain[0]]])[..|rest|] == rest;
        FindSetAll(Layered(global, rest), scoped[chain[0]], name);
      } else {
        assert Overlays(chain, scoped) == rest;
      }
    }
  }

  /** Names in order of first appearance. */
  function FirstSeen(names: seq<string>): seq<string> {
    if names == [] then []
    else
      var before := FirstSeen(names[..|names| - 1]);
      if names[|names| - 1] in before then before else before + [names[|names| - 1]]
  }

  /** The names of the global table, then of each layer in turn. */
  function AllNames<V>(global: Table<V>, layers: seq<Table<V>>): seq<string> {
    if layers == [] then Names(global) else AllNames(global, layers[..|layers| - 1]) + Names(layers[|layers| - 1])
  }

  lemma {:induction false} NamesSetAll<V>(t: Table<V>, entries: Table<V>, names: seq<string>)
    requires Names(t) == FirstSeen(names)
    ensures Names(SetAll(t, entries)) == FirstSeen(names + Names(entries))
  {
    if entries == [] {
      assert names + Names(entries) == names;
    } else {
      hide FirstSeen, Find, Set, Names;
      var init, last := entries[..|entries| - 1], entries[|entries| - 1];
      NamesSetAll(t, init, names);
      NamesSet(SetAll(t, init), last.0, last.1);
      NamesFind(SetAll(t, init), last.0);
      NamesNext(entries);
      assert names + Names(entries) == names + Names(init) + [last.0];
      FirstSeenNext(names + Names(init), last.0);
    }
  }

  lemma NamesNext<V>(t: Table<V>)
    requires t != []
    ensures Names(t) == Names(t[..|t| - 1]) + [t[|t| - 1].0]
  {
  }

  lemma FirstSeenNext(names: seq<string>, name: string)
    ensures FirstSeen(names + [name]) ==
          if name in FirstSeen(names) then FirstSeen(names) else FirstSeen(names) + [name]
  {
    assert (names + [name])[..|names|] == names;
  }

  lemma NamesFind<V>(t: Table<V>, name: string)
    ensures Find(t, name).Some? <==> name in Names(t)
  {
    if Find(t, name).Some? {
      var i :| 0 <= i < |t| && t[i].0 == name;
      assert Names(t)[i] == name;
    }
  }

  lemma {:induction false} NamesLayered<V>(global: Table<V>, layers: seq<Table<V>>)
    requires Names(global) == FirstSeen(Names(global))
    ensures Names(Layered(global, layers)) == FirstSeen(AllNames(global, layers))
  {
    if layers != [] {
      NamesLayered(global, layers[..|layers| - 1]);
      NamesSetAll(Layered(global, layers[..|layers| - 1]), layers[|layers| - 1],
          AllNames(global, layers[..|layers| - 1]));
    }
  }

  lemma {:induction false} DistinctIsFirstSeen<V>(t: Table<V>)
    requires DistinctNames(t)
    ensures Names(t) == FirstSeen(Names(t))
  {
    if t != [] {
      var init := t[..|t| - 1];
      DistinctIsFirstSeen(init);
      assert Names(t)[..|t| - 1] == Names(init);
      assert forall i | 0 <= i < |init| :: Names(init)[i] == t[i].0;
    }
  }

  /** Existing overlays along the scope's chain, nearest last. */
  method ChainLayers<V>(relation: Scope.Relation, scoped: map<Scope.Key, Table<V>>, scope: Option<Scope.Key>)
      returns (layers: seq<Table<V>>)
    requires relation.Valid()
    ensures layers == Overlays(Scope.ChainOf(relation.parents, scope), scoped)
  {
    var chain := relation.ScopeChainOf(scope);
    layers := [];
    for i := |chain| downto 0
      invariant layers == Overlays(chain[i..], scoped)
    {
      assert chain[i..][1..] == chain[i + 1..];
      if chain[i] in scoped { layers := layers + [scoped[chain[i]]]; }
    }
    assert chain[0..] == chain;
  }

  /**
   * The effective map of a scope: each name as its nearest scope has it, the names in order of
   * first appearance from the global table towards the scope.
   */
  method Merge<V>(relation: Scope.Relation, global: Table<V>, scoped: map<Scope.Key, Table<V>>,
      scope: Option<Scope.Key>) returns (merged: Table<V>)
    requires relation.Valid() && DistinctNames(global)
    ensures var chain := Scope.ChainOf(relation.parents, scope);
            && (forall name :: Find(merged, name) == Nearest(chain, scoped, global, name))
            && Names(merged) == FirstSeen(AllNames(global, Overlays(chain, scoped)))
  {
    hide SetAll, Layered, Overlays, Nearest, Find, Set, Names, FirstSeen, AllNames;
    merged := global;
    var layers := ChainLayers(relation, scoped, scope);
    LayeredNothing(global, layers[..0]);
    for i := 0 to |layers|
      invariant merged == Layered(global, layers[..i])
    {
      SetNothing(merged, layers[i][..0]);
      for j := 0 to |layers[i]|
        invariant merged == SetAll(Layered(global, layers[..i]), layers[i][..j])
      {
        SetNext(Layered(global, layers[..i]), layers[i], j);
        merged := Set(merged, layers[i][j].0, layers[i][j].1);
      }
      LayeredNext(global, layers, i);
    }
    assert layers[..|layers|] == layers;
    DistinctIsFirstSeen(global);
    NamesLayered(global, layers);
    forall name ensures Find(merged, name) == Nearest(Scope.ChainOf(relation.parents, scope), scoped, global, name) {
      LayeredIsNearest(Scope.ChainOf(relation.parents, scope), scoped, global, name);
    }
  }

  // ----- layers owned by effects -----

  /** The identity of the global layer, which no scope's overlay has. */
  const GLOBAL := 0

  /**
   * One registration: its scope, the layer its action mutated, how many entries it put there, and
   * whether it is still live.
   */
  datatype Effect = Effect(scope: Option<Scope.Key>, layer: nat, entries: nat, live: bool)

  /** The overlay of each scope, the number of layers ever created, and every registration so far. */
  datatype Layers = Layers(scoped: map<Scope.Key, nat>, created: nat, effects: seq<Effect>)

  predicate Contributes(e: Effect) {
    e.live && e.entries > 0
  }

  predicate IsEmpty(effects: seq<Effect>, layer: nat) {
    forall i | 0 <= i < |effects| && effects[i].layer == layer :: !Contributes(effects[i])
  }

  /** A registration through `scope` whose action inserts `entries` entries. */
  function Registered(s: Layers, scope: Option<Scope.Key>, entries: nat): Layers {
    if scope.None? then s.(effects := s.effects + [Effect(scope, GLOBAL, entries, true)])
    else if scope.value in s.scoped then
      s.(effects := s.effects + [Effect(scope, s.scoped[scope.value], entries, true)])
    else Layers(s.scoped[scope.value := s.created], s.created + 1, s.effects
        + [Effect(scope, s.created, entries, true)])
  }

  /** A registration whose action throws: a layer created for it goes again. */
  function Failed(s: Layers, scope: Option<Scope.Key>): Layers {
    if scope.None? || scope.value in s.scoped then s else s.(created := s.created + 1)
  }

  /** The effects once `i` is undone. */
  function Undone(effects: seq<Effect>, i: nat): seq<Effect>
    requires i < |effects|
  {
    effects[i := effects[i].(live := false)]
  }

  /**
   * The disposal of a live registration: undo it, then drop the scope's overlay if the
   * registration's layer is empty.
   */
  function Disposed(s: Layers, i: nat): Layers
    requires i < |s.effects|
  {
    var e, effects := s.effects[i], Undone(s.effects, i);
    Layers(if e.scope.Some? && IsEmpty(effects, e.layer) then s.scoped - {e.scope.value} else s.scoped, s.created,
        effects)
  }

  /** Layer identities are never reused, no two scopes share one, and a layer is mutated through its own scope only. */
  ghost predicate Owned(s: Layers) {
    && GLOBAL < s.created
    && (forall i | 0 <= i < |s.effects| ::
          s.effects[i].layer < s.created && (s.effects[i].scope.None? <==> s.effects[i].layer == GLOBAL))
    && (forall k | k in s.scoped :: GLOBAL < s.scoped[k] < s.created)
    && (forall k, l | k in s.scoped && l in s.scoped && s.scoped[k] == s.scoped[l] :: k == l)
    && (forall i, k | 0 <= i < |s.effects| && k in s.scoped && s.effects[i].layer == s.scoped[k] ::
          s.effects[i].scope == Some(k))
  }

  /** Registration `i` has live entries in the layer that its scope shows. */
  predicate Seen(s: Layers, i: nat) {
    && i < |s.effects| && Contributes(s.effects[i])
    && var e := s.effects[i];
       e.scope.None? || (e.scope.value in s.scoped && s.scoped[e.scope.value] == e.layer)
  }

  /** Every live contribution is in the layer its scope shows. */
  ghost predicate Backed(s: Layers) {
    forall i: nat | i < |s.effects| && Contributes(s.effects[i]) :: Seen(s, i)
  }

  /** Nothing that was shown is hidden, but what registration `i` itself contributed. */
  ghost predicate KeepsShown(s: Layers, t: Layers, i: nat) {
    forall j: nat | j != i && Seen(s, j) :: Seen(t, j)
  }

  /** The disposal of `i` finds its own layer empty, while its scope shows another one that is not. */
  predicate Drops(s: Layers, i: nat)
    requires i < |s.effects|
  {
    var e := s.effects[i];
    && e.scope.Some? && IsEmpty(Undone(s.effects, i), e.layer)
    && e.scope.value in s.scoped && s.scoped[e.scope.value] != e.layer && !IsEmpty(s.effects, s.scoped[e.scope.value])
  }

  lemma RegisteredKeeps(s: Layers, scope: Option<Scope.Key>, entries: nat)
    requires Owned(s)
    ensures Owned(Registered(s, scope, entries))
    ensures Backed(s) ==> Backed(Registered(s, scope, entries))
    ensures forall j: nat | Seen(s, j) :: Seen(Registered(s, scope, entries), j)
    ensures entries > 0 ==> Seen(Registered(s, scope, entries), |s.effects|)
  {
    RegisteredOwned(s, scope, entries);
    RegisteredShows(s, scope, entries);
    hide Owned, Seen, Registered;
  }

  lemma RegisteredOwned(s: Layers, scope: Option<Scope.Key>, entries: nat)
    requires Owned(s)
    ensures Owned(Registered(s, scope, entries))
  {
    var t := Registered(s, scope, entries);
    var n := |s.effects|;
    assert forall j | 0 <= j < n :: t.effects[j] == s.effects[j];
    assert t.effects[n].scope == scope;
  }

  lemma RegisteredShows(s: Layers, scope: Option<Scope.Key>, entries: nat)
    requires Owned(s)
    ensures Backed(s) ==> Backed(Registered(s, scope, entries))
    ensures forall j: nat | Seen(s, j) :: Seen(Registered(s, scope, entries), j)
    ensures entries > 0 ==> Seen(Registered(s, scope, entries), |s.effects|)
  {
    hide Owned;
    var t := Registered(s, scope, entries);
    assert forall j | 0 <= j < |s.effects| :: t.effects[j] == s.effects[j];
  }

  lemma FailedKeeps(s: Layers, scope: Option<Scope.Key>)
    requires Owned(s)
    ensures Owned(Failed(s, scope)) && (Backed(s) ==> Backed(Failed(s, scope)))
    ensures forall j: nat | Seen(s, j) :: Seen(Failed(s, scope), j)
    ensures IsEmpty(s.effects, s.created)
  {
  }

  lemma DisposedOwned(s: Layers, i: nat)
    requires Owned(s) && i < |s.effects|
    ensures Owned(Disposed(s, i))
  {
    var t := Disposed(s, i);
    assert forall j | 0 <= j < |s.effects| ::
          t.effects[j].layer == s.effects[j].layer && t.effects[j].scope == s.effects[j].scope;
  }

  /**
   * In every state that can be reached, a disposal hides no other live contribution if and only if
   * it does not drop a layer that is not its own: the guard the disposer lacks.
   */
  lemma DisposedKeepsIff(s: Layers, i: nat)
    requires Owned(s) && i < |s.effects|
    ensures KeepsShown(s, Disposed(s, i), i) <==> !Drops(s, i)
  {
    var t, e := Disposed(s, i), s.effects[i];
    assert forall j | 0 <= j < |s.effects| && j != i :: t.effects[j] == s.effects[j];
    if Drops(s, i) {
      var j: nat :| j < |s.effects| && s.effects[j].layer == s.scoped[e.scope.value] && Contributes(s.effects[j]);
      assert Seen(s, j) && j != i && !Seen(t, j);
    } else {
      forall j: nat | j != i && Seen(s, j) ensures Seen(t, j) {
        assert t.effects[j] == s.effects[j];
      }
    }
  }

  /** Where every live contribution is shown, it stays so under exactly the same condition. */
  lemma BackedIff(s: Layers, i: nat)
    requires Owned(s) && Backed(s) && i < |s.effects|
    ensures Backed(Disposed(s, i)) <==> !Drops(s, i)
  {
    hide Owned, Drops, Seen;
    var t := Disposed(s, i);
    DisposedKeepsIff(s, i);
    assert !Contributes(t.effects[i]);
    forall j: nat | j < |s.effects| && j != i ensures Contributes(t.effects[j]) <==> Contributes(s.effects[j]) {
      assert t.effects[j] == s.effects[j];
    }
    SeenContributes(s, t);
  }

  lemma SeenContributes(s: Layers, t: Layers)
    ensures forall j: nat | Seen(s, j) :: j < |s.effects| && Contributes(s.effects[j])
    ensures forall j: nat | Seen(t, j) :: j < |t.effects| && Contributes(t.effects[j])
  {
  }

  /** No live registration is empty, and no layer is kept empty. */
  ghost predicate AllContribute(s: Layers) {
    && (forall i | 0 <= i < |s.effects| && s.effects[i].live :: s.effects[i].entries > 0)
    && (forall k | k in s.scoped :: !IsEmpty(s.effects, s.scoped[k]))
  }

  /**
   * When every registration contributes, no disposal hides another's contribution, and the layer is
   * reclaimed exactly when nothing is left in it.
   */
  lemma DisposedKeeps(s: Layers, i: nat)
    requires Owned(s) && Backed(s) && AllContribute(s) && i < |s.effects| && s.effects[i].live
    ensures Backed(Disposed(s, i)) && AllContribute(Disposed(s, i)) && KeepsShown(s, Disposed(s, i), i)
    ensures s.effects[i].scope.Some? ==>
              (s.effects[i].scope.value in Disposed(s, i).scoped <==> !IsEmpty(Disposed(s, i).effects,
                  s.effects[i].layer))
  {
    var t := Disposed(s, i);
    assert Contributes(s.effects[i]) && Seen(s, i);
    assert !Drops(s, i);
    BackedIff(s, i);
    DisposedKeepsIff(s, i);
    forall k | k in t.scoped ensures !IsEmpty(t.effects, t.scoped[k]) {
      if s.effects[i].scope != Some(k) { StaysFilled(s, i, s.scoped[k]); }
    }
  }

  lemma StaysFilled(s: Layers, i: nat, layer: nat)
    requires i < |s.effects| && layer != s.effects[i].layer && !IsEmpty(s.effects, layer)
    ensures !IsEmpty(Undone(s.effects, i), layer)
  {
    var j :| 0 <= j < |s.effects| && s.effects[j].layer == layer && Contributes(s.effects[j]);
    assert Undone(s.effects, i)[j] == s.effects[j];
  }

  lemma RegisteredContributes(s: Layers, scope: Option<Scope.Key>, entries: nat)
    requires Owned(s) && AllContribute(s) && entries > 0
    ensures AllContribute(Registered(s, scope, entries))
  {
    var t := Registered(s, scope, entries);
    var n := |s.effects|;
    forall k | k in t.scoped ensures !IsEmpty(t.effects, t.scoped[k]) {
      if scope == Some(k) {
        assert t.effects[n].layer == t.scoped[k] && Contributes(t.effects[n]);
      } else {
        var j :| 0 <= j < n && s.effects[j].layer == s.scoped[k] && Contributes(s.effects[j]);
        assert t.effects[j] == s.effects[j];
      }
    }
  }

  // ----- runs -----

  datatype Action = Register(scope: Option<Scope.Key>, entries: nat) | Fail(scope: Option<Scope.Key>) | Dispose(i: nat)

  /** A disposer runs once. */
  predicate Enabled(s: Layers, a: Action) {
    a.Dispose? ==> a.i < |s.effects| && s.effects[a.i].live
  }

  function Step(s: Layers, a: Action): Layers
    requires Enabled(s, a)
  {
    match a
    case Register(scope, entries) => Registered(s, scope, entries)
    case Fail(scope) => Failed(s, scope)
    case Dispose(i) => Disposed(s, i)
  }

  predicate Runs(s: Layers, actions: seq<Action>)
    decreases |actions|
  {
    actions == [] || (Enabled(s, actions[0]) && Runs(Step(s, actions[0]), actions[1..]))
  }

  function Run(s: Layers, actions: seq<Action>): Layers
    requires Runs(s, actions)
    decreases |actions|
  {
    if actions == [] then s else Run(Step(s, actions[0]), actions[1..])
  }

  const INITIAL := Layers(map[], 1, [])

  /** No disposal of the run drops a layer that is not its own. */
  predicate NoneDrops(s: Layers, actions: seq<Action>)
    requires Runs(s, actions)
    decreases |actions|
  {
    actions == [] || (!(actions[0].Dispose? && Drops(s, actions[0].i)) && NoneDrops(Step(s, actions[0]), actions[1..]))
  }

  lemma StepOwned(s: Layers, a: Action)
    requires Owned(s) && Enabled(s, a)
    ensures Owned(Step(s, a))
    ensures Backed(s) ==> (Backed(Step(s, a)) <==> !(a.Dispose? && Drops(s, a.i)))
  {
    hide Owned, Backed, Drops, Registered, Failed, Disposed;
    match a {
      case Register(scope, entries) => RegisteredKeeps(s, scope, entries);
      case Fail(scope) => FailedKeeps(s, scope);
      case Dispose(i) =>
        DisposedOwned(s, i);
        if Backed(s) { BackedIff(s, i); }
    }
  }

  /** Every live contribution is shown at every moment of the run. */
  ghost predicate AlwaysBacked(s: Layers, actions: seq<Action>)
    requires Runs(s, actions)
    decreases |actions|
  {
    Backed(s) && (actions == [] || AlwaysBacked(Step(s, actions[0]), actions[1..]))
  }

  lemma {:induction false} RunOwned(s: Layers, actions: seq<Action>)
    requires Owned(s) && Runs(s, actions)
    ensures Owned(Run(s, actions))
    ensures Backed(s) ==> (AlwaysBacked(s, actions) <==> NoneDrops(s, actions))
    decreases |actions|
  {
    hide Owned, Backed, Enabled, Step, Drops;
    if actions != [] {
      StepOwned(s, actions[0]);
      RunOwned(Step(s, actions[0]), actions[1..]);
      BackedNow(Step(s, actions[0]), actions[1..]);
    }
  }

  lemma BackedNow(s: Layers, actions: seq<Action>)
    requires Runs(s, actions)
    ensures AlwaysBacked(s, actions) ==> Backed(s)
  {
  }

  /**
   * Over every run of registrations, failures and disposals: layers stay owned, and every live
   * contribution is shown throughout if and only if no disposal drops a layer that is not its own.
   */
  lemma EveryRun(actions: seq<Action>)
    requires Runs(INITIAL, actions)
    ensures Owned(Run(INITIAL, actions))
    ensures AlwaysBacked(INITIAL, actions) <==> NoneDrops(INITIAL, actions)
  {
    RunOwned(INITIAL, actions);
  }

  lemma Then(s: Layers, a: Action, rest: seq<Action>)
    requires Enabled(s, a) && Runs(Step(s, a), rest)
    ensures Runs(s, [a] + rest) && Run(s, [a] + rest) == Run(Step(s, a), rest)
  {
  }

  lemma {:induction false} Joined(s: Layers, first: seq<Action>, second: seq<Action>)
    requires Runs(s, first) && Runs(Run(s, first), second)
    ensures Runs(s, first + second) && Run(s, first + second) == Run(Run(s, first), second)
    decreases |first|
  {
    hide Enabled, Step;
    if first == [] {
      assert first + second == second;
    } else {
      Joined(Step(s, first[0]), first[1..], second);
      assert (first + second)[1..] == first[1..] + second;
    }
  }

  // ----- where a layer is dropped that is not the disposer's own -----

  ghost function Contributors(s: Layers, layer: nat): set<nat> {
    set i: nat | i < |s.effects| && s.effects[i].layer == layer && Contributes(s.effects[i])
  }

  /** A live registration that inserted nothing into the layer its scope shows. */
  predicate EmptyIn(s: Layers, k: Scope.Key, layer: nat, empty: nat) {
    empty < |s.effects| && s.effects[empty] == Effect(Some(k), layer, 0, true)
  }

  /** Disposing of one of a layer's contributors leaves one less; of the last, reclaims the layer. */
  lemma DisposesContributor(s: Layers, k: Scope.Key, layer: nat, empty: nat, i: nat)
    requires Owned(s) && k in s.scoped && s.scoped[k] == layer && EmptyIn(s, k, layer, empty)
      && i in Contributors(s, layer)
    ensures Enabled(s, Dispose(i))
    ensures var t := Disposed(s, i);
            && Owned(t) && EmptyIn(t, k, layer, empty)
            && Contributors(t, layer) == Contributors(s, layer) - {i}
            && (if IsEmpty(t.effects, layer) then k !in t.scoped else k in t.scoped && t.scoped[k] == layer)
  {
    DisposedOwned(s, i);
    var t := Disposed(s, i);
    assert forall j | 0 <= j < |s.effects| && j != i :: t.effects[j] == s.effects[j];
    assert s.effects[i].scope == Some(k);
  }

  /** A layer that has a contributor is reclaimed by disposing of all its contributors, over any empty registration. */
  lemma {:induction false} Reclaims(s: Layers, k: Scope.Key, layer: nat, empty: nat) returns (actions: seq<Action>)
    requires Owned(s) && k in s.scoped && s.scoped[k] == layer && EmptyIn(s, k, layer, empty)
    requires Contributors(s, layer) != {}
    ensures Runs(s, actions)
    ensures var t := Run(s, actions);
            Owned(t) && EmptyIn(t, k, layer, empty) && IsEmpty(t.effects, layer) && k !in t.scoped
    decreases |Contributors(s, layer)|
  {
    hide Owned, Enabled, Step, Disposed, Contributors;
    var i :| i in Contributors(s, layer);
    DisposesContributor(s, k, layer, empty, i);
    var t := Disposed(s, i);
    DisposeSteps(s, i);
    if IsEmpty(t.effects, layer) {
      actions := [];
    } else {
      FilledHasContributor(t, layer);
      actions := Reclaims(t, k, layer, empty);
    }
    Then(s, Dispose(i), actions);
    actions := [Dispose(i)] + actions;
  }

  lemma DisposeSteps(s: Layers, i: nat)
    requires Enabled(s, Dispose(i))
    ensures i < |s.effects| && Step(s, Dispose(i)) == Disposed(s, i)
  {
  }

  lemma FilledHasContributor(s: Layers, layer: nat)
    ensures IsEmpty(s.effects, layer) <==> Contributors(s, layer) == {}
  {
    if i :| 0 <= i < |s.effects| && s.effects[i].layer == layer && Contributes(s.effects[i]) {
      assert i in Contributors(s, layer);
    }
  }

  /** An empty registration and a contributing one, through any scope of any state. */
  lemma Fills(s: Layers, k: Scope.Key, entries: nat)
    requires Owned(s) && entries > 0
    ensures var t := Registered(Registered(s, Some(k), 0), Some(k), entries);
            && Owned(t) && k in t.scoped && EmptyIn(t, k, t.scoped[k], |s.effects|)
            && Contributors(t, t.scoped[k]) != {} && |t.effects| == |s.effects| + 2
  {
    var shared := Registered(s, Some(k), 0);
    RegisteredKeeps(s, Some(k), 0);
    RegisteredKeeps(shared, Some(k), entries);
    var t := Registered(shared, Some(k), entries);
    assert t.effects[|s.effects|] == shared.effects[|s.effects|];
    assert |s.effects| + 1 in Contributors(t, t.scoped[k]);
  }

  /** The last step: the replacement is shown, and the empty registration's disposal hides it. */
  lemma Replaced(s: Layers, k: Scope.Key, layer: nat, empty: nat, entries: nat)
    requires Owned(s) && EmptyIn(s, k, layer, empty) && IsEmpty(s.effects, layer) && k !in s.scoped && entries > 0
    ensures var t := Registered(s, Some(k), entries);
            Owned(t) && Enabled(t, Dispose(empty)) && Seen(t, |s.effects|) && Drops(t, empty)
  {
    RegisteredKeeps(s, Some(k), entries);
    var t := Registered(s, Some(k), entries);
    assert forall j | 0 <= j < |s.effects| :: t.effects[j] == s.effects[j];
    assert forall j | 0 <= j < |t.effects| && t.effects[j].layer == layer :: j < |s.effects|;
    assert t.effects[|s.effects|].layer == t.scoped[k] && Contributes(t.effects[|s.effects|]);
  }

  /**
   * A registration that inserts nothing breaks this through every scope of every state, whether the
   * scope has a layer or not: when the layer it was given has been reclaimed and replaced, its
   * disposal drops the replacement and hides what is in it.
   */
  lemma EmptyRegistrationHides(s: Layers, k: Scope.Key, entries: nat) returns (actions: seq<Action>, replacement: nat)
    requires Owned(s) && entries > 0
    ensures Runs(s, actions)
    ensures var t, empty := Run(s, actions), |s.effects|;
            && Owned(t) && Enabled(t, Dispose(empty)) && t.effects[empty].entries == 0
            && replacement != empty && Seen(t, replacement) && !Seen(Disposed(t, empty), replacement)
  {
    hide Owned, Enabled, Step, Runs, Run, Contributors, Disposed, Seen, Drops;
    var shared := Registered(s, Some(k), 0);
    var filled := Registered(shared, Some(k), entries);
    Fills(s, k, entries);
    var layer, empty := filled.scoped[k], |s.effects|;
    var disposals := Reclaims(filled, k, layer, empty);
    var reclaimed := Run(filled, disposals);
    Replaced(reclaimed, k, layer, empty, entries);
    replacement := |reclaimed.effects|;
    actions := Assembled(s, k, entries, disposals);
    HidesLast(reclaimed, k, entries, empty);
  }

  lemma Assembled(s: Layers, k: Scope.Key, entries: nat, disposals: seq<Action>) returns (actions: seq<Action>)
    requires Runs(Registered(Registered(s, Some(k), 0), Some(k), entries), disposals)
    ensures Runs(s, actions)
    ensures Run(s, actions) ==
          Registered(Run(Registered(Registered(s, Some(k), 0), Some(k), entries), disposals), Some(k), entries)
  {
    hide Runs, Run, Registered;
    var empty, fill := Register(Some(k), 0), Register(Some(k), entries);
    var shared := Step(s, empty);
    var filled := Step(shared, fill);
    var reclaimed := Run(filled, disposals);
    NoSteps(Step(reclaimed, fill));
    Then(reclaimed, fill, []);
    Joined(filled, disposals, [fill] + []);
    Then(shared, fill, disposals + ([fill] + []));
    Then(s, empty, [fill] + (disposals + ([fill] + [])));
    actions := [empty] + ([fill] + (disposals + ([fill] + [])));
  }

  lemma NoSteps(s: Layers)
    ensures Runs(s, []) && Run(s, []) == s
  {
  }

  lemma HidesLast(s: Layers, k: Scope.Key, entries: nat, empty: nat)
    requires var t := Registered(s, Some(k), entries);
             Owned(t) && Enabled(t, Dispose(empty)) && Drops(t, empty) && t.effects[empty].scope == Some(k)
             && k !in s.scoped
    ensures var t := Registered(s, Some(k), entries); !Seen(Disposed(t, empty), |s.effects|)
  {
    var t := Registered(s, Some(k), entries);
    assert t.effects[|s.effects|].scope == Some(k);
  }

  class ScopedLayers {
    var scoped: map<Scope.Key, nat>
    var created: nat
    var effects: seq<Effect>

    function S(): Layers
      reads this
    {
      Layers(scoped, created, effects)
    }

    constructor ()
      ensures S() == INITIAL && Owned(S()) && Backed(S())
    {
      scoped, created, effects := map[], 1, [];
    }

    /** Attach one mutation to its registration scope. `entries` is none when the action throws. */
    method Register(scope: Option<Scope.Key>, entries: Option<nat>) returns (threw: bool)
      requires Owned(S())
      modifies this
      ensures threw == entries.None?
      ensures S() == if threw then Failed(old(S()), scope) else Registered(old(S()), scope, entries.value)
      ensures Owned(S()) && (Backed(old(S())) ==> Backed(S()))
      ensures forall j: nat | Seen(old(S()), j) :: Seen(S(), j)
      ensures threw ==> scoped == old(scoped) && effects == old(effects)
      ensures !threw ==>
                && |effects| == |old(effects)| + 1
                && var layer := effects[|old(effects)|].layer;
                   && effects == old(effects) + [Effect(scope, layer, entries.value, true)]
                   && if scope.None? || scope.value in old(scoped) then
                        scoped == old(scoped) && layer == if scope.None? then GLOBAL else scoped[scope.value]
                      else scoped == old(scoped)[scope.value := layer] && old(IsEmpty(effects, layer))
    {
      FailedKeeps(S(), scope);
      hide Owned, Backed, Seen, IsEmpty;
      var layer, isNew := GLOBAL, false;
      if scope.Some? {
        if scope.value in scoped {
          layer := scoped[scope.value];
        } else {
          layer := created;
          scoped, created, isNew := scoped[scope.value := layer], created + 1, true;
        }
      }
      if entries.None? {
        if isNew && IsEmpty(effects, layer) {
          scoped := scoped - {scope.value};
          assert scoped == old(scoped);
        }
        return true;
      }
      RegisteredKeeps(old(S()), scope, entries.value);
      effects := effects + [Effect(scope, layer, entries.value, true)];
      return false;
    }

    /**
     * The effect's disposer, which runs once. It hides another contribution exactly when it drops a
     * layer that is not its own.
     */
    method Dispose(i: nat)
      requires Owned(S()) && i < |effects| && effects[i].live
      modifies this
      ensures S() == Disposed(old(S()), i) && Owned(S())
      ensures KeepsShown(old(S()), S(), i) <==> !old(Drops(S(), i))
      ensures Backed(old(S())) ==> (Backed(S()) <==> !old(Drops(S(), i)))
    {
      DisposedOwned(S(), i);
      DisposedKeepsIff(S(), i);
      if Backed(S()) { BackedIff(S(), i); }
      hide Owned, Backed, KeepsShown, Drops, IsEmpty;
      var scope := effects[i].scope;
      effects := effects[i := effects[i].(live := false)];
      if scope.Some? && IsEmpty(effects, effects[i].layer) { scoped := scoped - {scope.value}; }
    }
  }
}
