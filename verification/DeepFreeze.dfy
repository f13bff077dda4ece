/**
 * Freezing a value in place: an iterative traversal of a finite, possibly cyclic object graph that
 * leaves abort signals, and whatever only they lead to, alone.
 *
 * Objects are positions in the graph; reading a property has no side effect.
 */
module DeepFreeze {

  /** What a property holds: a primitive, or an object of the graph. */
  datatype Value = Leaf | Object(node: nat)

  /** One object: whether it is an abort signal, and the values of its own enumerable properties. */
  datatype Node = Node(signal: bool, properties: seq<Value>)

  datatype Task = Visit(value: Value) | Property(source: nat, key: nat)

  predicate InGraph(graph: seq<Node>, v: Value) {
    v.Object? ==> v.node < |graph|
  }

  /** Every property leads into the graph. */
  predicate Closed(graph: seq<Node>) {
    forall n, k | 0 <= n < |graph| && 0 <= k < |graph[n].properties| :: InGraph(graph, graph[n].properties[k])
  }

  /** `path` leads from `root` through properties of objects that are not signals. */
  ghost predicate IsPath(graph: seq<Node>, root: Value, path: seq<nat>) {
    && path != [] && root == Object(path[0])
    && (forall i | 0 <= i < |path| :: path[i] < |graph| && !graph[path[i]].signal)
    && (forall i | 0 <= i < |path| - 1 :: Object(path[i + 1]) in graph[path[i]].properties)
  }

  /** `n` is reached from `root` without passing through, or being, a signal. */
  ghost predicate Reachable(graph: seq<Node>, root: Value, n: nat) {
    exists path: seq<nat> :: IsPath(graph, root, path) && path[|path| - 1] == n
  }

  lemma ReachableRoot(graph: seq<Node>, root: Value)
    requires root.Object? && root.node < |graph| && !graph[root.node].signal
    ensures Reachable(graph, root, root.node)
  {
    assert IsPath(graph, root, [root.node]);
  }

  lemma ReachableChild(graph: seq<Node>, root: Value, n: nat, child: nat)
    requires Reachable(graph, root, n) && n < |graph| && child < |graph| && !graph[child].signal
    requires Object(child) in graph[n].properties
    ensures Reachable(graph, root, child)
  {
    var path :| IsPath(graph, root, path) && path[|path| - 1] == n;
    var longer := path + [child];
    assert forall i | 0 <= i < |longer| - 1 :: Object(longer[i + 1]) in graph[longer[i]].properties;
    assert IsPath(graph, root, longer) && longer[|longer| - 1] == child;
  }

  /** The worklist may still turn up this value, or it needs no visit. */
  predicate Covered(graph: seq<Node>, seen: set<nat>, v: Value) {
    v.Leaf? || (v.node < |graph| && (graph[v.node].signal || v.node in seen))
  }

  /** Every property of a seen object is dealt with or still pending. */
  ghost predicate Frontier(graph: seq<Node>, seen: set<nat>, pending: seq<Task>) {
    forall n, k | n in seen && n < |graph| && 0 <= k < |graph[n].properties| ::
      Covered(graph, seen, graph[n].properties[k]) || Property(n, k) in pending
      || Visit(graph[n].properties[k]) in pending
  }

  /** A set that holds the root and is closed under properties holds everything reachable. */
  lemma {:induction false} ReachableSeen(graph: seq<Node>, root: Value, seen: set<nat>, path: seq<nat>)
    requires IsPath(graph, root, path)
    requires Covered(graph, seen, root) && Frontier(graph, seen, [])
    ensures path[|path| - 1] in seen
    decreases |path|
  {
    if |path| > 1 {
      var prefix := path[..|path| - 1];
      assert IsPath(graph, root, prefix);
      ReachableSeen(graph, root, seen, prefix);
      var n := prefix[|prefix| - 1];
      assert Object(path[|prefix|]) in graph[n].properties;
      var k :| 0 <= k < |graph[n].properties| && graph[n].properties[k] == Object(path[|path| - 1]);
      assert Covered(graph, seen, graph[n].properties[k]);
    }
  }

  /** A property task stands for itself and the visit it becomes. */
  function Weight(pending: seq<Task>): nat {
    if pending == [] then 0 else Weight(pending[..|pending| - 1]) + (if pending[|pending| - 1].Visit? then 1 else 2)
  }

  lemma WeightPush(pending: seq<Task>, task: Task)
    ensures Weight(pending + [task]) == Weight(pending) + (if task.Visit? then 1 else 2)
  {
  }

  /** What each pending task is about is reachable, or one property away from it. */
  ghost predicate Sound(graph: seq<Node>, root: Value, pending: seq<Task>) {
    forall t | t in pending ::
      match t
      case Visit(v) =>
        && InGraph(graph, v)
        && (v == root || exists n: nat :: n < |graph| && Reachable(graph, root, n) && v in graph[n].properties)
      case Property(n, k) => n < |graph| && Reachable(graph, root, n) && k < |graph[n].properties|
  }

  lemma VisitReaches(graph: seq<Node>, root: Value, pending: seq<Task>, v: Value)
    requires Sound(graph, root, pending) && Visit(v) in pending
    requires v.Object? && v.node < |graph| && !graph[v.node].signal
    ensures Reachable(graph, root, v.node)
  {
    if v == root {
      ReachableRoot(graph, root);
    } else {
      var n: nat :| n < |graph| && Reachable(graph, root, n) && v in graph[n].properties;
      ReachableChild(graph, root, n, v.node);
    }
  }

  /** The seen objects are among the graph's, so only finitely many are new. */
  lemma SeenBounded(graph: seq<Node>, seen: set<nat>)
    requires forall n | n in seen :: n < |graph|
    ensures |seen| <= |graph|
  {
    SubsetSize(seen, UpTo(|graph|));
  }

  function UpTo(count: nat): (all: set<nat>)
    ensures |all| == count && forall n: nat :: n in all <==> n < count
  {
    if count == 0 then {} else UpTo(count - 1) + {count - 1}
  }

  lemma {:induction false} SubsetSize(a: set<nat>, b: set<nat>)
    requires a <= b
    ensures |a| <= |b|
  {
    if a != {} {
      var x :| x in a;
      SubsetSize(a - {x}, b - {x});
    }
  }

  /**
   * Freeze a value in place. It terminates on every finite graph, freezes exactly the objects
   * reachable through objects that are not signals, and leaves every other object as it was.
   */
  method DeepFreeze(graph: seq<Node>, root: Value, frozen: array<bool>)
    requires Closed(graph) && InGraph(graph, root) && frozen.Length == |graph|
    modifies frozen
    ensures forall n: nat | n < |graph| :: frozen[n] == (old(frozen[n]) || Reachable(graph, root, n))
  {
    hide Reachable, Frontier, Sound;
    var seen: set<nat> := {};
    var pending := [Visit(root)];
    FirstTask(graph, root);
    while pending != []
      invariant forall n | n in seen :: n < |graph| && !graph[n].signal && Reachable(graph, root, n)
      invariant Sound(graph, root, pending) && Frontier(graph, seen, pending)
      invariant Covered(graph, seen, root) || Visit(root) in pending
      invariant forall n: nat | n < |graph| :: frozen[n] == (old(frozen[n]) || n in seen)
      decreases |graph| - |seen|, Weight(pending)
    {
      var task := pending[|pending| - 1];
      var rest := pending[..|pending| - 1];
      assert pending == rest + [task];
      WeightPush(rest, task);
      match task {
        case Property(source, key) =>
          PropertyTask(graph, root, seen, rest, source, key);
          WeightPush(rest, Visit(graph[source].properties[key]));
          pending := rest + [Visit(graph[source].properties[key])];
        case Visit(v) =>
          VisitInGraph(graph, root, pending, v);
          if v.Leaf? || graph[v.node].signal || v.node in seen {
            NothingToVisit(graph, root, seen, rest, v);
            pending := rest;
          } else {
            VisitReaches(graph, root, pending, v);
            NewNode(graph, root, seen, rest, v.node);
            SeenBounded(graph, seen + {v.node});
            seen := seen + {v.node};
            frozen[v.node] := true;
            pending := PushProperties(graph, v.node, rest);
          }
      }
    }
    forall n: nat | n < |graph| ensures n in seen <==> Reachable(graph, root, n) {
      SeenIsReachable(graph, root, seen, n);
    }
  }

  /** The tasks of one object's properties, the last property deepest. */
  function Properties(n: nat, low: nat, high: nat): (tasks: seq<Task>)
    requires low <= high
    ensures forall t | t in tasks :: t.Property? && t.source == n && low <= t.key && t.key < high
    ensures forall k: nat | low <= k < high :: Property(n, k) in tasks
    decreases high - low
  {
    if low == high then [] else Properties(n, low + 1, high) + [Property(n, low)]
  }

  /** Push the captured keys from the last to the first. */
  method PushProperties(graph: seq<Node>, n: nat, rest: seq<Task>) returns (pending: seq<Task>)
    requires n < |graph|
    ensures pending == rest + Properties(n, 0, |graph[n].properties|)
  {
    pending := rest;
    for index := |graph[n].properties| downto 0
      invariant pending == rest + Properties(n, index, |graph[n].properties|)
    {
      pending := pending + [Property(n, index)];
    }
  }

  lemma FirstTask(graph: seq<Node>, root: Value)
    requires InGraph(graph, root)
    ensures Sound(graph, root, [Visit(root)]) && Frontier(graph, {}, [Visit(root)])
  {
  }

  lemma VisitInGraph(graph: seq<Node>, root: Value, pending: seq<Task>, v: Value)
    requires Sound(graph, root, pending) && Visit(v) in pending
    ensures InGraph(graph, v)
  {
  }

  lemma PropertyTask(graph: seq<Node>, root: Value, seen: set<nat>, rest: seq<Task>, source: nat, key: nat)
    requires Closed(graph)
    requires Sound(graph, root, rest + [Property(source, key)]) && Frontier(graph, seen, rest + [Property(source, key)])
    ensures source < |graph| && key < |graph[source].properties|
    ensures var next := rest + [Visit(graph[source].properties[key])];
            && Sound(graph, root, next) && Frontier(graph, seen, next)
            && (Visit(root) in rest + [Property(source, key)] ==> Visit(root) in next)
  {
    assert Property(source, key) in rest + [Property(source, key)];
    var next := rest + [Visit(graph[source].properties[key])];
    assert graph[source].properties[key] in graph[source].properties;
    assert next[|rest|] == Visit(graph[source].properties[key]);
    assert forall t | t in rest :: t in next && t in rest + [Property(source, key)];
  }

  lemma NothingToVisit(graph: seq<Node>, root: Value, seen: set<nat>, rest: seq<Task>, v: Value)
    requires Sound(graph, root, rest + [Visit(v)]) && Frontier(graph, seen, rest + [Visit(v)])
    requires Covered(graph, seen, v)
    ensures Sound(graph, root, rest) && Frontier(graph, seen, rest)
    ensures Visit(root) in rest + [Visit(v)] ==> Covered(graph, seen, root) || Visit(root) in rest
  {
    assert forall t | t in rest :: t in rest + [Visit(v)];
  }

  lemma NewNode(graph: seq<Node>, root: Value, seen: set<nat>, rest: seq<Task>, n: nat)
    requires n < |graph| && Reachable(graph, root, n)
    requires Sound(graph, root, rest + [Visit(Object(n))]) && Frontier(graph, seen, rest + [Visit(Object(n))])
    ensures var next := rest + Properties(n, 0, |graph[n].properties|);
            && Sound(graph, root, next) && Frontier(graph, seen + {n}, next)
            && (Visit(root) in rest + [Visit(Object(n))] ==> Covered(graph, seen + {n}, root) || Visit(root) in next)
  {
    var tasks := Properties(n, 0, |graph[n].properties|);
    var next := rest + tasks;
    assert forall t | t in rest :: t in next && t in rest + [Visit(Object(n))];
    assert forall t | t in tasks :: t in next;
  }

  lemma SeenIsReachable(graph: seq<Node>, root: Value, seen: set<nat>, n: nat)
    requires n < |graph| && (n in seen ==> Reachable(graph, root, n))
    requires Covered(graph, seen, root) && Frontier(graph, seen, [])
    ensures n in seen <==> Reachable(graph, root, n)
  {
    if Reachable(graph, root, n) {
      var path :| IsPath(graph, root, path) && path[|path| - 1] == n;
      ReachableSeen(graph, root, seen, path);
    }
  }
}
