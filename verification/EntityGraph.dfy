/** The bounded breadth-first walk over the entity graph (app/entity/graph.py). */
module EntityGraph {
  import opened Wrappers
  import Text

  datatype EntityType = Ip | Host | User | Domain
  datatype Entity = Entity(kind: EntityType, key: string)

  datatype Relation = Relation(
    from: Entity, to: Entity, kind: string, confidence: real,
    validFrom: Option<int>, validUntil: Option<int>)

  datatype Edge = Edge(from: Entity, to: Entity, kind: string, confidence: real)

  /** What one traversal asks of the relation table. */
  datatype Query = Query(relations: seq<Relation>, kinds: seq<string>, now: int)

  // ---- node identifiers -------------------------------------------------

  function KindName(kind: EntityType): string {
    match kind case Ip => "ip" case Host => "host" case User => "user" case Domain => "domain"
  }

  function NodeId(e: Entity): string {
    KindName(e.kind) + ":" + e.key
  }

  /** The textual node identifier separates entities, so the walk may key its
      tables on the entity itself. */
  lemma NodeIdInjective(a: Entity, b: Entity)
    requires NodeId(a) == NodeId(b)
    ensures a == b
  {
    var n, m := |KindName(a.kind)|, |KindName(b.kind)|;
    assert NodeId(a)[n] == ':' && NodeId(b)[m] == ':';
    assert forall i :: 0 <= i < n ==> NodeId(a)[i] == KindName(a.kind)[i] != ':';
    assert forall i :: 0 <= i < m ==> NodeId(b)[i] == KindName(b.kind)[i] != ':';
    assert n == m;
    assert NodeId(a)[..n] == KindName(a.kind) && NodeId(b)[..m] == KindName(b.kind);
    assert NodeId(a)[0] == KindName(a.kind)[0] && NodeId(b)[0] == KindName(b.kind)[0];
    assert NodeId(a)[n + 1..] == a.key && NodeId(b)[m + 1..] == b.key;
  }

  // ---- the graph --------------------------------------------------------

  /** A relation counts when it is valid now and passes the kind filter (an empty filter passes all). */
  predicate Active(q: Query, r: Relation) {
    && !(r.validFrom.Some? && r.validFrom.value > q.now)
    && !(r.validUntil.Some? && r.validUntil.value < q.now)
    && (q.kinds == [] || r.kind in q.kinds)
  }

  predicate Touches(r: Relation, e: Entity) {
    r.from == e || r.to == e
  }

  /** The far end of a relation seen from e. */
  function FarEnd(r: Relation, e: Entity): Entity {
    if r.from == e then r.to else r.from
  }

  function EdgeOf(r: Relation): Edge {
    Edge(r.from, r.to, r.kind, r.confidence)
  }

  ghost predicate Adjacent(q: Query, a: Entity, b: Entity) {
    exists i :: 0 <= i < |q.relations| && Links(q, i, a, b)
  }

  ghost predicate Links(q: Query, i: nat, a: Entity, b: Entity)
    requires i < |q.relations|
  {
    var r := q.relations[i];
    Active(q, r) && Touches(r, a) && FarEnd(r, a) == b
  }

  // ---- reference definition: walks of bounded length --------------------

  ghost predicate Walk(q: Query, w: seq<Entity>) {
    |w| > 0 && forall i :: 0 <= i < |w| - 1 ==> Adjacent(q, w[i], w[i + 1])
  }

  /** b can be reached from a in at most k hops. */
  ghost predicate Within(q: Query, a: Entity, b: Entity, k: nat) {
    exists w :: Walk(q, w) && |w| <= k + 1 && w[0] == a && w[|w| - 1] == b
  }

  lemma WithinZero(q: Query, a: Entity, b: Entity)
    ensures Within(q, a, b, 0) <==> a == b
  {
    assert Walk(q, [a]);
  }

  lemma WithinStep(q: Query, a: Entity, b: Entity, c: Entity, k: nat)
    requires Within(q, a, b, k) && Adjacent(q, b, c)
    ensures Within(q, a, c, k + 1)
  {
    var w :| Walk(q, w) && |w| <= k + 1 && w[0] == a && w[|w| - 1] == b;
    assert Walk(q, w + [c]);
  }

  lemma WithinLast(q: Query, a: Entity, c: Entity, k: nat) returns (b: Entity)
    requires Within(q, a, c, k + 1) && !Within(q, a, c, k)
    ensures Within(q, a, b, k) && Adjacent(q, b, c)
  {
    var w :| Walk(q, w) && |w| <= k + 2 && w[0] == a && w[|w| - 1] == c;
    var v := w[..|w| - 1];
    assert |w| == k + 2;
    b := v[|v| - 1];
    assert Walk(q, v) && v[0] == a;
    assert Adjacent(q, w[k], w[k + 1]);
  }

  lemma WithinMonotone(q: Query, a: Entity, b: Entity, j: nat, k: nat)
    requires Within(q, a, b, j) && j <= k
    ensures Within(q, a, b, k)
  {
    var w :| Walk(q, w) && |w| <= j + 1 && w[0] == a && w[|w| - 1] == b;
    assert |w| <= k + 1;
  }

  lemma AdjacentSymmetric(q: Query, a: Entity, b: Entity)
    requires Adjacent(q, a, b)
    ensures Adjacent(q, b, a)
  {
    var i :| 0 <= i < |q.relations| && Links(q, i, a, b);
    assert Links(q, i, b, a);
  }

  lemma WithinClosed(q: Query, a: Entity, b: Entity, k: nat, visited: set<Entity>)
    requires Within(q, a, b, k) && a in visited
    requires forall v, w :: v in visited && Adjacent(q, v, w) ==> w in visited
    ensures b in visited
  {
    var w :| Walk(q, w) && |w| <= k + 1 && w[0] == a && w[|w| - 1] == b;
    var i := 0;
    while i < |w| - 1
      invariant 0 <= i <= |w| - 1 && w[i] in visited
    {
      assert Adjacent(q, w[i], w[i + 1]);
      i := i + 1;
    }
  }

  // ---- invariants of the walk -------------------------------------------

  /** Everything recorded or queued lies within its depth of the seed, and within the hop limit. */
  ghost predicate Sound(q: Query, seed: Entity, radius: nat, frontier: seq<(Entity, nat)>, depth: map<Entity, nat>) {
    && (forall v :: v in depth ==> depth[v] <= radius && Within(q, seed, v, depth[v]))
    && (forall i :: 0 <= i < |frontier| ==> frontier[i].1 <= radius && Within(q, seed, frontier[i].0, frontier[i].1))
  }

  ghost predicate Queued(frontier: seq<(Entity, nat)>, v: Entity) {
    exists i :: 0 <= i < |frontier| && frontier[i].0 == v
  }

  /** The queue is in depth order and spans at most two levels. */
  ghost predicate Layered(frontier: seq<(Entity, nat)>, level: nat) {
    && (forall i :: 0 <= i < |frontier| ==> level <= frontier[i].1 <= level + 1)
    && (forall i, j :: 0 <= i < j < |frontier| ==> frontier[i].1 <= frontier[j].1)
  }

  /** Nothing has been lost so far: `level` is the depth being popped. */
  ghost predicate Exact(q: Query, seed: Entity, radius: nat, frontier: seq<(Entity, nat)>,
                        depth: map<Entity, nat>, level: nat)
  {
    && level <= radius
    && Layered(frontier, level)
    && (forall v :: v in depth ==> depth[v] <= level && (depth[v] == 0 || !Within(q, seed, v, depth[v] - 1)))
    && (forall v :: Within(q, seed, v, level) ==> v in depth || (v, level) in frontier)
    && (level > 0 ==> forall v :: Within(q, seed, v, level - 1) ==> v in depth)
    && (forall v, w :: v in depth && depth[v] < radius && Adjacent(q, v, w) ==> w in depth || Queued(frontier, w))
  }

  /** Once the queue holds only the next level, that level can be now. */
  lemma OpenLevel(q: Query, seed: Entity, radius: nat, frontier: seq<(Entity, nat)>, depth: map<Entity, nat>,
    level: nat)
    requires Exact(q, seed, radius, frontier, depth, level)
    requires |frontier| > 0 && frontier[0].1 == level + 1 <= radius
    ensures Exact(q, seed, radius, frontier, depth, level + 1)
  {
    assert (forall v :: Within(q, seed, v, level) ==> v in depth) by {
      assert forall i :: 0 <= i < |frontier| ==> frontier[0].1 <= frontier[i].1;
    }
    forall v | Within(q, seed, v, level + 1) ensures v in depth || (v, level + 1) in frontier {
      if !Within(q, seed, v, level) {
        var b := WithinLast(q, seed, v, level);
        if v !in depth {
          assert Queued(frontier, v);
          var i :| 0 <= i < |frontier| && frontier[i].0 == v;
          assert frontier[0].1 <= frontier[i].1;
          assert frontier[i] == (v, level + 1);
        }
      }
    }
  }

  /** Dropping a queue entry that was already recorded loses nothing. */
  lemma DropDuplicate(q: Query, seed: Entity, radius: nat, frontier: seq<(Entity, nat)>, depth: map<Entity, nat>,
    level: nat)
    requires Exact(q, seed, radius, frontier, depth, level)
    requires |frontier| > 0 && frontier[0].0 in depth
    ensures Exact(q, seed, radius, frontier[1..], depth, level)
  {
    var rest := frontier[1..];
    assert frontier == [frontier[0]] + rest;
    forall v, w | v in depth && depth[v] < radius && Adjacent(q, v, w) ensures w in depth || Queued(rest, w) {
      if w !in depth {
        var i :| 0 <= i < |frontier| && frontier[i].0 == w;
        assert rest[i - 1].0 == w;
      }
    }
  }

  lemma LayeredNext(frontier: seq<(Entity, nat)>, added: seq<(Entity, nat)>, level: nat)
    requires Layered(frontier, level) && |frontier| > 0
    requires forall i :: 0 <= i < |added| ==> added[i].1 == level + 1
    ensures Layered(frontier[1..] + added, level)
  {
  }

  /** Recording the head of the queue and queueing all its unseen neighbours keeps the walk exact. */
  lemma RecordHead(q: Query, seed: Entity, radius: nat, frontier: seq<(Entity, nat)>, depth: map<Entity, nat>,
                   level: nat, added: seq<(Entity, nat)>)
    requires Exact(q, seed, radius, frontier, depth, level)
    requires |frontier| > 0 && frontier[0].1 == level && frontier[0].0 !in depth
    requires forall i :: 0 <= i < |added| ==> added[i].1 == level + 1
    requires var u := frontier[0].0;
      level < radius ==>
        forall w :: Adjacent(q, u, w) ==> w in depth || w == u || Queued(frontier[1..] + added, w)
    ensures Exact(q, seed, radius, frontier[1..] + added, depth[frontier[0].0 := level], level)
  {
    var u, rest := frontier[0].0, frontier[1..];
    var next, depth' := rest + added, depth[u := level];
    assert frontier == [frontier[0]] + rest;
    LayeredNext(frontier, added, level);
    if level > 0 { assert !Within(q, seed, u, level - 1); }
    forall v | Within(q, seed, v, level) ensures v in depth' || (v, level) in next {
      if v !in depth' {
        assert (v, level) in rest;
      }
    }
    forall v, w | v in depth' && depth'[v] < radius && Adjacent(q, v, w) ensures w in depth' || Queued(next, w) {
      if v != u && w !in depth' {
        var i :| 0 <= i < |frontier| && frontier[i].0 == w;
        assert next[i - 1].0 == w;
      }
    }
  }

  /** An empty queue means the whole ball has been recorded. */
  lemma QueueDrained(q: Query, seed: Entity, radius: nat, depth: map<Entity, nat>, level: nat)
    requires Exact(q, seed, radius, [], depth, level)
    requires Sound(q, seed, radius, [], depth)
    ensures forall v :: v in depth <==> Within(q, seed, v, radius)
  {
    WithinZero(q, seed, seed);
    WithinMonotone(q, seed, seed, 0, level);
    forall v ensures v in depth <==> Within(q, seed, v, radius) {
      if v in depth {
        WithinMonotone(q, seed, v, depth[v], radius);
      } else if Within(q, seed, v, radius) && level < radius {
        assert forall a, b :: a in depth && Adjacent(q, a, b) ==> b in depth.Keys || Queued([], b);
        WithinClosed(q, seed, v, radius, depth.Keys);
      }
    }
  }

  // ---- the walk as a function -------------------------------------------

  /** Relation i leads from u to an entity that has not been recorded. */
  predicate Unseen(q: Query, i: nat, u: Entity, seen: seq<Entity>)
    requires i < |q.relations|
  {
    Active(q, q.relations[i]) && Touches(q.relations[i], u) && FarEnd(q.relations[i], u) !in seen
  }

  /** The queue after offering the neighbour over relation i of u: it is refused when nodes and queue
      together have reached the cap. */
  function OfferOne(q: Query, i: nat, u: Entity, d: nat, seen: seq<Entity>, queue: seq<(Entity, nat)>, maxNodes: int)
    : (r: seq<(Entity, nat)>)
    requires i < |q.relations|
    ensures queue <= r
  {
    if Unseen(q, i, u, seen) && |seen| + |queue| < maxNodes then queue + [(FarEnd(q.relations[i], u), d + 1)] else queue
  }

  /** The queue after offering the neighbours over relations i, i+1, ... of u. */
  function Offer(q: Query, i: nat, u: Entity, d: nat, seen: seq<Entity>, queue: seq<(Entity, nat)>, maxNodes: int)
    : seq<(Entity, nat)>
    requires i <= |q.relations|
    decreases |q.relations| - i
  {
    if i == |q.relations| then queue
    else Offer(q, i + 1, u, d, seen, OfferOne(q, i, u, d, seen, queue, maxNodes), maxNodes)
  }

  /** Some neighbour over relations i, i+1, ... of u is refused. */
  predicate Refuses(q: Query, i: nat, u: Entity, d: nat, seen: seq<Entity>, queue: seq<(Entity, nat)>, maxNodes: int)
    requires i <= |q.relations|
    decreases |q.relations| - i
  {
    i < |q.relations| &&
    ((Unseen(q, i, u, seen) && |seen| + |queue| >= maxNodes) ||
     Refuses(q, i + 1, u, d, seen, OfferOne(q, i, u, d, seen, queue, maxNodes), maxNodes))
  }

  /** The edges reported while expanding u: its active relations among the first n, in table order. */
  function ReportBefore(q: Query, n: nat, u: Entity): seq<Edge>
    requires n <= |q.relations|
  {
    if n == 0 then [] else
    var r := q.relations[n - 1];
    ReportBefore(q, n - 1, u) + if Active(q, r) && Touches(r, u) then [EdgeOf(r)] else []
  }

  /** What a walk has recorded: its nodes in the order they were popped, its edges, the depth at which
      each node was popped, and whether a neighbour has been refused. */
  datatype Trace = Trace(nodes: seq<Entity>, edges: seq<Edge>, depth: map<Entity, nat>, refused: bool)

  /** Popping u at depth d, with `rest` left in the queue. */
  function Pop(q: Query, maxHops: int, maxNodes: int, t: Trace, u: Entity, d: nat, rest: seq<(Entity, nat)>): Trace {
    var nodes, depth := t.nodes + [u], t.depth[u := d];
    if d >= maxHops then Trace(nodes, t.edges, depth, t.refused) else
    Trace(nodes, t.edges + ReportBefore(q, |q.relations|, u), depth,
          t.refused || Refuses(q, 0, u, d, nodes, rest, maxNodes))
  }

  function Requeue(q: Query, maxHops: int, maxNodes: int, t: Trace, u: Entity, d: nat, rest: seq<(Entity, nat)>)
    : seq<(Entity, nat)>
  {
    if d >= maxHops then rest else Offer(q, 0, u, d, t.nodes + [u], rest, maxNodes)
  }

  /** The walk from a given trace and queue on. */
  function WalkFrom(q: Query, maxHops: int, maxNodes: int, t: Trace, frontier: seq<(Entity, nat)>): Trace
    decreases maxNodes - |t.nodes|, |frontier|
  {
    if frontier == [] || |t.nodes| >= maxNodes then t else
    var (u, d) := frontier[0];
    if u in t.nodes then WalkFrom(q, maxHops, maxNodes, t, frontier[1..]) else
    WalkFrom(q, maxHops, maxNodes, Pop(q, maxHops, maxNodes, t, u, d, frontier[1..]),
             Requeue(q, maxHops, maxNodes, t, u, d, frontier[1..]))
  }

  const Nothing: Trace := Trace([], [], map[], false)

  /** The walk from `seed`. */
  function Walked(q: Query, seed: Entity, maxHops: int, maxNodes: int): Trace {
    WalkFrom(q, maxHops, maxNodes, Nothing, [(seed, 0)])
  }

  // ---- the cost of a walk -----------------------------------------------

  /** Relation i is active and touches an entity that the walk may expand. */
  ghost predicate Near(q: Query, seed: Entity, radius: nat, i: nat)
    requires i < |q.relations|
  {
    var r := q.relations[i];
    Active(q, r) && radius > 0 && (Within(q, seed, r.from, radius - 1) || Within(q, seed, r.to, radius - 1))
  }

  ghost function NearRelations(q: Query, seed: Entity, radius: nat): set<nat> {
    set i: nat | i < |q.relations| && Near(q, seed, radius, i)
  }

  lemma SubsetSize(a: set<nat>, b: set<nat>)
    requires a <= b
    ensures |a| <= |b|
  {
    assert b == a + (b - a);
  }

  /** Relations that queued a neighbour: one of the ends of each had been recorded before. */
  ghost predicate Charged(q: Query, used: set<nat>, nodes: seq<Entity>) {
    forall i :: i in used ==> i < |q.relations| && (q.relations[i].from in nodes || q.relations[i].to in nodes)
  }

  /** Relations from index n on that are already charged are charged to an end other than u. */
  ghost predicate Charging(q: Query, n: nat, u: Entity, seen: seq<Entity>, used: set<nat>) {
    && Charged(q, used, seen)
    && forall j :: j in used && j >= n ==> exists e :: e in seen && e != u && Touches(q.relations[j], e)
  }

  /** Nodes and queue fit the cap, and but for the seed every one of them is paid for by a near relation. */
  ghost predicate Paid(size: nat, maxNodes: int, used: set<nat>, near: set<nat>) {
    size <= maxNodes && size <= 1 + |used| && used <= near
  }

  lemma ChargeNext(q: Query, i: nat, u: Entity, seen: seq<Entity>, used: set<nat>, near: set<nat>)
    requires i < |q.relations| && Unseen(q, i, u, seen) && Charging(q, i, u, seen, used)
    requires u in seen && used <= near && i in near
    ensures i !in used && Charging(q, i + 1, u, seen, used + {i})
    ensures |used| < |near|
  {
    SubsetSize(used + {i}, near);
  }

  /** Offering one neighbour keeps the account. */
  lemma OfferOnePaid(q: Query, i: nat, u: Entity, d: nat, seen: seq<Entity>, queue: seq<(Entity, nat)>,
                     maxNodes: int, used: set<nat>, near: set<nat>)
    returns (used': set<nat>)
    requires i < |q.relations| && u in seen && Paid(|seen| + |queue|, maxNodes, used, near)
    requires Charging(q, i, u, seen, used)
    requires Active(q, q.relations[i]) && Touches(q.relations[i], u) ==> i in near
    ensures Paid(|seen| + |OfferOne(q, i, u, d, seen, queue, maxNodes)|, maxNodes, used', near)
    ensures Charging(q, i + 1, u, seen, used')
    ensures Unseen(q, i, u, seen) && |seen| + |queue| >= maxNodes ==> maxNodes <= |near|
  {
    used' := used;
    if Unseen(q, i, u, seen) {
      ChargeNext(q, i, u, seen, used, near);
      if |seen| + |queue| < maxNodes { used' := used + {i}; }
    }
  }

  /** Offering neighbours keeps the account; a refusal means that the near relations reach the cap. */
  lemma {:induction false} OfferPaid(q: Query, i: nat, u: Entity, d: nat, seen: seq<Entity>, queue: seq<(Entity, nat)>,
                                     maxNodes: int, used: set<nat>, near: set<nat>)
    returns (used': set<nat>)
    requires i <= |q.relations| && u in seen && Paid(|seen| + |queue|, maxNodes, used, near)
    requires Charging(q, i, u, seen, used)
    requires forall j :: i <= j < |q.relations| && Active(q, q.relations[j]) && Touches(q.relations[j], u) ==> j in near
    ensures Paid(|seen| + |Offer(q, i, u, d, seen, queue, maxNodes)|, maxNodes, used', near) && Charged(q, used', seen)
    ensures Refuses(q, i, u, d, seen, queue, maxNodes) ==> maxNodes <= |near|
    decreases |q.relations| - i
  {
    used' := used;
    if i < |q.relations| {
      used' := OfferOnePaid(q, i, u, d, seen, queue, maxNodes, used, near);
      used' := OfferPaid(q, i + 1, u, d, seen, OfferOne(q, i, u, d, seen, queue, maxNodes), maxNodes, used', near);
    }
  }

  /** Offering only adds neighbours of u at the next depth. */
  lemma {:induction false} OfferAdds(q: Query, i: nat, u: Entity, d: nat, seen: seq<Entity>, queue: seq<(Entity, nat)>,
                                     maxNodes: int)
    requires i <= |q.relations|
    ensures var r := Offer(q, i, u, d, seen, queue, maxNodes);
      queue <= r && forall j :: |queue| <= j < |r| ==> r[j].1 == d + 1 && Adjacent(q, u, r[j].0)
    decreases |q.relations| - i
  {
    if i < |q.relations| {
      var next := OfferOne(q, i, u, d, seen, queue, maxNodes);
      OfferAdds(q, i + 1, u, d, seen, next, maxNodes);
      if next != queue { assert Links(q, i, u, next[|queue|].0); }
    }
  }

  /** Without a refusal every neighbour of u has been recorded or queued. */
  lemma {:induction false} OfferQueues(q: Query, i: nat, u: Entity, d: nat, seen: seq<Entity>,
    queue: seq<(Entity, nat)>,
                                       maxNodes: int, k: nat, w: Entity)
    requires i <= k < |q.relations| && Links(q, k, u, w) && !Refuses(q, i, u, d, seen, queue, maxNodes)
    ensures w in seen || Queued(Offer(q, i, u, d, seen, queue, maxNodes), w)
    decreases |q.relations| - i
  {
    var next := OfferOne(q, i, u, d, seen, queue, maxNodes);
    if i < k {
      OfferQueues(q, i + 1, u, d, seen, next, maxNodes, k, w);
    } else if w !in seen {
      OfferAdds(q, i + 1, u, d, seen, next, maxNodes);
      assert Offer(q, i + 1, u, d, seen, next, maxNodes)[|queue|] == next[|queue|] == (w, d + 1);
    }
  }

  lemma AllQueued(q: Query, u: Entity, d: nat, seen: seq<Entity>, queue: seq<(Entity, nat)>, maxNodes: int)
    requires !Refuses(q, 0, u, d, seen, queue, maxNodes)
    ensures forall w :: Adjacent(q, u, w) ==> w in seen || Queued(Offer(q, 0, u, d, seen, queue, maxNodes), w)
  {
    forall w | Adjacent(q, u, w) ensures w in seen || Queued(Offer(q, 0, u, d, seen, queue, maxNodes), w) {
      var k :| 0 <= k < |q.relations| && Links(q, k, u, w);
      OfferQueues(q, 0, u, d, seen, queue, maxNodes, k, w);
    }
  }

  // ---- the reported edges -----------------------------------------------

  ghost predicate EdgesBefore(q: Query, n: nat, u: Entity, found: seq<Edge>)
    requires n <= |q.relations|
  {
    forall e :: e in found <==> exists i :: 0 <= i < n && ReportsAt(q, i, u, e)
  }

  ghost predicate EdgesAt(q: Query, u: Entity, found: seq<Edge>) {
    EdgesBefore(q, |q.relations|, u, found)
  }

  ghost predicate ReportsAt(q: Query, i: nat, u: Entity, e: Edge)
    requires i < |q.relations|
  {
    var r := q.relations[i];
    Active(q, r) && Touches(r, u) && e == Edge(r.from, r.to, r.kind, r.confidence)
  }

  lemma {:induction false} ReportExact(q: Query, n: nat, u: Entity)
    requires n <= |q.relations|
    ensures EdgesBefore(q, n, u, ReportBefore(q, n, u))
  {
    if n > 0 {
      var before, after := ReportBefore(q, n - 1, u), ReportBefore(q, n, u);
      ReportExact(q, n - 1, u);
      forall e ensures e in after <==> exists k :: 0 <= k < n && ReportsAt(q, k, u, e) {
        if e in before {
          var k :| 0 <= k < n - 1 && ReportsAt(q, k, u, e);
          assert k < n;
        } else if e in after {
          assert ReportsAt(q, n - 1, u, e);
        }
      }
    }
  }

  /** The relations that are reported, by their place in the table. */
  function Reported(q: Query, n: nat, u: Entity): (r: seq<nat>)
    requires n <= |q.relations|
    ensures forall i :: 0 <= i < |r| ==> r[i] < n
  {
    if n == 0 then [] else
    Reported(q, n - 1, u) + if Active(q, q.relations[n - 1]) && Touches(q.relations[n - 1], u) then [n - 1] else []
  }

  /** Every relation of the entity is reported once, in the order of the table. */
  lemma {:induction false} ReportOrdered(q: Query, n: nat, u: Entity)
    requires n <= |q.relations|
    ensures var at, edges := Reported(q, n, u), ReportBefore(q, n, u);
      && |edges| == |at| && (forall i, j :: 0 <= i < j < |at| ==> at[i] < at[j])
      && (forall i :: 0 <= i < |at| ==> ReportsAt(q, at[i], u, edges[i]))
  {
    if n > 0 { ReportOrdered(q, n - 1, u); }
  }

  lemma {:induction false} ReportedExact(q: Query, n: nat, u: Entity, k: nat)
    requires k < n <= |q.relations|
    ensures k in Reported(q, n, u) <==> Active(q, q.relations[k]) && Touches(q.relations[k], u)
  {
    if k < n - 1 { ReportedExact(q, n - 1, u, k); }
  }

  /** The edges are exactly the active relations of the expanded nodes. */
  ghost predicate EdgesOf(q: Query, edges: seq<Edge>, depth: map<Entity, nat>, radius: nat) {
    && (forall e :: e in edges ==>
          exists i :: 0 <= i < |q.relations| && ExpandedEdge(q, i, e, depth, radius))
    && (forall i, v ::
          0 <= i < |q.relations| && v in depth && depth[v] < radius && Active(q, q.relations[i]) &&
            Touches(q.relations[i], v)
          ==> EdgeOf(q.relations[i]) in edges)
  }

  /** e reports active relation i, one end of which was expanded. */
  ghost predicate ExpandedEdge(q: Query, i: nat, e: Edge, depth: map<Entity, nat>, radius: nat)
    requires i < |q.relations|
  {
    var r := q.relations[i];
    && Active(q, r) && e == Edge(r.from, r.to, r.kind, r.confidence)
    && ((r.from in depth && depth[r.from] < radius) || (r.to in depth && depth[r.to] < radius))
  }

  lemma EdgesRecord(q: Query, edges: seq<Edge>, found: seq<Edge>, depth: map<Entity, nat>, u: Entity, d: nat,
    radius: nat)
    requires EdgesOf(q, edges, depth, radius) && u !in depth
    requires if d >= radius then found == [] else EdgesAt(q, u, found)
    ensures EdgesOf(q, edges + found, depth[u := d], radius)
  {
    var depth' := depth[u := d];
    forall e | e in edges + found ensures exists i :: 0 <= i < |q.relations| && ExpandedEdge(q, i, e, depth', radius) {
      if e in edges {
        var i :| 0 <= i < |q.relations| && ExpandedEdge(q, i, e, depth, radius);
        assert ExpandedEdge(q, i, e, depth', radius);
      } else {
        var i :| 0 <= i < |q.relations| && ReportsAt(q, i, u, e);
        assert ExpandedEdge(q, i, e, depth', radius);
      }
    }
    forall i, v | 0 <= i < |q.relations| && v in depth' && depth'[v] < radius && Active(q, q.relations[i]) &&
      Touches(q.relations[i], v)
      ensures EdgeOf(q.relations[i]) in edges + found
    {
      if v == u { assert ReportsAt(q, i, u, EdgeOf(q.relations[i])); }
    }
  }

  // ---- the invariant of the walk ----------------------------------------

  /** A walk under way. `used` holds the relations that queued something, `level` the depth being popped. */
  datatype Progress = Progress(t: Trace, frontier: seq<(Entity, nat)>, used: set<nat>, level: nat)

  datatype Bounds = Bounds(seed: Entity, radius: nat, maxNodes: int)

  ghost predicate Recorded(nodes: seq<Entity>, depth: map<Entity, nat>) {
    Distinct(nodes) && forall v :: v in nodes <==> v in depth
  }

  ghost predicate InDepthOrder(nodes: seq<Entity>, depth: map<Entity, nat>) {
    forall i, j :: 0 <= i < j < |nodes| ==>
      nodes[i] in depth && nodes[j] in depth && depth[nodes[i]] <= depth[nodes[j]]
  }

  ghost predicate SeedFirst(b: Bounds, t: Trace) {
    t.nodes != [] && t.nodes[0] == b.seed && b.seed in t.depth && t.depth[b.seed] == 0
  }

  ghost predicate Account(q: Query, b: Bounds, p: Progress) {
    && Paid(|p.t.nodes| + |p.frontier|, b.maxNodes, p.used, NearRelations(q, b.seed, b.radius))
    && Charged(q, p.used, p.t.nodes)
    && (p.t.refused ==> b.maxNodes <= |NearRelations(q, b.seed, b.radius)|)
  }

  ghost predicate Good(q: Query, b: Bounds, p: Progress) {
    && Account(q, b, p)
    && Recorded(p.t.nodes, p.t.depth)
    && (if p.t.nodes == [] then p.frontier == [(b.seed, 0)] else SeedFirst(b, p.t))
    && Sound(q, b.seed, b.radius, p.frontier, p.t.depth)
    && EdgesOf(q, p.t.edges, p.t.depth, b.radius)
    && (!p.t.refused ==> Sharp(q, b, p))
  }

  /** Nothing has been lost so far. */
  ghost predicate Sharp(q: Query, b: Bounds, p: Progress) {
    Exact(q, b.seed, b.radius, p.frontier, p.t.depth, p.level) && InDepthOrder(p.t.nodes, p.t.depth)
  }

  lemma GoodStart(q: Query, b: Bounds)
    requires b.maxNodes >= 1
    ensures Good(q, b, Progress(Nothing, [(b.seed, 0)], {}, 0))
  {
    forall v ensures Within(q, b.seed, v, 0) <==> v == b.seed { WithinZero(q, b.seed, v); }
    assert (b.seed, 0) in [(b.seed, 0)];
  }

  lemma GoodOpen(q: Query, b: Bounds, p: Progress) returns (level: nat)
    requires Good(q, b, p) && |p.frontier| > 0
    ensures Good(q, b, p.(level := level))
    ensures !p.t.refused ==> p.frontier[0].1 == level
  {
    level := p.level;
    if !p.t.refused && p.frontier[0].1 != level {
      OpenLevel(q, b.seed, b.radius, p.frontier, p.t.depth, level);
      level := level + 1;
    }
  }

  lemma GoodDrop(q: Query, b: Bounds, p: Progress)
    requires Good(q, b, p) && |p.frontier| > 0 && p.frontier[0].0 in p.t.depth
    ensures Good(q, b, p.(frontier := p.frontier[1..]))
  {
    if !p.t.refused { DropDuplicate(q, b.seed, b.radius, p.frontier, p.t.depth, p.level); }
  }

  /** The relations of an entity that is expanded are near. */
  lemma ExpandedIsNear(q: Query, b: Bounds, u: Entity, d: nat)
    requires Within(q, b.seed, u, d) && d < b.radius
    ensures forall j :: 0 <= j < |q.relations| && Active(q, q.relations[j]) && Touches(q.relations[j], u) ==>
      j in NearRelations(q, b.seed, b.radius)
  {
    WithinMonotone(q, b.seed, u, d, b.radius - 1);
  }

  /** The progress after the head of the queue has been popped as a new entity. */
  ghost function Popped(q: Query, b: Bounds, maxHops: int, p: Progress, used: set<nat>): Progress
    requires |p.frontier| > 0
  {
    var (u, d) := p.frontier[0];
    Progress(Pop(q, maxHops, b.maxNodes, p.t, u, d, p.frontier[1..]),
             Requeue(q, maxHops, b.maxNodes, p.t, u, d, p.frontier[1..]), used, p.level)
  }

  /** The account after the head of the queue has been popped. */
  lemma PopPaid(q: Query, b: Bounds, maxHops: int, p: Progress) returns (used: set<nat>)
    requires Account(q, b, p) && b.radius == Max(maxHops, 0) && |p.frontier| > 0 && p.frontier[0].0 !in p.t.nodes
    requires Within(q, b.seed, p.frontier[0].0, p.frontier[0].1)
    ensures Account(q, b, Popped(q, b, maxHops, p, used))
  {
    var (u, d) := p.frontier[0];
    used := p.used;
    if d < maxHops {
      ExpandedIsNear(q, b, u, d);
      PopCharging(q, p.t.nodes, u, p.used);
      used := OfferPaid(q, 0, u, d, p.t.nodes + [u], p.frontier[1..], b.maxNodes, p.used,
                        NearRelations(q, b.seed, b.radius));
    }
  }

  lemma PopCharging(q: Query, nodes: seq<Entity>, u: Entity, used: set<nat>)
    requires Charged(q, used, nodes) && u !in nodes
    ensures Charging(q, 0, u, nodes + [u], used)
  {
    forall j | j in used ensures exists e :: e in nodes + [u] && e != u && Touches(q.relations[j], e) {
      var e := if q.relations[j].from in nodes then q.relations[j].from else q.relations[j].to;
      assert e in nodes && Touches(q.relations[j], e);
    }
  }

  lemma SoundRecord(q: Query, seed: Entity, radius: nat, frontier: seq<(Entity, nat)>, depth: map<Entity, nat>,
                    next: seq<(Entity, nat)>)
    requires Sound(q, seed, radius, frontier, depth) && |frontier| > 0
    requires frontier[1..] <= next && (frontier[0].1 >= radius ==> next == frontier[1..])
    requires forall j :: |frontier| - 1 <= j < |next| ==>
      next[j].1 == frontier[0].1 + 1 && Adjacent(q, frontier[0].0, next[j].0)
    ensures Sound(q, seed, radius, next, depth[frontier[0].0 := frontier[0].1])
  {
    forall j | 0 <= j < |next| ensures next[j].1 <= radius && Within(q, seed, next[j].0, next[j].1) {
      if j < |frontier| - 1 {
        assert next[j] == frontier[1..][j] == frontier[j + 1];
      } else {
        WithinStep(q, seed, frontier[0].0, next[j].0, frontier[0].1);
      }
    }
  }

  lemma PopSound(q: Query, b: Bounds, maxHops: int, p: Progress, used: set<nat>)
    requires Sound(q, b.seed, b.radius, p.frontier, p.t.depth) && b.radius == Max(maxHops, 0) && |p.frontier| > 0
    ensures var p' := Popped(q, b, maxHops, p, used); Sound(q, b.seed, b.radius, p'.frontier, p'.t.depth)
  {
    var (u, d) := p.frontier[0];
    OfferAdds(q, 0, u, d, p.t.nodes + [u], p.frontier[1..], b.maxNodes);
    SoundRecord(q, b.seed, b.radius, p.frontier, p.t.depth,
      Requeue(q, maxHops, b.maxNodes, p.t, u, d, p.frontier[1..]));
  }

  lemma PopEdges(q: Query, b: Bounds, maxHops: int, p: Progress, used: set<nat>)
    requires EdgesOf(q, p.t.edges, p.t.depth, b.radius) && b.radius == Max(maxHops, 0)
    requires |p.frontier| > 0 && p.frontier[0].0 !in p.t.depth
    ensures var t := Popped(q, b, maxHops, p, used).t; EdgesOf(q, t.edges, t.depth, b.radius)
  {
    var (u, d) := p.frontier[0];
    ReportExact(q, |q.relations|, u);
    var found := if d >= maxHops then [] else ReportBefore(q, |q.relations|, u);
    EdgesRecord(q, p.t.edges, found, p.t.depth, u, d, b.radius);
    assert p.t.edges + [] == p.t.edges;
  }

  /** What the queue gains by popping u, when nothing is refused. */
  lemma RequeueAdds(q: Query, maxHops: int, maxNodes: int, t: Trace, u: Entity, d: nat, rest: seq<(Entity, nat)>)
    returns (added: seq<(Entity, nat)>)
    requires d < maxHops ==> !Refuses(q, 0, u, d, t.nodes + [u], rest, maxNodes)
    ensures Requeue(q, maxHops, maxNodes, t, u, d, rest) == rest + added
    ensures forall i :: 0 <= i < |added| ==> added[i].1 == d + 1
    ensures d < maxHops ==> forall w :: Adjacent(q, u, w) ==> w in t.nodes || w == u || Queued(rest + added, w)
  {
    var next := Requeue(q, maxHops, maxNodes, t, u, d, rest);
    OfferAdds(q, 0, u, d, t.nodes + [u], rest, maxNodes);
    added := next[|rest|..];
    assert next == rest + added;
    if d < maxHops { AllQueued(q, u, d, t.nodes + [u], rest, maxNodes); }
  }

  lemma PopExact(q: Query, b: Bounds, maxHops: int, p: Progress)
    requires Exact(q, b.seed, b.radius, p.frontier, p.t.depth, p.level) && b.radius == Max(maxHops, 0)
    requires Recorded(p.t.nodes, p.t.depth)
    requires |p.frontier| > 0 && p.frontier[0].0 !in p.t.depth && p.frontier[0].1 == p.level
    requires p.level < maxHops ==>
      !Refuses(q, 0, p.frontier[0].0, p.level, p.t.nodes + [p.frontier[0].0], p.frontier[1..], b.maxNodes)
    ensures Exact(q, b.seed, b.radius, Requeue(q, maxHops, b.maxNodes, p.t, p.frontier[0].0, p.level, p.frontier[1..]),
                  p.t.depth[p.frontier[0].0 := p.level], p.level)
  {
    var added := RequeueAdds(q, maxHops, b.maxNodes, p.t, p.frontier[0].0, p.level, p.frontier[1..]);
    RecordHead(q, b.seed, b.radius, p.frontier, p.t.depth, p.level, added);
  }

  lemma PopRecorded(b: Bounds, t: Trace, u: Entity, d: nat, t': Trace)
    requires Recorded(t.nodes, t.depth) && u !in t.depth
    requires if t.nodes == [] then u == b.seed && d == 0 else SeedFirst(b, t)
    requires t'.nodes == t.nodes + [u] && t'.depth == t.depth[u := d]
    ensures Recorded(t'.nodes, t'.depth) && SeedFirst(b, t')
  {
  }

  lemma PopOrder(nodes: seq<Entity>, depth: map<Entity, nat>, u: Entity, level: nat)
    requires Recorded(nodes, depth) && InDepthOrder(nodes, depth) && u !in depth
    requires forall v :: v in depth ==> depth[v] <= level
    ensures InDepthOrder(nodes + [u], depth[u := level])
  {
  }

  lemma PopSharp(q: Query, b: Bounds, maxHops: int, p: Progress, used: set<nat>)
    requires |p.frontier| > 0 && !Popped(q, b, maxHops, p, used).t.refused && b.radius == Max(maxHops, 0)
    requires Exact(q, b.seed, b.radius, p.frontier, p.t.depth, p.level) && InDepthOrder(p.t.nodes, p.t.depth)
    requires Recorded(p.t.nodes, p.t.depth) && p.frontier[0].0 !in p.t.depth && p.frontier[0].1 == p.level
    ensures Sharp(q, b, Popped(q, b, maxHops, p, used))
  {
    PopExact(q, b, maxHops, p);
    PopOrder(p.t.nodes, p.t.depth, p.frontier[0].0, p.level);
  }

  /** Popping a new entity keeps the invariant. */
  lemma GoodPop(q: Query, b: Bounds, maxHops: int, p: Progress) returns (used: set<nat>)
    requires Good(q, b, p) && b.radius == Max(maxHops, 0) && |p.frontier| > 0 && p.frontier[0].0 !in p.t.depth
    requires !p.t.refused ==> p.frontier[0].1 == p.level
    ensures Good(q, b, Popped(q, b, maxHops, p, used))
  {
    var (u, d) := p.frontier[0];
    used := PopPaid(q, b, maxHops, p);
    var p' := Popped(q, b, maxHops, p, used);
    PopSound(q, b, maxHops, p, used);
    PopEdges(q, b, maxHops, p, used);
    PopRecorded(b, p.t, u, d, p'.t);
    if !p'.t.refused { PopSharp(q, b, maxHops, p, used); }
    GoodAgain(q, b, p');
  }

  lemma GoodAgain(q: Query, b: Bounds, p: Progress)
    requires Account(q, b, p) && Recorded(p.t.nodes, p.t.depth) && SeedFirst(b, p.t)
    requires Sound(q, b.seed, b.radius, p.frontier, p.t.depth) && EdgesOf(q, p.t.edges, p.t.depth, b.radius)
    requires !p.t.refused ==> Sharp(q, b, p)
    ensures Good(q, b, p)
  {
  }

  // ---- what a walk reports ----------------------------------------------

  /** Every node once, at a depth at which it can be reached, the seed first, and its relations as edges. */
  ghost predicate Reached(q: Query, b: Bounds, t: Trace) {
    && Recorded(t.nodes, t.depth) && |t.nodes| <= b.maxNodes && SeedFirst(b, t)
    && Sound(q, b.seed, b.radius, [], t.depth) && EdgesOf(q, t.edges, t.depth, b.radius)
  }

  /** The nodes are the whole ball, each at its distance from the seed, and listed by distance. */
  ghost predicate WholeBall(q: Query, b: Bounds, t: Trace) {
    && (forall v :: v in t.nodes <==> Within(q, b.seed, v, b.radius))
    && (forall v :: v in t.depth ==>
          Within(q, b.seed, v, t.depth[v]) && (t.depth[v] > 0 ==> !Within(q, b.seed, v, t.depth[v] - 1)))
    && InDepthOrder(t.nodes, t.depth)
  }

  lemma {:induction false} WalkKeeps(q: Query, b: Bounds, maxHops: int, p: Progress)
    requires Good(q, b, p) && b.radius == Max(maxHops, 0)
    ensures var t := WalkFrom(q, maxHops, b.maxNodes, p.t, p.frontier);
      && Reached(q, b, t)
      && (t.refused ==> b.maxNodes <= |NearRelations(q, b.seed, b.radius)|)
      && (!t.refused ==> WholeBall(q, b, t))
    decreases b.maxNodes - |p.t.nodes|, |p.frontier|
  {
    if p.frontier == [] || |p.t.nodes| >= b.maxNodes {
      assert p.frontier == [];
      if !p.t.refused { QueueDrained(q, b.seed, b.radius, p.t.depth, p.level); }
    } else {
      var level := GoodOpen(q, b, p);
      var p' := p.(level := level);
      var (u, d) := p.frontier[0];
      if u in p.t.nodes {
        GoodDrop(q, b, p');
        WalkKeeps(q, b, maxHops, p'.(frontier := p.frontier[1..]));
      } else {
        var used := GoodPop(q, b, maxHops, p');
        WalkKeeps(q, b, maxHops, Popped(q, b, maxHops, p', used));
      }
    }
  }

  function BoundsOf(seed: Entity, maxHops: int, maxNodes: int): Bounds {
    Bounds(seed, Max(maxHops, 0), maxNodes)
  }

  /** A walk reports only what can be reached within the hop limit. */
  lemma WalkIsSound(q: Query, seed: Entity, maxHops: int, maxNodes: int)
    ensures var t := Walked(q, seed, maxHops, maxNodes);
      if maxNodes >= 1 then Reached(q, BoundsOf(seed, maxHops, maxNodes), t) else t == Nothing
  {
    if maxNodes >= 1 {
      var b := BoundsOf(seed, maxHops, maxNodes);
      GoodStart(q, b);
      WalkKeeps(q, b, maxHops, Progress(Nothing, [(seed, 0)], {}, 0));
    }
  }

  /** When no neighbour is refused, the nodes are exactly the ball of the hop limit, each popped at its
      distance from the seed, in the order of their distances. */
  lemma UnrefusedIsExact(q: Query, seed: Entity, maxHops: int, maxNodes: int)
    requires maxNodes >= 1 && !Walked(q, seed, maxHops, maxNodes).refused
    ensures WholeBall(q, BoundsOf(seed, maxHops, maxNodes), Walked(q, seed, maxHops, maxNodes))
  {
    var b := BoundsOf(seed, maxHops, maxNodes);
    GoodStart(q, b);
    WalkKeeps(q, b, maxHops, Progress(Nothing, [(seed, 0)], {}, 0));
  }

  /** A neighbour can be refused only when at least as many active relations as the cap touch entities
      less than the hop limit away from the seed. */
  lemma RefusalNeedsRelations(q: Query, seed: Entity, maxHops: int, maxNodes: int)
    requires Walked(q, seed, maxHops, maxNodes).refused
    ensures 1 <= maxNodes <= |NearRelations(q, seed, Max(maxHops, 0))|
  {
    var b := BoundsOf(seed, maxHops, maxNodes);
    if maxNodes >= 1 {
      GoodStart(q, b);
      WalkKeeps(q, b, maxHops, Progress(Nothing, [(seed, 0)], {}, 0));
    }
  }

  /** So a cap above the number of near relations makes the walk exact. */
  lemma FewRelationsAreExact(q: Query, seed: Entity, maxHops: int, maxNodes: int)
    requires |NearRelations(q, seed, Max(maxHops, 0))| < maxNodes
    ensures !Walked(q, seed, maxHops, maxNodes).refused
    ensures WholeBall(q, BoundsOf(seed, maxHops, maxNodes), Walked(q, seed, maxHops, maxNodes))
  {
    if Walked(q, seed, maxHops, maxNodes).refused { RefusalNeedsRelations(q, seed, maxHops, maxNodes); }
    UnrefusedIsExact(q, seed, maxHops, maxNodes);
  }

  // ---- the walk as the program runs it ----------------------------------

  /** One relation of the popped entity: its edge, and the neighbour if it fits in the queue. */
  method Follow(q: Query, i: nat, u: Entity, d: nat, visited: set<Entity>, nodes: seq<Entity>,
                queue: seq<(Entity, nat)>, maxNodes: int)
    returns (frontier: seq<(Entity, nat)>, found: seq<Edge>)
    requires i < |q.relations| && forall v :: v in visited <==> v in nodes
    ensures frontier == OfferOne(q, i, u, d, nodes, queue, maxNodes)
    ensures found == if Active(q, q.relations[i]) && Touches(q.relations[i], u) then [EdgeOf(q.relations[i])] else []
  {
    frontier, found := queue, [];
    var r := q.relations[i];
    if Active(q, r) && Touches(r, u) {
      found := [EdgeOf(r)];
      var neighbour := FarEnd(r, u);
      if neighbour !in visited && |nodes| + |frontier| < maxNodes {
        frontier := frontier + [(neighbour, d + 1)];
      }
    }
  }

  /** The relations of one popped entity: its edges, and the neighbours that fit in the queue. */
  method Expand(q: Query, u: Entity, d: nat, visited: set<Entity>, nodes: seq<Entity>, queue: seq<(Entity, nat)>,
                maxNodes: int)
    returns (frontier: seq<(Entity, nat)>, edges: seq<Edge>)
    requires forall v :: v in visited <==> v in nodes
    ensures frontier == Offer(q, 0, u, d, nodes, queue, maxNodes)
    ensures edges == ReportBefore(q, |q.relations|, u)
  {
    frontier, edges := queue, [];
    var i := 0;
    while i < |q.relations|
      invariant 0 <= i <= |q.relations| && edges == ReportBefore(q, i, u)
      invariant Offer(q, i, u, d, nodes, frontier, maxNodes) == Offer(q, 0, u, d, nodes, queue, maxNodes)
    {
      var found;
      frontier, found := Follow(q, i, u, d, visited, nodes, frontier, maxNodes);
      edges := edges + found;
      i := i + 1;
    }
  }

  /** The walk from a validated seed. */
  method Traverse(q: Query, seed: Entity, maxHops: int, maxNodes: int) returns (nodes: seq<Entity>, edges: seq<Edge>)
    ensures nodes == Walked(q, seed, maxHops, maxNodes).nodes && edges == Walked(q, seed, maxHops, maxNodes).edges
  {
    var visited: set<Entity> := {};
    var frontier: seq<(Entity, nat)> := [(seed, 0)];
    nodes, edges := [], [];
    ghost var t := Nothing;
    while frontier != [] && |nodes| < maxNodes
      invariant t.nodes == nodes && t.edges == edges && forall v :: v in visited <==> v in nodes
      invariant WalkFrom(q, maxHops, maxNodes, t, frontier) == Walked(q, seed, maxHops, maxNodes)
      decreases maxNodes - |nodes|, |frontier|
    {
      var (u, d) := frontier[0];
      var rest := frontier[1..];
      if u in visited {
        frontier := rest;
        continue;
      }
      ghost var before := t;
      t := Pop(q, maxHops, maxNodes, t, u, d, rest);
      visited := visited + {u};
      nodes := nodes + [u];
      if d >= maxHops {
        frontier := rest;
        continue;
      }
      var found;
      frontier, found := Expand(q, u, d, visited, nodes, rest, maxNodes);
      assert frontier == Requeue(q, maxHops, maxNodes, before, u, d, rest);
      edges := edges + found;
    }
  }

  // ---- entry points -------------------------------------------------------

  /** The seed named by a request: the kind in any letter case, the key without surrounding blanks. */
  function ParseSeed(kind: string, key: string): Option<Entity> {
    var k := Text.Strip(key);
    var name := Text.Lower(kind);
    if k == [] then None
    else if name == "ip" then Some(Entity(Ip, k))
    else if name == "host" then Some(Entity(Host, k))
    else if name == "user" then Some(Entity(User, k))
    else if name == "domain" then Some(Entity(Domain, k))
    else None
  }

  /** The text names the type, in any letter case. */
  predicate Names(text: string, kind: EntityType) {
    match kind
    case Ip => Text.Lower(text) == "ip"
    case Host => Text.Lower(text) == "host"
    case User => Text.Lower(text) == "user"
    case Domain => Text.Lower(text) == "domain"
  }

  /** A request has a seed exactly when its key is not blank and its kind names a type. */
  lemma SeedIsNamed(text: string, key: string)
    ensures forall kind :: Names(text, kind) && Text.Strip(key) != "" ==>
      ParseSeed(text, key) == Some(Entity(kind, Text.Strip(key)))
    ensures ParseSeed(text, key).None? <==> Text.Strip(key) == "" || forall kind :: !Names(text, kind)
  {
    assert "ip"[0] != "host"[0] && "ip"[0] != "user"[0] && "ip"[0] != "domain"[0] && "host"[0] != "user"[0];
    assert "host"[0] != "domain"[0] && "user"[0] != "domain"[0];
    if ParseSeed(text, key).Some? { assert Names(text, ParseSeed(text, key).value.kind); }
    if ParseSeed(text, key).None? && Text.Strip(key) != "" {
      assert forall kind :: !Names(text, kind);
    }
  }

  lemma KindNamed(kind: EntityType)
    ensures Names(KindName(kind), kind)
  {
    assert Text.Lower(KindName(kind)) == KindName(kind);
  }

  /** The traversal by request: the walk from the entity that kind and key name; nothing exactly when the
      key is blank or the kind names no type, provided the cap leaves room for the seed. */
  method TraverseEntityGraph(q: Query, kind: string, key: string, maxHops: int, maxNodes: int)
    returns (nodes: seq<Entity>, edges: seq<Edge>)
    ensures forall t :: Names(kind, t) && Text.Strip(key) != "" ==>
      nodes == Walked(q, Entity(t, Text.Strip(key)), maxHops, maxNodes).nodes &&
      edges == Walked(q, Entity(t, Text.Strip(key)), maxHops, maxNodes).edges
    ensures Text.Strip(key) == "" || (forall t :: !Names(kind, t)) ==> nodes == [] && edges == []
    ensures maxNodes >= 1 ==> (nodes == [] <==> Text.Strip(key) == "" || forall t :: !Names(kind, t))
  {
    SeedIsNamed(kind, key);
    nodes, edges := [], [];
    match ParseSeed(kind, key) {
      case None =>
      case Some(seed) =>
        nodes, edges := Traverse(q, seed, maxHops, maxNodes);
        WalkIsSound(q, seed, maxHops, maxNodes);
    }
  }

  /** The edges of one hop are exactly the active relations of the seed. */
  lemma OneHopEdges(q: Query, seed: Entity, maxNodes: int)
    requires maxNodes >= 1
    ensures EdgesAt(q, seed, Walked(q, seed, 1, maxNodes).edges)
  {
    var t := Walked(q, seed, 1, maxNodes);
    WalkIsSound(q, seed, 1, maxNodes);
    forall v | v in t.depth && t.depth[v] < 1 ensures v == seed { WithinZero(q, seed, v); }
    forall e ensures e in t.edges <==> exists i :: 0 <= i < |q.relations| && ReportsAt(q, i, seed, e) {
      if e in t.edges {
        var i :| 0 <= i < |q.relations| && ExpandedEdge(q, i, e, t.depth, 1);
        assert ReportsAt(q, i, seed, e);
      }
    }
  }

  /** The end of an edge that the one-hop summary reports: it compares keys, not entities. */
  function SummaryEnd(e: Edge, key: string): Entity {
    if e.from.key == key then e.to else e.from
  }

  /** The one-hop summary names the far end of a relation exactly when the relation does not come
      from an entity of another kind that shares the key. */
  lemma SummaryEndExact(r: Relation, e: Entity)
    requires Touches(r, e)
    ensures SummaryEnd(EdgeOf(r), e.key) == FarEnd(r, e) <==> r.from == e || r.from.key != e.key
  {
    if r.from != e && r.from.key == e.key {
      assert r.to == e && SummaryEnd(EdgeOf(r), e.key) == e;
    }
  }

  datatype Neighbour = Neighbour(end: Entity, kind: string, confidence: real)

  function SummaryOf(e: Edge, key: string): Neighbour {
    Neighbour(SummaryEnd(e, key), e.kind, e.confidence)
  }

  method Summarize(edges: seq<Edge>, key: string, limit: nat) returns (neighbours: seq<Neighbour>)
    ensures |neighbours| == Min(limit, |edges|)
    ensures forall i :: 0 <= i < |neighbours| ==> neighbours[i] == SummaryOf(edges[i], key)
  {
    neighbours := [];
    for i := 0 to Min(limit, |edges|)
      invariant |neighbours| == i && forall j :: 0 <= j < i ==> neighbours[j] == SummaryOf(edges[j], key)
    {
      var end := if edges[i].from.key == key then edges[i].to else edges[i].from;
      neighbours := neighbours + [Neighbour(end, edges[i].kind, edges[i].confidence)];
    }
  }

  /** The relation is valid now, and of a wanted kind if any are asked for. */
  ghost predicate InForce(q: Query, r: Relation) {
    && (r.validFrom.Some? ==> r.validFrom.value <= q.now) && (r.validUntil.Some? ==> q.now <= r.validUntil.value)
    && (q.kinds != [] ==> r.kind in q.kinds)
  }

  /** Relation i is in force and at e, and n summarizes it: its kind, its confidence
      and its far end, but e itself in place of another entity with the key of e at its start. */
  ghost predicate Summarizes(q: Query, i: nat, e: Entity, n: Neighbour)
    requires i < |q.relations|
  {
    var r := q.relations[i];
    && InForce(q, r) && n.kind == r.kind && n.confidence == r.confidence
    && (if r.from == e then n.end == r.to
        else r.to == e && n.end == if r.from.key == e.key then e else r.from)
  }

  lemma SummaryFits(q: Query, i: nat, e: Entity, edge: Edge)
    requires i < |q.relations| && ReportsAt(q, i, e, edge)
    ensures Summarizes(q, i, e, SummaryOf(edge, e.key))
  {
    SummaryEndExact(q.relations[i], e);
  }

  ghost predicate SummarizesSome(q: Query, e: Entity, n: Neighbour) {
    exists i :: 0 <= i < |q.relations| && Summarizes(q, i, e, n)
  }

  ghost predicate Summarized(q: Query, i: nat, e: Entity, neighbours: seq<Neighbour>)
    requires i < |q.relations|
  {
    exists n :: n in neighbours && Summarizes(q, i, e, n)
  }

  /** Each summary is that of a relation of e, and while the limit is not reached every one is summarized. */
  ghost predicate SummarizesAll(q: Query, e: Entity, limit: nat, neighbours: seq<Neighbour>) {
    && |neighbours| <= limit
    && (forall k :: 0 <= k < |neighbours| ==> SummarizesSome(q, e, neighbours[k]))
    && (|neighbours| < limit ==>
          forall i :: 0 <= i < |q.relations| && InForce(q, q.relations[i]) && Touches(q.relations[i], e) ==>
            Summarized(q, i, e, neighbours))
  }

  lemma SummarySound(q: Query, e: Entity, edges: seq<Edge>, edge: Edge)
    requires EdgesAt(q, e, edges) && edge in edges
    ensures SummarizesSome(q, e, SummaryOf(edge, e.key))
  {
    var i :| 0 <= i < |q.relations| && ReportsAt(q, i, e, edge);
    SummaryFits(q, i, e, edge);
  }

  lemma SummaryComplete(q: Query, e: Entity, edges: seq<Edge>, i: nat) returns (k: nat)
    requires EdgesAt(q, e, edges) && i < |q.relations| && InForce(q, q.relations[i])
    requires Touches(q.relations[i], e)
    ensures k < |edges| && Summarizes(q, i, e, SummaryOf(edges[k], e.key))
  {
    var edge := EdgeOf(q.relations[i]);
    assert ReportsAt(q, i, e, edge);
    assert edge in edges;
    k :| 0 <= k < |edges| && edges[k] == edge;
    SummaryFits(q, i, e, edge);
  }

  lemma EdgesSummarized(q: Query, e: Entity, edges: seq<Edge>, limit: nat, neighbours: seq<Neighbour>)
    requires EdgesAt(q, e, edges) && |neighbours| == Min(limit, |edges|)
    requires forall k :: 0 <= k < |neighbours| ==> neighbours[k] == SummaryOf(edges[k], e.key)
    ensures SummarizesAll(q, e, limit, neighbours)
  {
    forall k | 0 <= k < |neighbours| ensures SummarizesSome(q, e, neighbours[k]) {
      SummarySound(q, e, edges, edges[k]);
    }
    if |neighbours| < limit {
      forall i | 0 <= i < |q.relations| && InForce(q, q.relations[i]) && Touches(q.relations[i], e)
        ensures Summarized(q, i, e, neighbours)
      {
        var k := SummaryComplete(q, e, edges, i);
        assert neighbours[k] in neighbours;
      }
    }
  }

  /** Summaries of the first `limit` edges of one hop: of the entity's own relations, when its key has no
      blanks around it; nothing for a blank key. */
  method OneHopNeighbors(q: Query, e: Entity, limit: nat) returns (neighbours: seq<Neighbour>)
    ensures Text.Strip(e.key) == "" ==> neighbours == []
    ensures Text.Strip(e.key) != "" ==>
      var edges := Walked(q, Entity(e.kind, Text.Strip(e.key)), 1, limit + 1).edges;
      && EdgesAt(q, Entity(e.kind, Text.Strip(e.key)), edges) && |neighbours| == Min(limit, |edges|)
      && forall i :: 0 <= i < |neighbours| ==> neighbours[i] == SummaryOf(edges[i], e.key)
    ensures Text.Strip(e.key) == e.key != "" ==> SummarizesAll(q, e, limit, neighbours)
  {
    var nodes, edges := TraverseEntityGraph(q, KindName(e.kind), e.key, 1, limit + 1);
    neighbours := Summarize(edges, e.key, limit);
    KindNamed(e.kind);
    if Text.Strip(e.key) != "" { OneHopEdges(q, Entity(e.kind, Text.Strip(e.key)), limit + 1); }
    if Text.Strip(e.key) == e.key != "" { EdgesSummarized(q, e, edges, limit, neighbours); }
  }

  // ---- the node cap -------------------------------------------------------

  function Copies<T>(x: T, n: nat): (r: seq<T>)
    ensures |r| == n && forall i :: 0 <= i < n ==> r[i] == x
  {
    seq(n, _ => x)
  }

  /** n parallel relations from s to a, then one from s to b. */
  function Parallel(s: Entity, a: Entity, b: Entity, n: nat): Query {
    Query(Copies(Relation(s, a, "uses", 1.0, None, None), n) + [Relation(s, b, "uses", 1.0, None, None)], [], 0)
  }

  /** All parallel relations and the last one are near their source. */
  lemma ParallelNear(s: Entity, a: Entity, b: Entity, m: nat)
    requires m > 0
    ensures |NearRelations(Parallel(s, a, b, m - 1), s, 1)| == m
  {
    var q := Parallel(s, a, b, m - 1);
    WithinZero(q, s, s);
    assert forall i :: 0 <= i < m ==> Near(q, s, 1, i);
    assert NearRelations(q, s, 1) == Below(m);
  }

  /** The entities within k hops of the seed. */
  ghost predicate BallIs(q: Query, seed: Entity, k: nat, ball: set<Entity>) {
    forall v :: Within(q, seed, v, k) <==> v in ball
  }

  /** The ball around the source has three entities. */
  lemma ParallelAround(s: Entity, a: Entity, b: Entity, n: nat)
    requires n > 0 && s != a && s != b && a != b
    ensures BallIs(Parallel(s, a, b, n), s, 1, {s, a, b})
  {
    forall v ensures Within(Parallel(s, a, b, n), s, v, 1) <==> v in {s, a, b} { ParallelBall(s, a, b, n, v); }
  }

  /** No larger number of near relations guarantees an exact walk: for every cap m >= 3, m near relations
      (ParallelNear) around a ball of three entities (ParallelAround), which fits the cap, make the walk
      refuse one of the three and not report it, because repeated queue entries count against the cap. */
  lemma QueuedDuplicatesHideANeighbour(s: Entity, a: Entity, b: Entity, m: nat)
    requires m >= 3 && s != a && s != b && a != b
    ensures var t := Walked(Parallel(s, a, b, m - 1), s, 1, m); t.nodes == [s, a] && t.refused
  {
    var q := Parallel(s, a, b, m - 1);
    var queue := Copies<(Entity, nat)>((a, 1), m - 1);
    ParallelOffer(s, a, b, m, 0);
    assert Copies<(Entity, nat)>((a, 1), 0) == [];
    var t1 := Pop(q, 1, m, Nothing, s, 0, []);
    assert t1.nodes == [s] && t1.refused by { assert [] + [s] == [s]; }
    assert Walked(q, s, 1, m) == WalkFrom(q, 1, m, t1, queue) by {
      assert [] + [s] == [s] && [(s, 0)][1..] == [];
    }
    var t2 := Pop(q, 1, m, t1, a, 1, queue[1..]);
    assert t2.nodes == [s, a] && t2.refused;
    assert queue[0] == (a, 1);
    assert WalkFrom(q, 1, m, t1, queue) == WalkFrom(q, 1, m, t2, queue[1..]);
    DrainDuplicates(q, 1, m, t2, queue[1..]);
  }

  // ---- the bound is tight ------------------------------------------------------

  /** The walk reports the whole ball, each node at its distance. */
  ghost predicate WalkedExactly(q: Query, seed: Entity, maxHops: int, cap: nat) {
    WholeBall(q, BoundsOf(seed, maxHops, cap), Walked(q, seed, maxHops, cap))
  }

  ghost predicate BallFits(q: Query, seed: Entity, maxHops: int, cap: nat) {
    exists ball :: BallIs(q, seed, Max(maxHops, 0), ball) && |ball| <= cap
  }

  /** Every walk with at most n near relations is exact. */
  ghost predicate FewAreExact(n: nat, cap: nat) {
    forall q, seed, maxHops ::
      |NearRelations(q, seed, Max(maxHops, 0))| <= n ==> WalkedExactly(q, seed, maxHops, cap)
  }

  /** The same where the ball is known to fit the cap. */
  ghost predicate FittingAreExact(n: nat, cap: nat) {
    forall q, seed, maxHops ::
      |NearRelations(q, seed, Max(maxHops, 0))| <= n && BallFits(q, seed, maxHops, cap) ==>
      WalkedExactly(q, seed, maxHops, cap)
  }

  /** A number of near relations guarantees an exact walk if and only if it is below the cap, even when
      the ball is known to fit the cap. */
  lemma ExactIffBelowCap(n: nat, cap: nat)
    requires cap >= 3
    ensures FewAreExact(n, cap) <==> n < cap
    ensures FittingAreExact(n, cap) <==> n < cap
  {
    if n < cap {
      forall q, seed, maxHops | |NearRelations(q, seed, Max(maxHops, 0))| <= n
        ensures WalkedExactly(q, seed, maxHops, cap)
      {
        FewRelationsAreExact(q, seed, maxHops, cap);
      }
    } else {
      var s, a, b := Entity(Ip, "k"), Entity(Host, "k"), Entity(User, "k");
      var q := Parallel(s, a, b, cap - 1);
      ParallelNear(s, a, b, cap);
      ParallelFits(s, a, b, cap);
      ParallelIsNotExact(s, a, b, cap);
      assert |NearRelations(q, s, Max(1, 0))| <= n && BallFits(q, s, 1, cap) && !WalkedExactly(q, s, 1, cap);
    }
  }

  lemma ThreeAtMost<T>(a: T, b: T, c: T)
    ensures |{a, b, c}| <= 3
  {
    assert {a, b, c} == {a} + {b} + {c};
  }

  lemma ParallelFits(s: Entity, a: Entity, b: Entity, cap: nat)
    requires cap >= 3 && s != a && s != b && a != b
    ensures BallFits(Parallel(s, a, b, cap - 1), s, 1, cap)
  {
    ParallelAround(s, a, b, cap - 1);
    ThreeAtMost(s, a, b);
  }

  lemma MissesABallMember(q: Query, seed: Entity, maxHops: int, cap: nat, v: Entity)
    requires Within(q, seed, v, Max(maxHops, 0)) && v !in Walked(q, seed, maxHops, cap).nodes
    ensures !WalkedExactly(q, seed, maxHops, cap)
  {
  }

  lemma ParallelIsNotExact(s: Entity, a: Entity, b: Entity, cap: nat)
    requires cap >= 3 && s != a && s != b && a != b
    ensures !WalkedExactly(Parallel(s, a, b, cap - 1), s, 1, cap)
  {
    var q := Parallel(s, a, b, cap - 1);
    QueuedDuplicatesHideANeighbour(s, a, b, cap);
    ParallelBall(s, a, b, cap - 1, b);
    MissesABallMember(q, s, 1, cap, b);
  }

  ghost function Below(m: nat): (r: set<nat>)
    ensures |r| == m && forall i: nat :: i in r <==> i < m
  {
    if m == 0 then {} else Below(m - 1) + {m - 1}
  }

  lemma ParallelBall(s: Entity, a: Entity, b: Entity, n: nat, v: Entity)
    requires n > 0 && s != a && s != b && a != b
    ensures var q := Parallel(s, a, b, n); Within(q, s, v, 1) <==> v in {s, a, b}
  {
    var q := Parallel(s, a, b, n);
    WithinZero(q, s, s);
    WithinZero(q, s, v);
    assert Links(q, 0, s, a) && Links(q, n, s, b);
    if v == a || v == b {
      WithinStep(q, s, s, v, 0);
    } else if v == s {
      WithinMonotone(q, s, s, 0, 1);
    }
    if Within(q, s, v, 1) && v != s {
      var u := WithinLast(q, s, v, 0);
      WithinZero(q, s, u);
      var i :| 0 <= i < |q.relations| && Links(q, i, s, v);
      assert v == q.relations[i].to;
    }
  }

  /** From relation i on the queue fills up with copies of a, and then b is refused. */
  lemma {:induction false} ParallelOffer(s: Entity, a: Entity, b: Entity, m: nat, i: nat)
    requires m >= 3 && s != a && s != b && a != b && i <= m - 1
    ensures var q, queue := Parallel(s, a, b, m - 1), Copies<(Entity, nat)>((a, 1), i);
      && Offer(q, i, s, 0, [s], queue, m) == Copies<(Entity, nat)>((a, 1), m - 1)
      && Refuses(q, i, s, 0, [s], queue, m)
    decreases m - i
  {
    var q, queue := Parallel(s, a, b, m - 1), Copies<(Entity, nat)>((a, 1), i);
    var r := q.relations[i];
    assert r.from == s && r.to == (if i < m - 1 then a else b) && Active(q, r) && Touches(r, s);
    assert Unseen(q, i, s, [s]);
    if i == m - 1 {
      assert OfferOne(q, i, s, 0, [s], queue, m) == queue;
      assert Offer(q, m, s, 0, [s], queue, m) == queue;
    } else {
      ParallelOffer(s, a, b, m, i + 1);
      assert OfferOne(q, i, s, 0, [s], queue, m) == queue + [(a, 1)] == Copies<(Entity, nat)>((a, 1), i + 1);
    }
  }

  lemma {:induction false} DrainDuplicates(q: Query, maxHops: int, maxNodes: int, t: Trace,
    frontier: seq<(Entity, nat)>)
    requires forall i :: 0 <= i < |frontier| ==> frontier[i].0 in t.nodes
    ensures WalkFrom(q, maxHops, maxNodes, t, frontier) == t
    decreases |frontier|
  {
    if frontier != [] && |t.nodes| < maxNodes {
      DrainDuplicates(q, maxHops, maxNodes, t, frontier[1..]);
    }
  }
}
