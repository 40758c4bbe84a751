/** The Redis lease lock (app/agent/lock.py; the triage, aggregation, ingestion, human-review and
    defense-asset locks are the same protocol): SET NX EX, GET and DEL are separate steps, and any
    number of workers interleave them with the passing of time, and may die in between. */
module LeaseLock {
  import opened Wrappers

  /** A lease is the token stored under the key and the time at which Redis drops it. */
  datatype Lease = Lease(token: nat, expires: nat)

  /** A worker is outside, in the critical section, or has left it and read the key: `own` is whether
      it read its own token. `since` is when it acquired. */
  datatype Worker = Idle | Critical(token: nat, since: nat) | Read(token: nat, since: nat, own: bool)

  datatype State = State(now: nat, key: Option<Lease>, issued: nat, workers: seq<Worker>)

  datatype Step = Acquire(w: nat) | Leave(w: nat) | Release(w: nat) | Crash(w: nat) | Tick

  predicate Held(s: State) {
    s.key.Some? && s.now < s.key.value.expires
  }

  predicate Enabled(s: State, step: Step) {
    match step
    case Acquire(w) => w < |s.workers| && s.workers[w].Idle?
    case Leave(w) => w < |s.workers| && s.workers[w].Critical?
    case Release(w) => w < |s.workers| && s.workers[w].Read?
    case Crash(w) => w < |s.workers| && !s.workers[w].Idle?
    case Tick => true
  }

  /** Tokens are random identifiers; numbering them keeps them distinct. A worker that dies leaves its key
      to expire. */
  function Apply(s: State, step: Step, ttl: nat): State
    requires Enabled(s, step)
  {
    match step
    case Acquire(w) =>
      if Held(s) then s else
      s.(key := Some(Lease(s.issued, s.now + ttl)), issued := s.issued + 1, workers :=
        s.workers[w := Critical(s.issued, s.now)])
    case Leave(w) =>
      var me := s.workers[w];
      s.(workers := s.workers[w := Read(me.token, me.since, Held(s) && s.key.value.token == me.token)])
    case Release(w) =>
      s.(key := if s.workers[w].own then None else s.key, workers := s.workers[w := Idle])
    case Crash(w) => s.(workers := s.workers[w := Idle])
    case Tick => s.(now := s.now + 1)
  }

  function Start(n: nat): State {
    State(0, None, 0, seq(n, _ => Idle))
  }

  ghost predicate Legal(s: State, steps: seq<Step>, ttl: nat)
    decreases |steps|
  {
    steps == [] || (Enabled(s, steps[0]) && Legal(Apply(s, steps[0], ttl), steps[1..], ttl))
  }

  function After(s: State, steps: seq<Step>, ttl: nat): State
    requires Legal(s, steps, ttl)
    decreases |steps|
  {
    if steps == [] then s else After(Apply(s, steps[0], ttl), steps[1..], ttl)
  }

  // ---- mutual exclusion ----------------------------------------------------------

  ghost predicate Mutex(s: State) {
    forall v, w :: 0 <= v < w < |s.workers| ==> !(s.workers[v].Critical? && s.workers[w].Critical?)
  }

  /** Every worker that has neither released nor died acquired less than `bound` ago. */
  ghost predicate Timely(s: State, bound: nat) {
    forall w :: 0 <= w < |s.workers| && !s.workers[w].Idle? ==> s.now < s.workers[w].since + bound
  }

  /** Every holder completes its release, or dies, in less than `bound`. */
  ghost predicate TimelyRun(s: State, steps: seq<Step>, ttl: nat, bound: nat)
    requires Legal(s, steps, ttl)
    decreases |steps|
  {
    Timely(s, bound) && (steps != [] ==> TimelyRun(Apply(s, steps[0], ttl), steps[1..], ttl, bound))
  }

  /** Whoever is not idle owns the stored lease. */
  ghost predicate Owned(s: State, ttl: nat) {
    && (forall w :: 0 <= w < |s.workers| && !s.workers[w].Idle? ==>
          s.key == Some(Lease(s.workers[w].token, s.workers[w].since + ttl)) &&
            (s.workers[w].Read? ==> s.workers[w].own))
    && (forall v, w :: 0 <= v < w < |s.workers| ==> s.workers[v].Idle? || s.workers[w].Idle?)
  }

  lemma StepKeepsOwned(s: State, step: Step, ttl: nat)
    requires Owned(s, ttl) && Timely(s, ttl) && Enabled(s, step)
    ensures Owned(Apply(s, step, ttl), ttl)
  {
  }

  lemma {:induction false} OwnedRun(s: State, steps: seq<Step>, ttl: nat, bound: nat)
    requires Owned(s, ttl) && Legal(s, steps, ttl) && TimelyRun(s, steps, ttl, bound) && bound <= ttl
    ensures Owned(After(s, steps, ttl), ttl)
    decreases |steps|
  {
    if steps != [] {
      StepKeepsOwned(s, steps[0], ttl);
      OwnedRun(Apply(s, steps[0], ttl), steps[1..], ttl, bound);
    }
  }

  /** For any number of workers and any interleaving, at most one is in the critical section,
      provided each completes its release within the lease. */
  lemma MutualExclusion(n: nat, steps: seq<Step>, ttl: nat, bound: nat)
    requires Legal(Start(n), steps, ttl) && TimelyRun(Start(n), steps, ttl, bound) && bound <= ttl
    ensures Mutex(After(Start(n), steps, ttl))
  {
    OwnedRun(Start(n), steps, ttl, bound);
  }

  /** All runs whose holders release in less than `bound` keep the mutex. */
  ghost predicate Safe(n: nat, ttl: nat, bound: nat) {
    forall steps :: Legal(Start(n), steps, ttl) && TimelyRun(Start(n), steps, ttl, bound) ==>
      Mutex(After(Start(n), steps, ttl))
  }

  /** With at least two workers the lock is safe exactly when the bound on holding it is within the lease. */
  lemma SafeIffHoldsFitTheLease(n: nat, ttl: nat, bound: nat)
    requires n >= 2
    ensures Safe(n, ttl, bound) <==> bound <= ttl
  {
    if bound <= ttl {
      forall steps | Legal(Start(n), steps, ttl) && TimelyRun(Start(n), steps, ttl, bound)
        ensures Mutex(After(Start(n), steps, ttl))
      {
        MutualExclusion(n, steps, ttl, bound);
      }
    } else {
      OverrunBreaksMutex(n, ttl, bound);
      var steps := Overrun(ttl);
      assert Legal(Start(n), steps, ttl) && TimelyRun(Start(n), steps, ttl, bound);
    }
  }

  // ---- deletion by token -------------------------------------------------------------

  /** w has left without reading its own token, or is out altogether. */
  ghost predicate NotOwn(s: State, w: nat) {
    w < |s.workers| && (s.workers[w].Idle? || (s.workers[w].Read? && !s.workers[w].own))
  }

  lemma {:induction false} NotOwnStays(s: State, steps: seq<Step>, ttl: nat, w: nat)
    requires Legal(s, steps, ttl) && NotOwn(s, w) && Acquire(w) !in steps
    ensures NotOwn(After(s, steps, ttl), w)
    decreases |steps|
  {
    if steps != [] {
      assert steps[0] in steps && forall x :: x in steps[1..] ==> x in steps;
      NotOwnStays(Apply(s, steps[0], ttl), steps[1..], ttl, w);
    }
  }

  lemma {:induction false} AfterConcat(s: State, a: seq<Step>, b: seq<Step>, ttl: nat)
    requires Legal(s, a + b, ttl)
    ensures Legal(s, a, ttl) && Legal(After(s, a, ttl), b, ttl)
    ensures After(s, a + b, ttl) == After(After(s, a, ttl), b, ttl)
    decreases |a|
  {
    if a == [] {
      assert a + b == b;
    } else {
      assert (a + b)[0] == a[0] && (a + b)[1..] == a[1..] + b;
      AfterConcat(Apply(s, a[0], ttl), a[1..], b, ttl);
    }
  }

  /** In any state, and with no assumption on time: a worker that leaves without reading its own token
      never deletes the key, whatever ticks and steps of other workers come before its release. */
  lemma ForeignLeaseSurvives(s: State, w: nat, between: seq<Step>, ttl: nat)
    requires Legal(s, [Leave(w)] + between + [Release(w)], ttl) && Acquire(w) !in between
    requires !(Held(s) && w < |s.workers| && s.workers[w].Critical? && s.key.value.token == s.workers[w].token)
    ensures Legal(s, [Leave(w)] + between, ttl)
    ensures After(s, [Leave(w)] + between + [Release(w)], ttl).key == After(s, [Leave(w)] + between, ttl).key
  {
    var before := [Leave(w)] + between;
    AfterConcat(s, before, [Release(w)], ttl);
    assert before[0] == Leave(w) && before[1..] == between;
    NotOwnStays(Apply(s, Leave(w), ttl), between, ttl, w);
    var last := After(s, before, ttl);
    assert [Release(w)][0] == Release(w) && [Release(w)][1..] == [];
    assert After(last, [Release(w)], ttl) == After(Apply(last, Release(w), ttl), [], ttl) ==
      Apply(last, Release(w), ttl);
  }

  /** w has left after reading its own token, and has not released yet. */
  ghost predicate OwnRead(s: State, w: nat) {
    w < |s.workers| && s.workers[w].Read? && s.workers[w].own
  }

  lemma {:induction false} OwnReadStays(s: State, steps: seq<Step>, ttl: nat, w: nat)
    requires Legal(s, steps, ttl) && OwnRead(s, w) && Release(w) !in steps && Crash(w) !in steps
    ensures OwnRead(After(s, steps, ttl), w)
    decreases |steps|
  {
    if steps != [] {
      assert steps[0] in steps && forall x :: x in steps[1..] ==> x in steps;
      OwnReadStays(Apply(s, steps[0], ttl), steps[1..], ttl, w);
    }
  }

  /** A worker that leaves while its lease is stored frees the key by its release, whatever comes in
      between. */
  lemma OwnReleaseFrees(s: State, w: nat, between: seq<Step>, ttl: nat)
    requires Legal(s, [Leave(w)] + between + [Release(w)], ttl) && Release(w) !in between && Crash(w) !in between
    requires Held(s) && w < |s.workers| && s.workers[w].Critical? && s.key.value.token == s.workers[w].token
    ensures After(s, [Leave(w)] + between + [Release(w)], ttl).key.None?
  {
    var before := [Leave(w)] + between;
    AfterConcat(s, before, [Release(w)], ttl);
    assert before[0] == Leave(w) && before[1..] == between;
    OwnReadStays(Apply(s, Leave(w), ttl), between, ttl, w);
    var last := After(s, before, ttl);
    assert [Release(w)][0] == Release(w) && [Release(w)][1..] == [];
    assert After(last, [Release(w)], ttl) == After(Apply(last, Release(w), ttl), [], ttl) ==
      Apply(last, Release(w), ttl);
  }

  // ---- the time limit is needed --------------------------------------------------------

  function Ticks(n: nat): (r: seq<Step>)
    ensures |r| == n && forall i :: 0 <= i < n ==> r[i] == Tick
  {
    seq(n, _ => Tick)
  }

  lemma {:induction false} TicksPass(s: State, n: nat, rest: seq<Step>, ttl: nat)
    ensures Legal(s, Ticks(n) + rest, ttl) <==> Legal(s.(now := s.now + n), rest, ttl)
    ensures Legal(s, Ticks(n) + rest, ttl) ==> After(s, Ticks(n) + rest, ttl) == After(s.(now := s.now + n), rest, ttl)
    decreases n
  {
    if n == 0 {
      assert Ticks(0) + rest == rest;
    } else {
      var steps := Ticks(n) + rest;
      assert steps[0] == Tick && steps[1..] == Ticks(n - 1) + rest;
      TicksPass(s.(now := s.now + 1), n - 1, rest, ttl);
    }
  }

  lemma {:induction false} TicksTimely(s: State, n: nat, rest: seq<Step>, ttl: nat, bound: nat)
    requires Legal(s, Ticks(n) + rest, ttl) && Timely(s.(now := s.now + n), bound)
    requires Legal(s.(now := s.now + n), rest, ttl) && TimelyRun(s.(now := s.now + n), rest, ttl, bound)
    ensures TimelyRun(s, Ticks(n) + rest, ttl, bound)
    decreases n
  {
    assert Timely(s, bound) by {
      assert forall w :: 0 <= w < |s.workers| && !s.workers[w].Idle? ==> s.now + n < s.workers[w].since + bound;
    }
    if n == 0 {
      assert Ticks(0) + rest == rest;
    } else {
      var steps := Ticks(n) + rest;
      assert steps[0] == Tick && steps[1..] == Ticks(n - 1) + rest;
      TicksTimely(s.(now := s.now + 1), n - 1, rest, ttl, bound);
    }
  }

  /** No lease is longer than its length. */
  ghost predicate Limited(s: State, ttl: nat) {
    s.key.Some? ==> s.key.value.expires <= s.now + ttl
  }

  lemma {:induction false} LeasesLimited(s: State, steps: seq<Step>, ttl: nat)
    requires Limited(s, ttl) && Legal(s, steps, ttl)
    ensures Limited(After(s, steps, ttl), ttl)
    decreases |steps|
  {
    if steps != [] { LeasesLimited(Apply(s, steps[0], ttl), steps[1..], ttl); }
  }

  /** Whatever happened before, and even if the holder died: once a lease length has passed, an idle
      worker that tries gets in. */
  lemma LeaseEnds(n: nat, steps: seq<Step>, ttl: nat, w: nat)
    requires Legal(Start(n), steps, ttl) && Enabled(After(Start(n), steps, ttl), Acquire(w))
    ensures var s, wait := After(Start(n), steps, ttl), Ticks(ttl) + [Acquire(w)];
      && Legal(s, wait, ttl) && w < |After(s, wait, ttl).workers|
      && After(s, wait, ttl).workers[w].Critical?
  {
    LeasesLimited(Start(n), steps, ttl);
    var s := After(Start(n), steps, ttl);
    var late := s.(now := s.now + ttl);
    TicksPass(s, ttl, [Acquire(w)], ttl);
    assert [Acquire(w)][1..] == [] && Legal(Apply(late, Acquire(w), ttl), [], ttl);
    assert After(late, [Acquire(w)], ttl) == Apply(late, Acquire(w), ttl);
  }

  /** One worker stays in until its lease has run out, and another enters. */
  function Overrun(ttl: nat): seq<Step> {
    [Acquire(0)] + (Ticks(ttl) + [Acquire(1)])
  }

  /** A critical section that outlives its lease shares it with the next worker, for every lease length;
      any bound beyond the lease allows it. */
  lemma OverrunBreaksMutex(n: nat, ttl: nat, bound: nat)
    requires n >= 2 && bound > ttl
    ensures Legal(Start(n), Overrun(ttl), ttl) && TimelyRun(Start(n), Overrun(ttl), ttl, bound)
    ensures !Mutex(After(Start(n), Overrun(ttl), ttl))
  {
    var steps, rest := Overrun(ttl), Ticks(ttl) + [Acquire(1)];
    assert steps[0] == Acquire(0) && steps[1..] == rest;
    var s1 := Apply(Start(n), Acquire(0), ttl);
    var s2 := s1.(now := s1.now + ttl);
    var s3 := Apply(s2, Acquire(1), ttl);
    assert s1.workers == Start(n).workers[0 := Critical(0, 0)] && !Held(s2);
    assert [Acquire(1)][1..] == [] && Legal(s3, [], ttl);
    assert Legal(s2, [Acquire(1)], ttl) && After(s2, [Acquire(1)], ttl) == s3;
    TicksPass(s1, ttl, [Acquire(1)], ttl);
    assert Timely(s2, bound) && Timely(s3, bound) && TimelyRun(s3, [], ttl, bound);
    assert TimelyRun(s2, [Acquire(1)], ttl, bound);
    TicksTimely(s1, ttl, [Acquire(1)], ttl, bound);
    assert s3.workers[0].Critical? && s3.workers[1].Critical?;
  }

  /** It is not enough that every critical section ends in time: a release that reads its token in
      time and deletes the key after the lease ran out removes the next worker's lease. */
  lemma LateDeleteBreaksMutex(ttl: nat)
    requires ttl > 0
    ensures var steps := [Acquire(0), Leave(0)] + (Ticks(ttl) + [Acquire(1), Release(0), Acquire(2)]);
      Legal(Start(3), steps, ttl) && !Mutex(After(Start(3), steps, ttl))
  {
    var tail := [Acquire(1), Release(0), Acquire(2)];
    var rest := Ticks(ttl) + tail;
    var steps := [Acquire(0), Leave(0)] + rest;
    var s1 := Apply(Start(3), Acquire(0), ttl);
    var s2 := Apply(s1, Leave(0), ttl);
    assert s2.workers == [Read(0, 0, true), Idle, Idle];
    var s3 := s2.(now := s2.now + ttl);
    assert steps[1..] == [Leave(0)] + rest && steps[1..][1..] == rest;
    TicksPass(s2, ttl, tail, ttl);
    var s4 := Apply(s3, Acquire(1), ttl);
    var s5 := Apply(s4, Release(0), ttl);
    var s6 := Apply(s5, Acquire(2), ttl);
    assert tail[1..] == [Release(0), Acquire(2)] && tail[1..][1..] == [Acquire(2)] && tail[1..][1..][1..] == [];
    assert Legal(s6, [], ttl);
    assert Legal(s5, [Acquire(2)], ttl) && After(s5, [Acquire(2)], ttl) == s6;
    assert Legal(s4, tail[1..], ttl) && After(s4, tail[1..], ttl) == s6;
    assert Legal(s3, tail, ttl) && After(s3, tail, ttl) == s6;
    assert Legal(s1, steps[1..], ttl) && After(s1, steps[1..], ttl) == s6;
    assert s6.workers[1].Critical? && s6.workers[2].Critical?;
  }

  // ---- the protocol as the program runs it ------------------------------------------------

  /** The key as Redis serves it; every method is one round trip. */
  class Server {
    const ttl: nat
    var now: nat
    var key: Option<Lease>
    var issued: nat
    var workers: seq<Worker>

    function Now(): State
      reads this
    {
      State(now, key, issued, workers)
    }

    constructor (n: nat, ttl: nat)
      ensures Now() == Start(n) && this.ttl == ttl
    {
      this.ttl, now, key, issued := ttl, 0, None, 0;
      workers := seq(n, _ => Idle);
    }

    method SetNx(token: nat) returns (acquired: bool)
      modifies this`key
      ensures acquired <==> !Held(old(Now()))
      ensures key == if acquired then Some(Lease(token, now + ttl)) else old(key)
    {
      if key.Some? && key.value.expires > now { return false; }
      key := Some(Lease(token, now + ttl));
      return true;
    }

    method Get() returns (current: Option<nat>)
      ensures current == if Held(Now()) then Some(key.value.token) else None
    {
      current := if key.Some? && now < key.value.expires then Some(key.value.token) else None;
    }

    method TryEnter(w: nat) returns (acquired: bool)
      requires Enabled(Now(), Acquire(w))
      modifies this
      ensures Now() == Apply(old(Now()), Acquire(w), ttl) && (acquired <==> workers[w].Critical?)
    {
      acquired := SetNx(issued);
      if acquired {
        workers := workers[w := Critical(issued, now)];
        issued := issued + 1;
      }
    }

    method LeaveAndRead(w: nat)
      requires Enabled(Now(), Leave(w))
      modifies this`workers
      ensures Now() == Apply(old(Now()), Leave(w), ttl)
    {
      var current := Get();
      workers := workers[w := Read(workers[w].token, workers[w].since, current == Some(workers[w].token))];
    }

    method DeleteIfOwn(w: nat)
      requires Enabled(Now(), Release(w))
      modifies this
      ensures Now() == Apply(old(Now()), Release(w), ttl)
    {
      if workers[w].own { key := None; }
      workers := workers[w := Idle];
    }
  }
}
