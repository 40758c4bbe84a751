/** Incremental ingestion: pull, map, insert once, move the cursor
    (app/ingestion/services/ingest_service.py; extend_lookback in app/services/ingestion_diagnostics.py). */
module Ingestion {
  import opened Wrappers

  /** An alert row is identified by its source and the source's own identifier. */
  datatype Row = Row(source: nat, id: string)

  /** `position` stands for everything the adapter uses to resume. */
  datatype Cursor = Cursor(position: Option<int>, total: nat)

  datatype Db = Db(alerts: seq<Row>, cursors: map<nat, Cursor>)

  /** What the adapter returns for one pull; an item that cannot be mapped is None. */
  datatype Pull = Pull(items: seq<Option<string>>, position: Option<int>, more: bool)

  datatype BatchResult = BatchResult(inserted: nat, duplicates: nat, mapErrors: nat)

  function CursorOf(db: Db, source: nat): Cursor {
    if source in db.cursors then db.cursors[source] else Cursor(None, 0)
  }

  /** INSERT ... ON CONFLICT DO NOTHING, row by row. */
  function InsertNew(alerts: seq<Row>, source: nat, ids: seq<string>): (r: seq<Row>)
    ensures |alerts| <= |r| <= |alerts| + |ids|
    decreases |ids|
  {
    if ids == [] then alerts else
    var row := Row(source, ids[0]);
    InsertNew(if row in alerts then alerts else alerts + [row], source, ids[1..])
  }

  function Mapped(items: seq<Option<string>>): (r: seq<string>)
    ensures |r| <= |items|
  {
    if items == [] then [] else
    Mapped(items[..|items| - 1]) + if items[|items| - 1].Some? then [items[|items| - 1].value] else []
  }

  lemma {:induction false} MappedMember(items: seq<Option<string>>, id: string)
    ensures id in Mapped(items) <==> Some(id) in items
  {
    if items != [] {
      MappedMember(items[..|items| - 1], id);
      assert items == items[..|items| - 1] + [items[|items| - 1]];
    }
  }

  function IngestBatch(db: Db, source: nat, pull: Pull): Db {
    var alerts := InsertNew(db.alerts, source, Mapped(pull.items));
    db.(alerts := alerts, cursors :=
      db.cursors[source := Cursor(pull.position, CursorOf(db, source).total + |alerts| - |db.alerts|)])
  }

  /** Widening the look-back resets the position and keeps the counter. */
  function ExtendLookback(db: Db, source: nat, wazuh: bool, reset: bool): Db {
    if wazuh && reset then db.(cursors := db.cursors[source := Cursor(None, CursorOf(db, source).total)]) else db
  }

  // ---- runs ---------------------------------------------------------------------

  datatype Step =
    | Batch(source: nat, pull: Pull, commits: bool)
    | Lookback(source: nat, wazuh: bool, reset: bool)
    | InjectProbe(id: string)

  /** Health probes are inserted for source `probe` without going through a cursor. */
  function Apply(db: Db, step: Step, probe: nat): Db {
    match step
    case Batch(source, pull, commits) => if commits then IngestBatch(db, source, pull) else db
    case Lookback(source, wazuh, reset) => ExtendLookback(db, source, wazuh, reset)
    case InjectProbe(id) => if Row(probe, id) in db.alerts then db else db.(alerts := db.alerts + [Row(probe, id)])
  }

  function After(db: Db, steps: seq<Step>, probe: nat): Db {
    if steps == [] then db else Apply(After(db, steps[..|steps| - 1], probe), steps[|steps| - 1], probe)
  }

  const Empty: Db := Db([], map[])

  function CountOf(alerts: seq<Row>, source: nat): nat {
    if alerts == [] then 0 else CountOf(alerts[..|alerts| - 1], source) + if alerts[|alerts| - 1].source == source
      then 1 else 0
  }

  /** Some committed pull of the run delivered the identifier. */
  ghost predicate Delivered(steps: seq<Step>, source: nat, id: string) {
    exists i :: 0 <= i < |steps| && DeliveredBy(steps[i], source, id)
  }

  ghost predicate DeliveredBy(step: Step, source: nat, id: string) {
    step.Batch? && step.commits && step.source == source && Some(id) in step.pull.items
  }

  lemma CountOfSnoc(alerts: seq<Row>, row: Row, source: nat)
    ensures CountOf(alerts + [row], source) == CountOf(alerts, source) + if row.source == source then 1 else 0
  {
    assert (alerts + [row])[..|alerts|] == alerts;
  }

  lemma {:induction false} InsertNewCounts(alerts: seq<Row>, source: nat, ids: seq<string>, other: nat)
    ensures var r := InsertNew(alerts, source, ids);
      CountOf(r, other) == CountOf(alerts, other) + if other == source then |r| - |alerts| else 0
    decreases |ids|
  {
    if ids != [] {
      var row := Row(source, ids[0]);
      CountOfSnoc(alerts, row, other);
      InsertNewCounts(if row in alerts then alerts else alerts + [row], source, ids[1..], other);
    }
  }

  lemma {:induction false} InsertNewDistinct(alerts: seq<Row>, source: nat, ids: seq<string>)
    requires Distinct(alerts)
    ensures Distinct(InsertNew(alerts, source, ids))
    decreases |ids|
  {
    if ids != [] {
      var row := Row(source, ids[0]);
      InsertNewDistinct(if row in alerts then alerts else alerts + [row], source, ids[1..]);
    }
  }

  lemma {:induction false} InsertNewMember(alerts: seq<Row>, source: nat, ids: seq<string>, row: Row)
    ensures row in InsertNew(alerts, source, ids) <==> row in alerts || (row.source == source && row.id in ids)
    decreases |ids|
  {
    if ids != [] {
      var first := Row(source, ids[0]);
      var next := if first in alerts then alerts else alerts + [first];
      assert row in next <==> row in alerts || row == first;
      InsertNewMember(next, source, ids[1..], row);
      assert row.id in ids <==> row.id == ids[0] || row.id in ids[1..];
    }
  }

  ghost predicate Inv(db: Db, probe: nat) {
    Distinct(db.alerts) && forall s: nat :: s != probe ==> CursorOf(db, s).total == CountOf(db.alerts, s)
  }

  /** A batch adds exactly the delivered identifiers, each once, and counts them. */
  lemma BatchKeeps(db: Db, source: nat, pull: Pull, probe: nat)
    requires Inv(db, probe) && source != probe
    ensures Inv(IngestBatch(db, source, pull), probe)
  {
    InsertNewDistinct(db.alerts, source, Mapped(pull.items));
    forall s: nat { InsertNewCounts(db.alerts, source, Mapped(pull.items), s); }
  }

  lemma BatchAdds(db: Db, source: nat, pull: Pull, row: Row)
    ensures row in IngestBatch(db, source, pull).alerts <==>
      row in db.alerts || (row.source == source && Some(row.id) in pull.items)
  {
    InsertNewMember(db.alerts, source, Mapped(pull.items), row);
    MappedMember(pull.items, row.id);
  }

  lemma ApplyKeeps(db: Db, step: Step, probe: nat)
    requires Inv(db, probe) && !(step.Batch? && step.source == probe)
    ensures Inv(Apply(db, step, probe), probe)
  {
    match step
    case Batch(source, pull, commits) => BatchKeeps(db, source, pull, probe);
    case Lookback(_, _, _) =>
    case InjectProbe(id) =>
      forall s: nat { CountOfSnoc(db.alerts, Row(probe, id), s); }
  }

  /** A step adds exactly what it delivers, probes aside. */
  lemma ApplyAdds(db: Db, step: Step, probe: nat, row: Row)
    requires row.source != probe
    ensures row in Apply(db, step, probe).alerts <==> row in db.alerts || DeliveredBy(step, row.source, row.id)
  {
    if step.Batch? { BatchAdds(db, step.source, step.pull, row); }
  }

  /** Over any overlapping pulls, failed commits and cursor resets, a source's alerts are exactly the
      delivered identifiers, each once, and its running total is their number. */
  lemma {:induction false} IngestedExactlyOnce(steps: seq<Step>, probe: nat)
    requires forall i :: 0 <= i < |steps| ==> !(steps[i].Batch? && steps[i].source == probe)
    ensures var db := After(Empty, steps, probe);
      && Inv(db, probe)
      && (forall s, id :: s != probe ==> (Row(s, id) in db.alerts <==> Delivered(steps, s, id)))
  {
    if steps != [] {
      var n := |steps| - 1;
      IngestedExactlyOnce(steps[..n], probe);
      ApplyKeeps(After(Empty, steps[..n], probe), steps[n], probe);
      var db := After(Empty, steps, probe);
      forall s, id | s != probe ensures Row(s, id) in db.alerts <==> Delivered(steps, s, id) {
        ApplyAdds(After(Empty, steps[..n], probe), steps[n], probe, Row(s, id));
        assert Delivered(steps[..n], s, id) <==> exists i :: 0 <= i < n && DeliveredBy(steps[i], s, id) by {
          assert forall i :: 0 <= i < n ==> steps[..n][i] == steps[i];
        }
      }
    }
  }

  /** Where a source resumes after some steps: where its last committed pull has left off, or anew when the
      look-back has been extended since. */
  function ResumesAt(steps: seq<Step>, source: nat): Option<int>
    decreases |steps|
  {
    if steps == [] then None else
    var earlier, last := steps[..|steps| - 1], steps[|steps| - 1];
    match last
    case Batch(s, pull, commits) => if s == source && commits then pull.position else ResumesAt(earlier, source)
    case Lookback(s, wazuh, reset) => if s == source && wazuh && reset then None else ResumesAt(earlier, source)
    case InjectProbe(_) => ResumesAt(earlier, source)
  }

  lemma {:induction false} CursorFollows(steps: seq<Step>, source: nat, probe: nat)
    ensures CursorOf(After(Empty, steps, probe), source).position == ResumesAt(steps, source)
  {
    if steps != [] { CursorFollows(steps[..|steps| - 1], source, probe); }
  }

  ghost predicate Injected(steps: seq<Step>, id: string) {
    exists i :: 0 <= i < |steps| && steps[i] == InjectProbe(id)
  }

  /** The alerts of the probe source are those injected, whatever the other sources deliver; and no step
      removes or moves an alert. */
  lemma {:induction false} ProbesInjected(steps: seq<Step>, probe: nat, id: string)
    requires forall i :: 0 <= i < |steps| ==> !(steps[i].Batch? && steps[i].source == probe)
    ensures Row(probe, id) in After(Empty, steps, probe).alerts <==> Injected(steps, id)
    ensures forall n :: 0 <= n <= |steps| ==>
      After(Empty, steps[..n], probe).alerts <= After(Empty, steps, probe).alerts
  {
    if steps != [] {
      var n := |steps| - 1;
      var before := After(Empty, steps[..n], probe);
      ProbesInjected(steps[..n], probe, id);
      if steps[n].Batch? { BatchAdds(before, steps[n].source, steps[n].pull, Row(probe, id)); }
      StepAppends(before, steps[n], probe);
      assert Injected(steps, id) <==> Injected(steps[..n], id) || steps[n] == InjectProbe(id) by {
        if Injected(steps[..n], id) {
          var i :| 0 <= i < n && steps[..n][i] == InjectProbe(id);
          assert steps[i] == InjectProbe(id);
        }
        if Injected(steps, id) && steps[n] != InjectProbe(id) {
          var i :| 0 <= i < |steps| && steps[i] == InjectProbe(id);
          assert steps[..n][i] == InjectProbe(id);
        }
      }
      forall m | 0 <= m <= |steps|
        ensures After(Empty, steps[..m], probe).alerts <= After(Empty, steps, probe).alerts {
        if m <= n { assert steps[..n][..m] == steps[..m]; } else { assert steps[..m] == steps; }
      }
    }
  }

  lemma {:induction false} InsertAppends(alerts: seq<Row>, source: nat, ids: seq<string>)
    ensures alerts <= InsertNew(alerts, source, ids)
    decreases |ids|
  {
    if ids != [] {
      var row := Row(source, ids[0]);
      InsertAppends(if row in alerts then alerts else alerts + [row], source, ids[1..]);
    }
  }

  lemma StepAppends(db: Db, step: Step, probe: nat)
    ensures db.alerts <= Apply(db, step, probe).alerts
  {
    if step.Batch? { InsertAppends(db.alerts, step.source, Mapped(step.pull.items)); }
  }

  /** The items that cannot be mapped. */
  function Unmapped(items: seq<Option<string>>): nat {
    if items == [] then 0 else (if items[0].None? then 1 else 0) + Unmapped(items[1..])
  }

  lemma {:induction false} UnmappedSnoc(items: seq<Option<string>>, item: Option<string>)
    ensures Unmapped(items + [item]) == Unmapped(items) + if item.None? then 1 else 0
  {
    if items == [] {
      assert items + [item] == [item];
    } else {
      assert (items + [item])[1..] == items[1..] + [item];
      UnmappedSnoc(items[1..], item);
    }
  }

  /** One round of a run: the pull raises, or its batch is committed or fails to be. */
  datatype Round = PullRaises | Pulled(pull: Pull, commits: bool)

  predicate Succeeds(r: Round) {
    r.Pulled? && r.commits
  }

  /** The state after some rounds; a failing one leaves no trace. */
  function AfterRounds(db: Db, source: nat, rounds: seq<Round>): Db {
    if rounds == [] then db else
    var before, last := AfterRounds(db, source, rounds[..|rounds| - 1]), rounds[|rounds| - 1];
    if Succeeds(last) then IngestBatch(before, source, last.pull) else before
  }

  lemma RoundAdded(db: Db, source: nat, rounds: seq<Round>, n: nat)
    requires n < |rounds| && Succeeds(rounds[n])
    ensures AfterRounds(db, source, rounds[..n + 1]) ==
      IngestBatch(AfterRounds(db, source, rounds[..n]), source, rounds[n].pull)
  {
    assert rounds[..n + 1][..n] == rounds[..n];
  }

  // ---- the service as the program runs it -------------------------------------------

  class Service {
    const session: Session<Db>

    constructor (session: Session<Db>)
      ensures this.session == session
    {
      this.session := session;
    }

    /** The bulk insert; tells how many rows were new. */
    method Insert(source: nat, ids: seq<string>) returns (inserted: nat)
      modifies session`working
      ensures session.working == old(session.working).(alerts := InsertNew(old(session.working).alerts, source, ids))
      ensures inserted == |session.working.alerts| - |old(session.working).alerts|
    {
      inserted := 0;
      var i := 0;
      while i < |ids|
        invariant 0 <= i <= |ids|
        invariant session.working == old(session.working).(alerts := session.working.alerts)
        invariant InsertNew(session.working.alerts, source, ids[i..]) ==
          InsertNew(old(session.working).alerts, source, ids)
        invariant inserted == |session.working.alerts| - |old(session.working).alerts|
      {
        assert ids[i..][0] == ids[i] && ids[i..][1..] == ids[i + 1..];
        var row := Row(source, ids[i]);
        if row !in session.working.alerts {
          session.working := session.working.(alerts := session.working.alerts + [row]);
          inserted := inserted + 1;
        }
        i := i + 1;
      }
    }

    /** Maps the pulled items; those that cannot be mapped are counted. */
    method MapItems(items: seq<Option<string>>) returns (rows: seq<string>, errors: nat)
      ensures rows == Mapped(items) && |rows| + errors == |items| && errors == Unmapped(items)
    {
      rows, errors := [], 0;
      var i := 0;
      while i < |items|
        invariant 0 <= i <= |items| && rows == Mapped(items[..i]) && |rows| + errors == i
        invariant errors == Unmapped(items[..i])
      {
        assert items[..i + 1][..i] == items[..i] && items[..i + 1] == items[..i] + [items[i]];
        UnmappedSnoc(items[..i], items[i]);
        if items[i].Some? {
          rows := rows + [items[i].value];
        } else {
          errors := errors + 1;
        }
        i := i + 1;
      }
      assert items[..i] == items;
    }

    /** One batch; every pulled item is accounted for exactly once. A failing commit leaves no trace. */
    method RunBatch(source: nat, pull: Pull, commits: bool) returns (result: BatchResult)
      requires session.working == session.committed
      modifies session
      ensures session.working == session.committed ==
        (if commits then IngestBatch(old(session.committed), source, pull) else old(session.committed))
      ensures |pull.items| == result.inserted + result.duplicates + result.mapErrors
      ensures result.inserted == |IngestBatch(old(session.committed), source, pull).alerts| -
        |old(session.committed).alerts|
      ensures result.mapErrors == Unmapped(pull.items)
    {
      var rows, mapErrors := MapItems(pull.items);
      var inserted := 0;
      var total := CursorOf(session.working, source).total;
      if rows != [] { inserted := Insert(source, rows); }
      session.working := session.working.(cursors :=
        session.working.cursors[source := Cursor(pull.position, total + inserted)]);
      if commits { session.Commit(); } else { session.Rollback(); }
      result := BatchResult(inserted, |rows| - inserted, mapErrors);
    }

    /** Resets the cursor of a Wazuh source for a longer look-back; other sources are refused. */
    method Extend(source: nat, wazuh: bool, reset: bool) returns (ok: bool)
      requires session.working == session.committed
      modifies session
      ensures session.working == session.committed == ExtendLookback(old(session.committed), source, wazuh, reset)
      ensures ok == wazuh
    {
      if !wazuh { return false; }
      if reset {
        var total := if source in session.working.cursors then session.working.cursors[source].total else 0;
        session.working := session.working.(cursors := session.working.cursors[source := Cursor(None, total)]);
      }
      session.Commit();
      return true;
    }

    /** Pulls until the source has nothing more, a round fails, or the batch limit is reached: `rounds`
        holds what happens in every round the limit allows. Earlier batches stay committed. */
    method RunForSource(source: nat, rounds: seq<Round>) returns (batches: seq<BatchResult>, raised: bool)
      requires session.working == session.committed
      modifies session
      ensures session.working == session.committed && |batches| <= |rounds|
      ensures session.committed == AfterRounds(old(session.committed), source, rounds[..|batches|])
      ensures forall k :: 0 <= k < |batches| ==> Succeeds(rounds[k]) && (k < |batches| - 1 ==> rounds[k].pull.more)
      ensures raised <==>
        |batches| < |rounds| && !Succeeds(rounds[|batches|]) && (|batches| > 0 ==> rounds[|batches| - 1].pull.more)
      ensures |batches| < |rounds| && !raised ==> |batches| > 0 && !rounds[|batches| - 1].pull.more
    {
      batches, raised := [], false;
      while |batches| < |rounds|
        invariant session.working == session.committed && |batches| <= |rounds|
        invariant session.committed == AfterRounds(old(session.committed), source, rounds[..|batches|])
        invariant forall k :: 0 <= k < |batches| ==> Succeeds(rounds[k]) && rounds[k].pull.more
        decreases |rounds| - |batches|
      {
        var round := rounds[|batches|];
        if round.PullRaises? { return batches, true; }
        var result := RunBatch(source, round.pull, round.commits);
        if !round.commits { return batches, true; }
        RoundAdded(old(session.committed), source, rounds, |batches|);
        batches := batches + [result];
        if !round.pull.more { break; }
      }
    }
  }
}
