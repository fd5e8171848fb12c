/**
 Any number of workers on one assessment, each with options of its own.

 Nothing but a check made long before keeps two resumes from running at once, and
 each resume brings its own plan of engines, skipped categories and tree. What
 skipping an engine rests on survives all that, unless a worker begins a unit for
 another digest while some worker is still at that unit.
 */
module ConcurrentScans {
  import opened Options
  import opened Ledger
  import opened ResumableScan

  datatype Worker = Worker(plan: seq<Source>, skip: seq<string>, tree: string, pc: Pc, due: Option<Event>)

  datatype Scan = Scan(db: Db, units: Units, workers: seq<Worker>)

  datatype Action =
    | Start(plan: seq<Source>, skip: seq<string>, tree: string)
    | Act(worker: nat, step: Step)
    | Triaged(step: Step)

  // The scan as one worker sees it, and its options.
  function View(s: Scan, w: Worker): State {
    State(s.db, s.units, w.tree, w.pc, w.due)
  }

  function With(c: Config, w: Worker): Config {
    c.(plan := w.plan, skip := w.skip)
  }

  function Idle(s: Scan): State {
    State(s.db, s.units, "", Stopped, None)
  }

  function DoAny(c: Config, s: Scan, action: Action): Scan {
    match action
    case Start(plan, skip, tree) =>
      Scan(s.db, Reclaim(s.units), s.workers + [Worker(plan, skip, tree, Ready(0), None)])
    case Act(i, step) =>
      if i < |s.workers| && !step.Resume? && !step.UserTriage? then
        var w := s.workers[i];
        var v := Do(With(c, w), View(s, w), step);
        Scan(v.db, v.units, s.workers[i := w.(pc := v.pc, due := v.due)])
      else s
    case Triaged(step) => if step.UserTriage? then s.(db := Do(c, Idle(s), step).db) else s
  }

  function RunAny(c: Config, s: Scan, actions: seq<Action>): Scan
    decreases |actions|
  {
    if actions == [] then s else RunAny(c, DoAny(c, s, actions[0]), actions[1..])
  }

  // ----- what disturbs a worker -----

  // The step begins the unit for the digest.
  predicate Begins(c: Config, s: State, step: Step, key: string, digest: string) {
    && step.Advance? && s.due.None? && s.pc.Ready? && s.pc.e < |c.plan|
    && c.plan[s.pc.e] == Source(key, true) && digest == Digest(c, s.tree, s.pc.e) && !CanSkip(s.units, key, digest)
  }

  // The worker is at the unit, with the digest.
  predicate IsAt(c: Config, w: Worker, key: string, digest: string) {
    && w.pc.Working? && w.pc.e < |w.plan|
    && w.plan[w.pc.e] == Source(key, true) && digest == Digest(With(c, w), w.tree, w.pc.e)
  }

  ghost predicate Disturbs(c: Config, s: Scan, action: Action) {
    && action.Act? && action.worker < |s.workers|
    && var w := s.workers[action.worker];
    exists j, key, mine, other ::
      && 0 <= j < |s.workers| && j != action.worker && mine != other
      && Begins(With(c, w), View(s, w), action.step, key, mine) && IsAt(c, s.workers[j], key, other)
  }

  ghost predicate NeverDisturbs(c: Config, s: Scan, actions: seq<Action>)
    decreases |actions|
  {
    actions == [] || (!Disturbs(c, s, actions[0]) && NeverDisturbs(c, DoAny(c, s, actions[0]), actions[1..]))
  }

  // ----- options do not matter for what is recorded -----

  lemma SameRecords(c: Config, c': Config, db: Db, hits: seq<Hit>)
    requires c' == c.(plan := c'.plan, skip := c'.skip)
    ensures AllRecorded(c', db, hits) <==> AllRecorded(c, db, hits)
  {
    forall f ensures Recorded(c', db, f) <==> Recorded(c, db, f) {}
  }

  lemma SameDoneSound(c: Config, c': Config, s: State, s': State)
    requires c' == c.(plan := c'.plan, skip := c'.skip) && s'.db == s.db && s'.units == s.units
    requires DoneSound(c, s)
    ensures DoneSound(c', s')
  {
    forall key | key in s.units && s.units[key].status.UnitDone?
      ensures AllRecorded(c', s.db, c'.hits(key, s.units[key].digest))
    {
      SameRecords(c, c', s.db, c.hits(key, s.units[key].digest));
    }
  }

  lemma SameKeeps(c: Config, c': Config, db: Db, db': Db)
    requires c' == c.(plan := c'.plan, skip := c'.skip) && Keeps(c, db, db')
    ensures Keeps(c', db, db')
  {
    forall f
      ensures (Recorded(c', db, f) <==> Recorded(c, db, f)) && (Recorded(c', db', f) <==> Recorded(c, db', f))
      ensures (IsSeen(c', db, f) <==> IsSeen(c, db, f)) && (IsSeen(c', db', f) <==> IsSeen(c, db', f))
      ensures HasCandidate(c', db, f) <==> HasCandidate(c, db, f)
      ensures HasCandidate(c', db', f) <==> HasCandidate(c, db', f)
    {
    }
  }

  // ----- what one step does -----

  lemma WorkKeeps(c: Config, s: State)
    requires ResumableScan.Inv(c, s) && s.pc.Working? && s.due.None?
    ensures Keeps(c, s.db, Next(c, s).db)
  {
    var j, hits := s.pc.j, Hits(c, s.tree, s.pc.e);
    if j < |hits| && !c.suppressed(hits[j]) {
      var i := FindCandidate(s.db.candidates, c.assessment, hits[j].fingerprint);
      if s.pc.stage == 0 {
        CandidateKeeps(c, s.db, c.plan[s.pc.e].key, hits[j]);
      } else if s.pc.stage == 1 {
        PromoteKeeps(c, s.db, i.value);
      } else {
        MarkKeeps(c, s.db, i.value);
      }
    }
  }

  lemma StepKeeps(c: Config, s: State, step: Step)
    requires ResumableScan.Inv(c, s)
    ensures Keeps(c, s.db, Do(c, s, step).db)
  {
    if step.UserTriage? {
      TriageKeeps(c, s.db, step.id, step.state, step.reason, step.source);
    } else if step.Advance? && s.due.None? {
      match s.pc {
        case Working(_, _, _) => WorkKeeps(c, s);
        case Confirming(n, half) =>
          if n < |s.db.candidates| {
            if half {
              MarkKeeps(c, s.db, n);
            } else if IsPendingOf(s.db.candidates[n], c.assessment) {
              PromoteKeeps(c, s.db, n);
            }
          }
        case Closing(n, listed) =>
          if n < |listed| {
            CloseKeeps(c, s.db, n, listed[n]);
          }
        case _ =>
      }
    }
  }

  // Only beginning a unit changes its digest.
  lemma StepKeepsDigests(c: Config, s: State, step: Step, key: string)
    requires key in s.units && !step.Resume?
    ensures key in Do(c, s, step).units
    ensures Do(c, s, step).units[key].digest == s.units[key].digest
            || Begins(c, s, step, key, Do(c, s, step).units[key].digest)
  {
  }

  // ----- every interleaving -----

  ghost predicate WorkerOk(c: Config, s: Scan, w: Worker) {
    ResumableScan.Inv(With(c, w), View(s, w))
  }

  ghost predicate AllOk(c: Config, s: Scan) {
    && CandidatesOk(c, s.db) && DoneSound(c, Idle(s))
    && forall i :: 0 <= i < |s.workers| ==> WorkerOk(c, s, s.workers[i])
  }

  // A worker is not affected by what others do, as long as they keep what is
  // recorded and the digest of its unit.
  lemma OthersKeepWorker(c: Config, s: Scan, s': Scan, w: Worker)
    requires WorkerOk(c, s, w) && Keeps(c, s.db, s'.db) && CandidatesOk(c, s'.db) && DoneSound(c, Idle(s'))
    requires forall key, digest :: IsAt(c, w, key, digest) && key in s.units && s.units[key].digest == digest ==>
               key in s'.units && s'.units[key].digest == digest
    ensures WorkerOk(c, s', w)
  {
    var c' := With(c, w);
    SameKeeps(c, c', s.db, s'.db);
    SameDoneSound(c, c', Idle(s'), View(s', w));
    if w.pc.Working? && w.plan[w.pc.e].tracked {
      assert IsAt(c, w, w.plan[w.pc.e].key, Digest(c', w.tree, w.pc.e));
    }
  }

  // What an act does to the rows, and for whoever acts.
  lemma ActKeepsRows(c: Config, s: Scan, i: nat, step: Step)
    requires AllOk(c, s) && i < |s.workers| && !step.Resume? && !step.UserTriage?
    ensures var s' := DoAny(c, s, Act(i, step));
            && Keeps(c, s.db, s'.db) && CandidatesOk(c, s'.db) && DoneSound(c, Idle(s'))
            && |s'.workers| == |s.workers| && WorkerOk(c, s', s'.workers[i])
  {
    var w, s' := s.workers[i], DoAny(c, s, Act(i, step));
    var c' := With(c, w);
    assert WorkerOk(c, s, w);
    StepKeepsInv(c', View(s, w), step);
    StepKeeps(c', View(s, w), step);
    SameKeeps(c', c, s.db, s'.db);
    SameDoneSound(c', c, Do(c', View(s, w), step), Idle(s'));
    assert View(s', s'.workers[i]) == Do(c', View(s, w), step);
  }

  lemma ActKeepsDigest(c: Config, s: Scan, i: nat, step: Step, j: nat, key: string, digest: string)
    requires i < |s.workers| && j < |s.workers| && i != j && !step.Resume? && !step.UserTriage?
    requires !Disturbs(c, s, Act(i, step)) && IsAt(c, s.workers[j], key, digest)
    requires key in s.units && s.units[key].digest == digest
    ensures var s' := DoAny(c, s, Act(i, step)); key in s'.units && s'.units[key].digest == digest
  {
    StepKeepsDigests(With(c, s.workers[i]), View(s, s.workers[i]), step, key);
  }

  lemma ActKeepsOk(c: Config, s: Scan, action: Action)
    requires AllOk(c, s) && action.Act? && !Disturbs(c, s, action)
    ensures AllOk(c, DoAny(c, s, action))
  {
    var i, step := action.worker, action.step;
    if i < |s.workers| && !step.Resume? && !step.UserTriage? {
      var s' := DoAny(c, s, action);
      ActKeepsRows(c, s, i, step);
      forall j | 0 <= j < |s.workers| && j != i ensures WorkerOk(c, s', s.workers[j]) {
        forall key, digest | IsAt(c, s.workers[j], key, digest) && key in s.units && s.units[key].digest == digest
          ensures key in s'.units && s'.units[key].digest == digest
        {
          ActKeepsDigest(c, s, i, step, j, key, digest);
        }
        OthersKeepWorker(c, s, s', s.workers[j]);
      }
    }
  }

  lemma StartKeepsOk(c: Config, s: Scan, action: Action)
    requires AllOk(c, s) && action.Start?
    ensures AllOk(c, DoAny(c, s, action))
  {
    var s' := DoAny(c, s, action);
    forall key | key in s'.units && s'.units[key].status.UnitDone?
      ensures AllRecorded(c, s'.db, c.hits(key, s'.units[key].digest))
    {
      assert AllRecorded(c, s.db, c.hits(key, s.units[key].digest));
    }
    forall j | 0 <= j < |s.workers| ensures WorkerOk(c, s', s.workers[j]) {
      OthersKeepWorker(c, s, s', s.workers[j]);
    }
    var w := s'.workers[|s.workers|];
    SameDoneSound(c, With(c, w), Idle(s'), View(s', w));
  }

  lemma TriageKeepsOk(c: Config, s: Scan, action: Action)
    requires AllOk(c, s) && action.Triaged?
    ensures AllOk(c, DoAny(c, s, action))
  {
    if action.step.UserTriage? {
      var s' := DoAny(c, s, action);
      StepKeepsInv(c, Idle(s), action.step);
      StepKeeps(c, Idle(s), action.step);
      forall j | 0 <= j < |s.workers| ensures WorkerOk(c, s', s.workers[j]) {
        OthersKeepWorker(c, s, s', s.workers[j]);
      }
    }
  }

  lemma {:induction false} RunKeepsOk(c: Config, s: Scan, actions: seq<Action>)
    requires AllOk(c, s) && NeverDisturbs(c, s, actions)
    ensures AllOk(c, RunAny(c, s, actions))
    decreases |actions|
  {
    if actions != [] {
      match actions[0] {
        case Start(_, _, _) => StartKeepsOk(c, s, actions[0]);
        case Act(_, _) => ActKeepsOk(c, s, actions[0]);
        case Triaged(_) => TriageKeepsOk(c, s, actions[0]);
      }
      RunKeepsOk(c, DoAny(c, s, actions[0]), actions[1..]);
    }
  }

  /** Over any interleaving of any number of workers with any options, failures,
      crashes and triage: as long as no unit is begun for another digest while a
      worker is at it, a unit can be skipped only if every unsuppressed hit of its
      engine and digest is on record. */
  lemma SkipIsSoundForAll(c: Config, db: Db, actions: seq<Action>, key: string, digest: string)
    requires Fresh(c, db) && NeverDisturbs(c, Scan(db, map[], []), actions)
    ensures var s := RunAny(c, Scan(db, map[], []), actions);
            CanSkip(s.units, key, digest) ==> AllRecorded(c, s.db, c.hits(key, digest))
  {
    RunKeepsOk(c, Scan(db, map[], []), actions);
  }

  // ----- what a disturbance does -----

  /** A worker that is done with a unit makes it skippable for the digest it was
      last begun for, whoever began it. */
  lemma FinishTakesLastDigest(c: Config, s: Scan, i: nat, key: string, own: string)
    requires i < |s.workers| && IsAt(c, s.workers[i], key, own) && key in s.units
    requires s.workers[i].due.None? && s.workers[i].pc.j >= |c.hits(key, own)|
    ensures CanSkip(DoAny(c, s, Act(i, Advance)).units, key, s.units[key].digest)
  {
  }

  // One engine, whose first digest has no hits and whose second has some.
  predicate HitsComeLater(c: Config, key: string, first: string, second: string) {
    var d1, d2 := c.digest(key, first), c.digest(key, second);
    d1 != d2 && c.hits(key, d1) == [] && |c.hits(key, d2)| > 0 && !c.suppressed(c.hits(key, d2)[0])
  }

  function TwoStarts(key: string, first: string, second: string): seq<Action> {
    [Start([Source(key, true)], [], first), Act(0, Advance), Start([Source(key, true)], [], second), Act(1, Advance),
     Act(0, Advance)]
  }

  // The input: two workers on one engine, the second on a changed tree, and the
  // first one finishes.
  lemma DisturbedSkipIsUnsound(c: Config, db: Db, key: string, first: string, second: string)
    requires Fresh(c, db) && HitsComeLater(c, key, first, second)
    ensures var s := RunAny(c, Scan(db, map[], []), TwoStarts(key, first, second));
            var digest := c.digest(key, second);
            CanSkip(s.units, key, digest) && !AllRecorded(c, s.db, c.hits(key, digest))
  {
    var plan, d1, d2 := [Source(key, true)], c.digest(key, first), c.digest(key, second);
    var s0 := Scan(db, map[], []);
    var w0, w1 := Worker(plan, [], first, Ready(0), None), Worker(plan, [], second, Ready(0), None);
    var a := TwoStarts(key, first, second);
    var s1 := DoAny(c, s0, a[0]);
    assert s1 == Scan(db, map[], [w0]);
    var s2 := DoAny(c, s1, a[1]);
    assert s2 == Scan(db, map[key := Unit(d1, UnitRunning)], [w0.(pc := Working(0, 0, 0))]);
    var s3 := DoAny(c, s2, a[2]);
    assert s3.units == map[key := Unit(d1, UnitPending)] && s3.workers == [w0.(pc := Working(0, 0, 0)), w1];
    var s4 := DoAny(c, s3, a[3]);
    assert s4.units == map[key := Unit(d2, UnitRunning)] && s4.db == db;
    assert s4.workers[0] == w0.(pc := Working(0, 0, 0));
    var s5 := DoAny(c, s4, a[4]);
    assert IsAt(c, s4.workers[0], key, d1);
    FinishTakesLastDigest(c, s4, 0, key, d1);
    assert s5.db == db;
    FiveActions(c, s0, a);
    var hit := c.hits(key, d2)[0];
    assert !Recorded(c, db, hit.fingerprint);
  }

  lemma FiveActions(c: Config, s: Scan, a: seq<Action>)
    requires |a| == 5
    ensures RunAny(c, s, a) == DoAny(c, DoAny(c, DoAny(c, DoAny(c, DoAny(c, s, a[0]), a[1]), a[2]), a[3]), a[4])
  {
    assert a[1..][1..] == a[2..] && a[2..][1..] == a[3..] && a[3..][1..] == a[4..] && a[4..][1..] == [];
    var s2 := DoAny(c, DoAny(c, s, a[0]), a[1]);
    var s4 := DoAny(c, DoAny(c, s2, a[2]), a[3]);
    assert RunAny(c, s4, a[4..]) == DoAny(c, s4, a[4]);
    assert RunAny(c, DoAny(c, s2, a[2]), a[3..]) == RunAny(c, s4, a[4..]);
    assert RunAny(c, s2, a[2..]) == RunAny(c, DoAny(c, s2, a[2]), a[3..]);
    assert RunAny(c, DoAny(c, s, a[0]), a[1..]) == RunAny(c, s2, a[2..]);
  }
}
