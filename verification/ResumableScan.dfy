/**
 A scan that can be interrupted anywhere and resumed.

 Each engine's work is a unit with a digest of its inputs; a unit that is done
 for the same digest is skipped when the assessment is resumed. A run is any
 sequence of resumes, single store operations, failures, crashes and triage. What
 an engine reports is an unknown function of its name and digest.
 */
module ResumableScan {
  import opened Options
  import opened Ledger
  import opened LedgerHistory
  import LedgerTrail

  // ----- work units -----

  datatype UnitStatus = UnitPending | UnitRunning | UnitDone | UnitError

  datatype Unit = Unit(digest: string, status: UnitStatus)

  type Units = map<string, Unit>

  predicate CanSkip(units: Units, key: string, digest: string) {
    key in units && units[key] == Unit(digest, UnitDone)
  }

  function Begin(units: Units, key: string, digest: string): Units {
    if CanSkip(units, key, digest) then units else units[key := Unit(digest, UnitRunning)]
  }

  function Finish(units: Units, key: string, status: UnitStatus): Units {
    if key in units then units[key := units[key].(status := status)] else units
  }

  function Reclaim(units: Units): Units {
    map k | k in units :: if units[k].status.UnitRunning? then units[k].(status := UnitPending) else units[k]
  }

  datatype Decision = SkipUnit | RunUnit

  // The work_units rows of one assessment.
  class WorkUnits {
    var units: Units

    constructor ()
      ensures units == map[]
    {
      units := map[];
    }

    method BeginWorkUnit(key: string, digest: string) returns (decision: Decision)
      modifies this
      ensures decision == if CanSkip(old(units), key, digest) then SkipUnit else RunUnit
      ensures units == Begin(old(units), key, digest)
    {
      if key in units {
        if units[key].status == UnitDone && units[key].digest == digest {
          return SkipUnit;
        }
        units := units[key := units[key].(digest := digest, status := UnitRunning)];
      } else {
        units := units[key := Unit(digest, UnitRunning)];
      }
      return RunUnit;
    }

    method FinishWorkUnit(key: string, status: UnitStatus)
      modifies this
      ensures units == Finish(old(units), key, status)
    {
      if key in units {
        units := units[key := units[key].(status := status)];
      }
    }

    method ReclaimStaleUnits()
      modifies this
      ensures units == Reclaim(old(units))
    {
      var todo := units.Keys;
      while todo != {}
        invariant todo <= units.Keys == old(units).Keys
        invariant forall k :: k in todo ==> units[k] == old(units)[k]
        invariant forall k :: k in units && k !in todo ==> units[k] == Reclaim(old(units))[k]
      {
        var k :| k in todo;
        todo := todo - {k};
        if units[k].status == UnitRunning {
          units := units[k := units[k].(status := UnitPending)];
        }
      }
    }
  }

  // Two workers on one unit at a time: whatever the first one's digest was, its
  // finish makes the unit skippable for the second one's, and for that only.
  lemma FirstFinishMarksSecondDigest(units: Units, key: string, first: string, second: string, digest: string)
    requires !CanSkip(units, key, first)
    ensures var both := Begin(Begin(units, key, first), key, second);
            CanSkip(Finish(both, key, UnitDone), key, digest) <==> digest == second
  {
  }

  // ----- the scan as a machine -----

  // An engine of the plan; only tracked ones have a work unit.
  datatype Source = Source(key: string, tracked: bool)

  datatype Config = Config(
    engagement: string,
    assessment: string,
    plan: seq<Source>,
    digest: (string, string) -> string,     // of an engine and a tree
    hits: (string, string) -> seq<Hit>,     // of an engine and a digest
    suppressed: Hit -> bool,
    skip: seq<string>)                      // categories whose engine does not run

  datatype Pc =
    | Stopped
    | Ready(e: nat)                          // engine e is next
    | Working(e: nat, j: nat, stage: nat)    // hit j: candidate, finding, candidate status
    | Confirming(n: nat, half: bool)         // confirm_pending_candidates, row n
    | Closing(n: nat, listed: seq<Finding>)  // close_absent_findings_except, row n of its listing
    | Finished

  // The event is due: its row is written, and it is the next thing to write.
  datatype State = State(db: Db, units: Units, tree: string, pc: Pc, due: Option<Event>)

  datatype Step =
    | Resume(tree: string)
    | Advance
    | Fail(status: UnitStatus)
    | Crash
    | UserTriage(id: nat, state: string, reason: Option<string>, source: string, interrupted: bool)

  function Digest(c: Config, tree: string, e: nat): string
    requires e < |c.plan|
  {
    c.digest(c.plan[e].key, tree)
  }

  function Hits(c: Config, tree: string, e: nat): seq<Hit>
    requires e < |c.plan|
  {
    c.hits(c.plan[e].key, Digest(c, tree, e))
  }

  function BeginSource(c: Config, s: State, e: nat): State
    requires e < |c.plan|
  {
    var src, digest := c.plan[e], Digest(c, s.tree, e);
    if !src.tracked then s.(pc := Working(e, 0, 0))
    else if CanSkip(s.units, src.key, digest) then s.(pc := Ready(e + 1))
    else s.(units := Begin(s.units, src.key, digest), pc := Working(e, 0, 0))
  }

  function FinishSource(c: Config, s: State, e: nat): State
    requires e < |c.plan|
  {
    s.(units := if c.plan[e].tracked then Finish(s.units, c.plan[e].key, UnitDone) else s.units, pc := Ready(e + 1))
  }

  function WorkOn(c: Config, s: State, e: nat, j: nat, stage: nat, hit: Hit): State
    requires e < |c.plan|
  {
    var i := FindCandidate(s.db.candidates, c.assessment, hit.fingerprint);
    if c.suppressed(hit) then s.(pc := Working(e, j + 1, 0))
    else if stage == 0 then
      s.(db := UpsertCandidate(s.db, c.engagement, c.assessment, c.plan[e].key, hit), pc := Working(e, j, 1))
    else if i.None? then s
    else if stage == 1 then
      s.(db := PromoteRow(s.db, i.value), due := PromoteEvent(s.db, i.value), pc := Working(e, j, 2))
    else s.(db := MarkPromoted(s.db, i.value), pc := Working(e, j + 1, 0))
  }

  function ConfirmRow(c: Config, s: State, n: nat, half: bool): State
    requires n < |s.db.candidates|
  {
    if half then s.(db := MarkPromoted(s.db, n), pc := Confirming(n + 1, false))
    else if IsPendingOf(s.db.candidates[n], c.assessment) then
      s.(db := PromoteRow(s.db, n), due := PromoteEvent(s.db, n), pc := Confirming(n, true))
    else s.(pc := Confirming(n + 1, false))
  }

  function CloseNext(c: Config, s: State, n: nat, listed: seq<Finding>): State
    requires n < |s.db.findings| && n < |listed|
  {
    s.(db := CloseListedRow(s.db, c.engagement, c.assessment, c.skip, n, listed[n]),
       due := CloseListedEvent(c.engagement, c.assessment, c.skip, n, listed[n]),
       pc := Closing(n + 1, listed))
  }

  function Next(c: Config, s: State): State {
    if s.due.Some? then s.(db := AddEvent(s.db, s.due), due := None) else NextRow(c, s)
  }

  function NextRow(c: Config, s: State): State {
    match s.pc
    case Ready(e) => if e < |c.plan| then BeginSource(c, s, e) else s.(pc := Confirming(0, false))
    case Working(e, j, stage) =>
      if e >= |c.plan| then s
      else if j < |Hits(c, s.tree, e)| then WorkOn(c, s, e, j, stage, Hits(c, s.tree, e)[j])
      else FinishSource(c, s, e)
    case Confirming(n, half) =>
      if n < |s.db.candidates| then ConfirmRow(c, s, n, half) else s.(pc := Closing(0, s.db.findings))
    case Closing(n, listed) =>
      if n < |listed| && n < |s.db.findings| then CloseNext(c, s, n, listed) else s.(pc := Finished)
    case _ => s
  }

  function Do(c: Config, s: State, step: Step): State {
    match step
    case Resume(tree) =>
      if s.pc.Stopped? then State(s.db, Reclaim(s.units), tree, Ready(0), None) else s
    case Advance => Next(c, s)
    case Fail(status) =>
      if s.pc.Working? && s.pc.e < |c.plan| && !status.UnitDone? then
        s.(units := if c.plan[s.pc.e].tracked then Finish(s.units, c.plan[s.pc.e].key, status) else s.units,
           pc := Stopped, due := None)
      else s
    case Crash => if s.pc.Finished? then s else s.(pc := Stopped, due := None)
    case UserTriage(id, state, reason, source, interrupted) =>
      var change := LedgerTrail.SetTriage(id, state, reason, source);
      s.(db := if interrupted then LedgerTrail.RowWritten(s.db, change) else LedgerTrail.Complete(s.db, change))
  }

  function Run(c: Config, s: State, steps: seq<Step>): State
    decreases |steps|
  {
    if steps == [] then s else Run(c, Do(c, s, steps[0]), steps[1..])
  }

  // The assessment is new: nothing on the ledger mentions it.
  ghost predicate Fresh(c: Config, db: Db) {
    && RowsOk(db.findings)
    && (forall i :: 0 <= i < |db.findings| ==> db.findings[i].lastSeen != c.assessment)
    && (forall i :: 0 <= i < |db.candidates| ==> db.candidates[i].assessment != c.assessment)
  }

  function Begun(db: Db, tree: string): State {
    State(db, map[], tree, Stopped, None)
  }

  // ----- what is recorded stays recorded -----

  function Row(c: Config, db: Db, f: string): Option<Finding> {
    Lookup(db.findings, c.engagement, f)
  }

  predicate IsSeen(c: Config, db: Db, f: string) {
    Row(c, db, f).Some? && Row(c, db, f).value.lastSeen == c.assessment
  }

  // The hit's candidate is promoted and its finding seen by this assessment, so
  // that closing absent findings will not touch it.
  predicate Recorded(c: Config, db: Db, f: string) {
    var i := FindCandidate(db.candidates, c.assessment, f);
    i.Some? && db.candidates[i.value].status.Promoted? && IsSeen(c, db, f)
  }

  predicate AllRecorded(c: Config, db: Db, hits: seq<Hit>) {
    forall j :: 0 <= j < |hits| && !c.suppressed(hits[j]) ==> Recorded(c, db, hits[j].fingerprint)
  }

  predicate HasCandidate(c: Config, db: Db, f: string) {
    FindCandidate(db.candidates, c.assessment, f).Some?
  }

  // db' has every row of db, and what this assessment has seen stays seen.
  ghost predicate Keeps(c: Config, db: Db, db': Db) {
    && (forall f :: Recorded(c, db, f) ==> Recorded(c, db', f))
    && (forall f :: IsSeen(c, db, f) ==> IsSeen(c, db', f))
    && (forall f :: HasCandidate(c, db, f) ==> HasCandidate(c, db', f))
    && |db.findings| <= |db'.findings|
  }

  lemma CandidateKeeps(c: Config, db: Db, key: string, hit: Hit)
    ensures var db' := UpsertCandidate(db, c.engagement, c.assessment, key, hit);
            && Keeps(c, db, db')
            && FindCandidate(db'.candidates, c.assessment, hit.fingerprint).Some?
            && db'.candidates[FindCandidate(db'.candidates, c.assessment, hit.fingerprint).value].payload == hit
  {
    var db' := UpsertCandidate(db, c.engagement, c.assessment, key, hit);
    var i := FindCandidate(db.candidates, c.assessment, hit.fingerprint);
    forall f ensures FindCandidate(db.candidates, c.assessment, f).Some? ==>
                       FindCandidate(db'.candidates, c.assessment, f) == FindCandidate(db.candidates, c.assessment, f)
    {
      if i.Some? {
        CandidateKept(db.candidates, i.value, db'.candidates[i.value], c.assessment, f);
      } else {
        CandidateAppended(db.candidates, db'.candidates[|db.candidates|], c.assessment, f);
      }
    }
    if i.None? {
      CandidateAppended(db.candidates, db'.candidates[|db.candidates|], c.assessment, hit.fingerprint);
    }
  }

  lemma PromoteKeeps(c: Config, db: Db, i: nat)
    requires i < |db.candidates|
    requires db.candidates[i].assessment == c.assessment && db.candidates[i].engagement == c.engagement
    ensures Keeps(c, db, PromoteRow(db, i))
    ensures IsSeen(c, PromoteRow(db, i), db.candidates[i].payload.fingerprint)
  {
    var hit := db.candidates[i].payload;
    forall f ensures Row(c, PromoteRow(db, i), f)
                  == if f == hit.fingerprint then Some(Upserted(Row(c, db, f), c.engagement, c.assessment, hit))
                     else Row(c, db, f)
    {
      LookupUpserted(db, c.engagement, c.assessment, hit, c.engagement, f);
    }
  }

  lemma MarkKeeps(c: Config, db: Db, i: nat)
    requires i < |db.candidates|
    ensures Keeps(c, db, MarkPromoted(db, i))
    ensures forall f :: FindCandidate(MarkPromoted(db, i).candidates, c.assessment, f)
                     == FindCandidate(db.candidates, c.assessment, f)
  {
    forall f ensures FindCandidate(MarkPromoted(db, i).candidates, c.assessment, f)
                  == FindCandidate(db.candidates, c.assessment, f)
    {
      CandidateKept(db.candidates, i, MarkPromoted(db, i).candidates[i], c.assessment, f);
    }
  }

  lemma LookupAt(db: Db, db': Db, n: nat, e: string, f: string)
    requires n < |db.findings| == |db'.findings| && db'.findings == db.findings[n := db'.findings[n]]
    requires HasKey(db'.findings[n], db.findings[n].engagement, db.findings[n].fingerprint)
    ensures Lookup(db'.findings, e, f)
         == if FindRow(db.findings, e, f) == Some(n) then Some(db'.findings[n]) else Lookup(db.findings, e, f)
  {
    SameKeysSameRow(db.findings, db'.findings, e, f);
  }

  lemma CloseKeeps(c: Config, db: Db, n: nat, listed: Finding)
    requires n < |db.findings|
    ensures Keeps(c, db, CloseListedRow(db, c.engagement, c.assessment, c.skip, n, listed))
  {
    var db' := CloseListedRow(db, c.engagement, c.assessment, c.skip, n, listed);
    forall f ensures IsSeen(c, db, f) ==> IsSeen(c, db', f) {
      LookupAt(db, db', n, c.engagement, f);
    }
  }

  lemma TriageKeeps(c: Config, db: Db, id: nat, state: string, reason: Option<string>, source: string)
    ensures var change := LedgerTrail.SetTriage(id, state, reason, source);
            Keeps(c, db, LedgerTrail.RowWritten(db, change)) && Keeps(c, db, LedgerTrail.Complete(db, change))
  {
    var db' := LedgerTrail.RowWritten(db, LedgerTrail.SetTriage(id, state, reason, source));
    if CheckTriage(db, id, state, reason, source).None? {
      forall f ensures IsSeen(c, db, f) ==> IsSeen(c, db', f) {
        LookupAt(db, db', id, c.engagement, f);
      }
    }
  }

  // ----- skipping is sound -----

  ghost predicate CandidatesOk(c: Config, db: Db) {
    forall i :: 0 <= i < |db.candidates| && db.candidates[i].assessment == c.assessment ==>
      db.candidates[i].engagement == c.engagement
  }

  // A unit done for a digest has all hits of that digest on record.
  ghost predicate DoneSound(c: Config, s: State) {
    forall key :: key in s.units && s.units[key].status.UnitDone? ==>
      AllRecorded(c, s.db, c.hits(key, s.units[key].digest))
  }

  ghost predicate WorkingOk(c: Config, s: State)
    requires s.pc.Working?
  {
    && s.pc.e < |c.plan|
    && var hits := Hits(c, s.tree, s.pc.e);
    && s.pc.j <= |hits|
    && AllRecorded(c, s.db, hits[..s.pc.j])
    && (c.plan[s.pc.e].tracked ==>
          c.plan[s.pc.e].key in s.units && s.units[c.plan[s.pc.e].key].digest == Digest(c, s.tree, s.pc.e))
    && (s.pc.stage > 0 ==> s.pc.j < |hits| && HasCandidate(c, s.db, hits[s.pc.j].fingerprint))
    && (s.pc.stage > 1 ==> IsSeen(c, s.db, hits[s.pc.j].fingerprint))
  }

  ghost predicate Inv(c: Config, s: State) {
    && CandidatesOk(c, s.db) && DoneSound(c, s) && (s.pc.Working? ==> WorkingOk(c, s))
    && (s.pc.Stopped? || s.pc.Finished? ==> s.due.None?)
    && (s.pc.Closing? ==> |s.pc.listed| <= |s.db.findings|)
  }

  lemma KeepsDoneSound(c: Config, s: State, db': Db)
    requires DoneSound(c, s) && Keeps(c, s.db, db')
    ensures DoneSound(c, s.(db := db'))
  {
  }

  lemma EventKeepsInv(c: Config, s: State)
    requires Inv(c, s) && s.due.Some?
    ensures Inv(c, Next(c, s))
  {
    KeepsDoneSound(c, s, AddEvent(s.db, s.due));
  }

  lemma WorkKeepsInv(c: Config, s: State)
    requires Inv(c, s) && s.pc.Working? && s.due.None?
    ensures Inv(c, Next(c, s))
  {
    var e, j, stage, hits := s.pc.e, s.pc.j, s.pc.stage, Hits(c, s.tree, s.pc.e);
    var s' := Next(c, s);
    if j == |hits| {
      assert hits[..j] == hits;
    } else if c.suppressed(hits[j]) {
      assert hits[..j + 1] == hits[..j] + [hits[j]];
    } else {
      var i := FindCandidate(s.db.candidates, c.assessment, hits[j].fingerprint);
      if stage == 0 {
        CandidateKeeps(c, s.db, c.plan[e].key, hits[j]);
      } else if stage == 1 {
        PromoteKeeps(c, s.db, i.value);
      } else {
        MarkKeeps(c, s.db, i.value);
        assert hits[..j + 1] == hits[..j] + [hits[j]];
      }
      KeepsDoneSound(c, s, s'.db);
    }
  }

  lemma ConfirmKeepsInv(c: Config, s: State)
    requires Inv(c, s) && s.pc.Confirming? && s.due.None?
    ensures Inv(c, Next(c, s))
  {
    var n := s.pc.n;
    if n < |s.db.candidates| {
      if s.pc.half {
        MarkKeeps(c, s.db, n);
      } else if IsPendingOf(s.db.candidates[n], c.assessment) {
        PromoteKeeps(c, s.db, n);
      }
      KeepsDoneSound(c, s, Next(c, s).db);
    }
  }

  lemma CloseKeepsInv(c: Config, s: State)
    requires Inv(c, s) && s.pc.Closing? && s.due.None?
    ensures Inv(c, Next(c, s))
  {
    if s.pc.n < |s.pc.listed| {
      CloseKeeps(c, s.db, s.pc.n, s.pc.listed[s.pc.n]);
      KeepsDoneSound(c, s, Next(c, s).db);
    }
  }

  lemma TriageKeepsInv(c: Config, s: State, step: Step)
    requires Inv(c, s) && step.UserTriage?
    ensures Inv(c, Do(c, s, step))
  {
    TriageKeeps(c, s.db, step.id, step.state, step.reason, step.source);
    KeepsDoneSound(c, s, Do(c, s, step).db);
  }

  lemma AdvanceKeepsInv(c: Config, s: State)
    requires Inv(c, s)
    ensures Inv(c, Next(c, s))
  {
    if s.due.Some? {
      EventKeepsInv(c, s);
    } else {
      match s.pc {
        case Working(_, _, _) => WorkKeepsInv(c, s);
        case Confirming(_, _) => ConfirmKeepsInv(c, s);
        case Closing(_, _) => CloseKeepsInv(c, s);
        case _ =>
      }
    }
  }

  lemma StepKeepsInv(c: Config, s: State, step: Step)
    requires Inv(c, s)
    ensures Inv(c, Do(c, s, step))
  {
    match step {
      case Advance => AdvanceKeepsInv(c, s);
      case UserTriage(_, _, _, _, _) => TriageKeepsInv(c, s, step);
      case _ =>
    }
  }

  lemma {:induction false} RunKeepsInv(c: Config, s: State, steps: seq<Step>)
    requires Inv(c, s)
    ensures Inv(c, Run(c, s, steps))
    decreases |steps|
  {
    if steps != [] {
      StepKeepsInv(c, s, steps[0]);
      RunKeepsInv(c, Do(c, s, steps[0]), steps[1..]);
    }
  }

  /** Over any run of resumes, failures, crashes and triage: when a resumed scan
      skips an engine, every unsuppressed hit of that engine and digest is on
      record and safe from being closed as absent. */
  lemma SkipIsSound(c: Config, db: Db, tree: string, steps: seq<Step>, e: nat)
    requires Fresh(c, db) && e < |c.plan|
    requires var s := Run(c, Begun(db, tree), steps); CanSkip(s.units, c.plan[e].key, Digest(c, s.tree, e))
    ensures var s := Run(c, Begun(db, tree), steps); AllRecorded(c, s.db, Hits(c, s.tree, e))
  {
    RunKeepsInv(c, Begun(db, tree), steps);
  }
}
