/**
 What a completed scan leaves on the ledger, however often it was interrupted.

 For a new assessment of an unchanged tree the outcome is a set computation on
 what was there before, so an interrupted and resumed scan ends like one that
 ran through.
 */
module ScanOutcome {
  import opened Options
  import opened Ledger
  import opened LedgerHistory
  import opened ResumableScan

  // Some engine of the plan reports this fingerprint and no rule suppresses it.
  predicate IsHit(c: Config, tree: string, f: string) {
    exists e, j :: 0 <= e < |c.plan| && 0 <= j < |Hits(c, tree, e)|
                   && !c.suppressed(Hits(c, tree, e)[j]) && Hits(c, tree, e)[j].fingerprint == f
  }

  function TouchedState(before: Option<Finding>): FindingState {
    if before.None? || before.value.state.VerifiedFixed? then Open else before.value.state
  }

  // A row is as before, or a hit that was seen, or gone and closed.
  predicate RowFollows(c: Config, hit: bool, before: Option<Finding>, now: Option<Finding>) {
    || (now == before && (now.Some? ==> now.value.lastSeen != c.assessment))
    || (hit && now.Some? && now.value.lastSeen == c.assessment && now.value.state == TouchedState(before))
    || (!hit && before.Some? && IsActive(before.value.state) && !IsSkipped(before.value.category, c.skip)
        && now == Some(ClosedRow(before.value, c.assessment)))
  }

  // Engines whose hits are all on record.
  function Reached(c: Config, pc: Pc): nat {
    match pc
    case Stopped => 0
    case Ready(e) => e
    case Working(e, _, _) => e
    case _ => |c.plan|
  }

  ghost predicate RowsFollow(c: Config, before: Db, tree: string, db: Db) {
    forall f :: RowFollows(c, IsHit(c, tree, f), Row(c, before, f), Row(c, db, f))
  }

  ghost predicate CandidatesAreHits(c: Config, tree: string, db: Db) {
    forall i :: 0 <= i < |db.candidates| && db.candidates[i].assessment == c.assessment ==>
      IsHit(c, tree, db.candidates[i].payload.fingerprint)
  }

  ghost predicate RecordedUpTo(c: Config, tree: string, db: Db, n: nat) {
    n <= |c.plan| && forall e :: 0 <= e < n ==> AllRecorded(c, db, Hits(c, tree, e))
  }

  ghost predicate NoneGone(c: Config, db: Db, n: nat) {
    forall i :: 0 <= i < n && i < |db.findings| ==> !IsGone(db.findings[i], c.engagement, c.assessment, c.skip)
  }

  // The rows not yet closed are as they were listed.
  predicate ListingHolds(s: State)
    requires s.pc.Closing?
  {
    |s.pc.listed| == |s.db.findings| && forall i :: s.pc.n <= i < |s.pc.listed| ==> s.pc.listed[i] == s.db.findings[i]
  }

  ghost predicate OnTrack(c: Config, before: Db, tree: string, s: State) {
    && Inv(c, s) && RowsOk(s.db.findings)
    && s.tree == tree
    && (forall key :: key in s.units ==> s.units[key].digest == c.digest(key, tree))
    && RowsFollow(c, before, tree, s.db)
    && CandidatesAreHits(c, tree, s.db)
    && RecordedUpTo(c, tree, s.db, Reached(c, s.pc))
    && (s.pc.Closing? ==> NoneGone(c, s.db, s.pc.n) && ListingHolds(s))
    && (s.pc.Finished? ==> NoneGone(c, s.db, |s.db.findings|))
  }

  // Resumes find the tree unchanged, and nobody triages meanwhile.
  predicate Steady(steps: seq<Step>, tree: string) {
    forall i :: 0 <= i < |steps| ==> !steps[i].UserTriage? && (steps[i].Resume? ==> steps[i].tree == tree)
  }

  lemma KeepsRecorded(c: Config, tree: string, db: Db, db': Db, n: nat)
    requires RecordedUpTo(c, tree, db, n) && Keeps(c, db, db')
    ensures RecordedUpTo(c, tree, db', n)
  {
  }

  lemma PromoteFollows(c: Config, before: Db, tree: string, db: Db, i: nat)
    requires RowsFollow(c, before, tree, db) && RowsOk(db.findings) && i < |db.candidates|
    requires db.candidates[i].engagement == c.engagement && db.candidates[i].assessment == c.assessment
    requires IsHit(c, tree, db.candidates[i].payload.fingerprint)
    ensures RowsFollow(c, before, tree, PromoteRow(db, i)) && RowsOk(PromoteRow(db, i).findings)
  {
    var hit, db' := db.candidates[i].payload, PromoteRow(db, i);
    UpsertKeepsRows(db, c.engagement, c.assessment, hit);
    forall f ensures RowFollows(c, IsHit(c, tree, f), Row(c, before, f), Row(c, db', f)) {
      LookupUpserted(db, c.engagement, c.assessment, hit, c.engagement, f);
      assert RowFollows(c, IsHit(c, tree, f), Row(c, before, f), Row(c, db, f));
    }
  }

  lemma HitIsRecorded(c: Config, tree: string, db: Db, f: string)
    requires IsHit(c, tree, f) && RecordedUpTo(c, tree, db, |c.plan|)
    ensures Recorded(c, db, f)
  {
  }

  lemma UniqueRowIsFound(rows: seq<Finding>, n: nat)
    requires UniqueRows(rows) && n < |rows|
    ensures FindRow(rows, rows[n].engagement, rows[n].fingerprint) == Some(n)
  {
  }

  lemma CloseFollows(c: Config, before: Db, tree: string, db: Db, n: nat)
    requires RowsFollow(c, before, tree, db) && RowsOk(db.findings) && n < |db.findings|
    requires RecordedUpTo(c, tree, db, |c.plan|)
    ensures var db' := CloseRowAt(db, c.engagement, c.assessment, c.skip, n);
            RowsFollow(c, before, tree, db') && RowsOk(db'.findings)
  {
    var db', row := CloseRowAt(db, c.engagement, c.assessment, c.skip, n), db.findings[n];
    CloseKeepsRows(db, c.engagement, c.assessment, c.skip, n);
    UniqueRowIsFound(db.findings, n);
    forall f ensures RowFollows(c, IsHit(c, tree, f), Row(c, before, f), Row(c, db', f)) {
      LookupAt(db, db', n, c.engagement, f);
      assert RowFollows(c, IsHit(c, tree, f), Row(c, before, f), Row(c, db, f));
      if FindRow(db.findings, c.engagement, f) == Some(n) && IsHit(c, tree, f) {
        HitIsRecorded(c, tree, db, f);
      }
    }
  }

  // One store operation on a hit that is not suppressed.
  lemma WorkFollows(c: Config, before: Db, tree: string, s: State)
    requires OnTrack(c, before, tree, s) && s.pc.Working? && s.due.None?
    requires s.pc.j < |Hits(c, tree, s.pc.e)| && !c.suppressed(Hits(c, tree, s.pc.e)[s.pc.j])
    ensures var db' := Next(c, s).db;
            && RowsFollow(c, before, tree, db') && RowsOk(db'.findings)
            && CandidatesAreHits(c, tree, db') && Keeps(c, s.db, db')
  {
    var hit := Hits(c, tree, s.pc.e)[s.pc.j];
    assert IsHit(c, tree, hit.fingerprint);
    var i := FindCandidate(s.db.candidates, c.assessment, hit.fingerprint);
    if s.pc.stage == 0 {
      CandidateKeeps(c, s.db, c.plan[s.pc.e].key, hit);
    } else if s.pc.stage == 1 {
      PromoteKeeps(c, s.db, i.value);
      PromoteFollows(c, before, tree, s.db, i.value);
    } else {
      MarkKeeps(c, s.db, i.value);
    }
  }

  lemma WorkOnTrack(c: Config, before: Db, tree: string, s: State)
    requires OnTrack(c, before, tree, s) && s.pc.Working? && s.due.None?
    ensures OnTrack(c, before, tree, Next(c, s))
  {
    WorkKeepsInv(c, s);
    var j, hits := s.pc.j, Hits(c, s.tree, s.pc.e);
    if j == |hits| {
      assert hits[..j] == hits;
    } else if !c.suppressed(hits[j]) {
      WorkFollows(c, before, tree, s);
      KeepsRecorded(c, tree, s.db, Next(c, s).db, s.pc.e);
    }
  }

  lemma ConfirmOnTrack(c: Config, before: Db, tree: string, s: State)
    requires OnTrack(c, before, tree, s) && s.pc.Confirming? && s.due.None?
    ensures OnTrack(c, before, tree, Next(c, s))
  {
    ConfirmKeepsInv(c, s);
    var n := s.pc.n;
    if n < |s.db.candidates| {
      if s.pc.half {
        MarkKeeps(c, s.db, n);
      } else if IsPendingOf(s.db.candidates[n], c.assessment) {
        PromoteKeeps(c, s.db, n);
        PromoteFollows(c, before, tree, s.db, n);
      }
      KeepsRecorded(c, tree, s.db, Next(c, s).db, |c.plan|);
    }
  }

  lemma CloseOnTrack(c: Config, before: Db, tree: string, s: State)
    requires OnTrack(c, before, tree, s) && s.pc.Closing? && s.due.None?
    ensures OnTrack(c, before, tree, Next(c, s))
  {
    CloseKeepsInv(c, s);
    if s.pc.n < |s.db.findings| {
      CloseKeeps(c, s.db, s.pc.n, s.db.findings[s.pc.n]);
      CloseFollows(c, before, tree, s.db, s.pc.n);
      KeepsRecorded(c, tree, s.db, Next(c, s).db, |c.plan|);
    }
  }

  // Beginning an engine, or skipping one whose hits are on record.
  lemma BeginOnTrack(c: Config, before: Db, tree: string, s: State)
    requires OnTrack(c, before, tree, s) && s.pc.Ready? && s.due.None?
    ensures OnTrack(c, before, tree, Next(c, s))
  {
    StepKeepsInv(c, s, Advance);
  }

  lemma EventOnTrack(c: Config, before: Db, tree: string, s: State)
    requires OnTrack(c, before, tree, s) && s.due.Some?
    ensures OnTrack(c, before, tree, Next(c, s))
  {
    EventKeepsInv(c, s);
    var db' := AddEvent(s.db, s.due);
    forall f ensures RowFollows(c, IsHit(c, tree, f), Row(c, before, f), Row(c, db', f)) {
      assert RowFollows(c, IsHit(c, tree, f), Row(c, before, f), Row(c, s.db, f));
    }
    KeepsRecorded(c, tree, s.db, db', Reached(c, s.pc));
  }

  lemma AdvanceOnTrack(c: Config, before: Db, tree: string, s: State)
    requires OnTrack(c, before, tree, s)
    ensures OnTrack(c, before, tree, Next(c, s))
  {
    if s.due.Some? {
      EventOnTrack(c, before, tree, s);
    } else {
      match s.pc {
        case Ready(_) => BeginOnTrack(c, before, tree, s);
        case Working(_, _, _) => WorkOnTrack(c, before, tree, s);
        case Confirming(_, _) => ConfirmOnTrack(c, before, tree, s);
        case Closing(_, _) => CloseOnTrack(c, before, tree, s);
        case _ =>
      }
    }
  }

  lemma StepOnTrack(c: Config, before: Db, tree: string, s: State, step: Step)
    requires OnTrack(c, before, tree, s)
    requires !step.UserTriage? && (step.Resume? ==> step.tree == tree)
    ensures OnTrack(c, before, tree, Do(c, s, step))
  {
    match step {
      case Advance => AdvanceOnTrack(c, before, tree, s);
      case _ => StepKeepsInv(c, s, step);
    }
  }

  lemma {:induction false} RunOnTrack(c: Config, before: Db, tree: string, s: State, steps: seq<Step>)
    requires OnTrack(c, before, tree, s) && Steady(steps, tree)
    ensures OnTrack(c, before, tree, Run(c, s, steps))
    decreases |steps|
  {
    if steps != [] {
      StepOnTrack(c, before, tree, s, steps[0]);
      RunOnTrack(c, before, tree, Do(c, s, steps[0]), steps[1..]);
    }
  }

  lemma FreshIsOnTrack(c: Config, db: Db, tree: string)
    requires Fresh(c, db)
    ensures OnTrack(c, db, tree, Begun(db, tree))
  {
  }

  // ----- the outcome -----

  predicate InState(c: Config, db: Db, f: string, state: FindingState) {
    Row(c, db, f).Some? && Row(c, db, f).value.state == state
  }

  predicate IsOpen(c: Config, db: Db, f: string) {
    Row(c, db, f).Some? && IsActive(Row(c, db, f).value.state)
  }

  predicate IsOpenAndSkipped(c: Config, db: Db, f: string) {
    IsOpen(c, db, f) && IsSkipped(Row(c, db, f).value.category, c.skip)
  }

  /** After any run of interruptions and resumes that completes: the open or
      confirmed findings are the hits that were not dismissed, and those of
      skipped categories that were open before. */
  lemma CompletedScan(c: Config, before: Db, tree: string, steps: seq<Step>, f: string)
    requires Fresh(c, before) && Steady(steps, tree)
    requires Run(c, Begun(before, tree), steps).pc.Finished?
    ensures IsOpen(c, Run(c, Begun(before, tree), steps).db, f)
            <==> (IsHit(c, tree, f) && !InState(c, before, f, Dismissed)) || IsOpenAndSkipped(c, before, f)
  {
    FreshIsOnTrack(c, before, tree);
    RunOnTrack(c, before, tree, Begun(before, tree), steps);
    var db := Run(c, Begun(before, tree), steps).db;
    assert RowFollows(c, IsHit(c, tree, f), Row(c, before, f), Row(c, db, f));
    if IsHit(c, tree, f) {
      HitIsRecorded(c, tree, db, f);
    }
    var i := FindRow(db.findings, c.engagement, f);
    if i.Some? {
      assert !IsGone(db.findings[i.value], c.engagement, c.assessment, c.skip);
    }
  }

  /** Dismissed findings stay dismissed, fixed findings that are hit again reopen,
      open ones that are neither hit nor skipped are closed as absent. */
  lemma CompletedScanStates(c: Config, before: Db, tree: string, steps: seq<Step>, f: string)
    requires Fresh(c, before) && Steady(steps, tree)
    requires Run(c, Begun(before, tree), steps).pc.Finished?
    ensures var db := Run(c, Begun(before, tree), steps).db;
            && RowsOk(db.findings)
            && (InState(c, before, f, Dismissed) ==> InState(c, db, f, Dismissed))
            && (InState(c, before, f, VerifiedFixed) && IsHit(c, tree, f) ==> InState(c, db, f, Open))
            && (IsOpen(c, before, f) && !IsHit(c, tree, f) && !IsOpenAndSkipped(c, before, f)
                ==> Row(c, db, f) == Some(ClosedRow(Row(c, before, f).value, c.assessment)))
  {
    FreshIsOnTrack(c, before, tree);
    RunOnTrack(c, before, tree, Begun(before, tree), steps);
    var db := Run(c, Begun(before, tree), steps).db;
    assert RowFollows(c, IsHit(c, tree, f), Row(c, before, f), Row(c, db, f));
    if IsHit(c, tree, f) {
      HitIsRecorded(c, tree, db, f);
    }
    var i := FindRow(db.findings, c.engagement, f);
    if i.Some? {
      assert !IsGone(db.findings[i.value], c.engagement, c.assessment, c.skip);
    }
  }

  /** The fingerprints on the ledger: candidates are exactly the hits, findings
      the hits and what was there. */
  lemma CompletedScanFingerprints(c: Config, before: Db, tree: string, steps: seq<Step>, f: string)
    requires Fresh(c, before) && Steady(steps, tree)
    requires Run(c, Begun(before, tree), steps).pc.Finished?
    ensures FindCandidate(Run(c, Begun(before, tree), steps).db.candidates, c.assessment, f).Some?
            <==> IsHit(c, tree, f)
    ensures Row(c, Run(c, Begun(before, tree), steps).db, f).Some? <==> IsHit(c, tree, f) || Row(c, before, f).Some?
  {
    FreshIsOnTrack(c, before, tree);
    RunOnTrack(c, before, tree, Begun(before, tree), steps);
    var db := Run(c, Begun(before, tree), steps).db;
    assert RowFollows(c, IsHit(c, tree, f), Row(c, before, f), Row(c, db, f));
    if IsHit(c, tree, f) {
      HitIsRecorded(c, tree, db, f);
    }
  }

  /** Two completed scans of the same tree agree, whatever interrupted them. */
  lemma InterruptionsDoNotMatter(c: Config, before: Db, tree: string, one: seq<Step>, other: seq<Step>, f: string)
    requires Fresh(c, before) && Steady(one, tree) && Steady(other, tree)
    requires Run(c, Begun(before, tree), one).pc.Finished? && Run(c, Begun(before, tree), other).pc.Finished?
    ensures IsOpen(c, Run(c, Begun(before, tree), one).db, f) == IsOpen(c, Run(c, Begun(before, tree), other).db, f)
    ensures FindCandidate(Run(c, Begun(before, tree), one).db.candidates, c.assessment, f).Some?
         == FindCandidate(Run(c, Begun(before, tree), other).db.candidates, c.assessment, f).Some?
    ensures Row(c, Run(c, Begun(before, tree), one).db, f).Some?
         == Row(c, Run(c, Begun(before, tree), other).db, f).Some?
  {
    CompletedScan(c, before, tree, one, f);
    CompletedScan(c, before, tree, other, f);
    CompletedScanFingerprints(c, before, tree, one, f);
    CompletedScanFingerprints(c, before, tree, other, f);
  }

  // ----- every scan can be completed -----

  function Phase(c: Config, pc: Pc): nat {
    match pc
    case Ready(e) => 4 + if e < |c.plan| then 2 * (|c.plan| - e) else 0
    case Working(e, _, _) => 3 + if e < |c.plan| then 2 * (|c.plan| - e) else 0
    case Confirming(_, _) => 2
    case Closing(_, _) => 1
    case _ => 0
  }

  function RowsLeft(c: Config, s: State): int {
    match s.pc
    case Working(e, j, _) => if e < |c.plan| then |Hits(c, s.tree, e)| - j else 0
    case Confirming(n, _) => |s.db.candidates| - n
    case Closing(n, listed) => |listed| - n
    case _ => 0
  }

  function OperationsLeft(s: State): nat {
    (match s.pc
     case Working(_, _, stage) => if stage < 3 then 2 * (3 - stage) else 0
     case Confirming(_, half) => if half then 0 else 2
     case _ => 0)
    + if s.due.Some? then 1 else 0
  }

  // How far a scan is from its end, in lexicographic order.
  ghost predicate Closer(c: Config, s': State, s: State) {
    || Phase(c, s'.pc) < Phase(c, s.pc)
    || (Phase(c, s'.pc) == Phase(c, s.pc) && RowsLeft(c, s') < RowsLeft(c, s) && 0 < RowsLeft(c, s))
    || (Phase(c, s'.pc) == Phase(c, s.pc) && RowsLeft(c, s') == RowsLeft(c, s)
        && OperationsLeft(s') < OperationsLeft(s))
  }

  lemma AdvanceIsCloser(c: Config, s: State)
    requires Inv(c, s) && !s.pc.Stopped? && !s.pc.Finished?
    ensures Closer(c, Next(c, s), s)
  {
  }

  lemma {:induction false} AdvanceToEnd(c: Config, s: State) returns (steps: seq<Step>)
    requires Inv(c, s) && !s.pc.Stopped?
    ensures forall i :: 0 <= i < |steps| ==> steps[i] == Advance
    ensures Run(c, s, steps).pc.Finished?
    decreases Phase(c, s.pc), RowsLeft(c, s), OperationsLeft(s)
  {
    if s.pc.Finished? {
      steps := [];
    } else {
      StepKeepsInv(c, s, Advance);
      AdvanceIsCloser(c, s);
      var rest := AdvanceToEnd(c, Next(c, s));
      steps := [Advance] + rest;
      assert steps[1..] == rest;
    }
  }

  /** Wherever a run of the scan has got to, one more resume without interruption
      completes it. */
  lemma ResumeCompletes(c: Config, before: Db, tree: string, steps: seq<Step>) returns (more: seq<Step>)
    requires Fresh(c, before)
    ensures Steady(more, tree) && forall i :: 0 <= i < |more| ==> more[i] == Resume(tree) || more[i] == Advance
    ensures Run(c, Run(c, Begun(before, tree), steps), more).pc.Finished?
  {
    var s := Run(c, Begun(before, tree), steps);
    RunKeepsInv(c, Begun(before, tree), steps);
    StepKeepsInv(c, s, Resume(tree));
    var s' := Do(c, s, Resume(tree));
    var rest := AdvanceToEnd(c, s');
    more := [Resume(tree)] + rest;
    assert more[1..] == rest;
  }
}
