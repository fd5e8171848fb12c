/**
 The audit trail of a scan that is interrupted.

 A scan changes each finding at most once, so an event that an interruption loses
 is missing for good: the trail replays exactly when no interruption fell between
 a row and its event.
 */
module ScanTrail {
  import opened Options
  import opened Ledger
  import opened LedgerHistory
  import opened ResumableScan
  import opened ScanOutcome

  // The step stops the scan while an event is due.
  predicate LosesEvent(c: Config, s: State, step: Step) {
    s.due.Some? && Do(c, s, step).pc.Stopped?
  }

  predicate NeverLoses(c: Config, s: State, steps: seq<Step>)
    decreases |steps|
  {
    steps == [] || (!LosesEvent(c, s, steps[0]) && NeverLoses(c, Do(c, s, steps[0]), steps[1..]))
  }

  predicate IsDue(s: State, i: nat) {
    s.due.Some? && s.due.value.finding == i
  }

  // Rows this assessment has not seen are as before; a hit it has seen is not fixed.
  ghost predicate RowsSettle(c: Config, before: Db, tree: string, rows: seq<Finding>) {
    && |before.findings| <= |rows|
    && (forall i :: 0 <= i < |rows| && rows[i].lastSeen != c.assessment ==>
          i < |before.findings| && rows[i] == before.findings[i])
    && (forall i :: 0 <= i < |rows| && rows[i].lastSeen == c.assessment ==>
          rows[i].engagement == c.engagement && (rows[i].state.VerifiedFixed? ==> !IsHit(c, tree, rows[i].fingerprint)))
  }

  // The events tell every row's state, but for the findings whose event was lost
  // or is due: for those they tell the state before the scan, which has changed.
  ghost predicate EventsTell(c: Config, before: Db, s: State, lost: set<nat>) {
    && Chained(s.db.events)
    && (forall i: nat :: LastTo(s.db.events, i)
                      == StateAt(if i in lost || IsDue(s, i) then before.findings else s.db.findings, i))
    && (forall i: nat :: i in lost || IsDue(s, i) ==>
          && i < |s.db.findings| && s.db.findings[i].lastSeen == c.assessment
          && StateAt(before.findings, i) != StateAt(s.db.findings, i))
    && (s.due.Some? ==>
          var e := s.due.value;
          && e.finding !in lost && e.from == StateAt(before.findings, e.finding)
          && StateAt(s.db.findings, e.finding) == Some(e.to) && (e.from.None? ==> e.to.Open?))
  }

  ghost predicate TrailOk(c: Config, before: Db, tree: string, s: State, lost: set<nat>) {
    RowsSettle(c, before, tree, s.db.findings) && EventsTell(c, before, s, lost)
  }

  lemma PromoteKeepsTrail(c: Config, before: Db, tree: string, s: State, lost: set<nat>, k: nat, s': State)
    requires TrailOk(c, before, tree, s, lost) && s.due.None? && k < |s.db.candidates|
    requires var cand := s.db.candidates[k];
             && cand.engagement == c.engagement && cand.assessment == c.assessment
             && IsHit(c, tree, cand.payload.fingerprint)
    requires s'.db == PromoteRow(s.db, k) && s'.due == PromoteEvent(s.db, k)
    ensures TrailOk(c, before, tree, s', lost)
  {
    var hit := s.db.candidates[k].payload;
    var i := FindRow(s.db.findings, c.engagement, hit.fingerprint);
    var n := if i.Some? then i.value else |s.db.findings|;
    assert forall j: nat :: j != n ==> StateAt(s'.db.findings, j) == StateAt(s.db.findings, j);
    assert LastTo(s.db.events, n) == StateAt(if n in lost then before.findings else s.db.findings, n);
  }

  lemma CloseKeepsTrail(c: Config, before: Db, tree: string, s: State, lost: set<nat>, n: nat, listed: seq<Finding>)
    requires TrailOk(c, before, tree, s, lost) && s.due.None? && n < |s.db.findings| == |listed|
    requires listed[n] == s.db.findings[n]
    requires var row := s.db.findings[n];
             IsGone(row, c.engagement, c.assessment, c.skip) ==> !IsHit(c, tree, row.fingerprint)
    ensures TrailOk(c, before, tree, CloseNext(c, s, n, listed), lost)
  {
    var s' := CloseNext(c, s, n, listed);
    assert forall j: nat :: j != n ==> StateAt(s'.db.findings, j) == StateAt(s.db.findings, j);
    assert LastTo(s.db.events, n) == StateAt(if n in lost then before.findings else s.db.findings, n);
  }

  lemma EventKeepsTrail(c: Config, before: Db, tree: string, s: State, lost: set<nat>)
    requires TrailOk(c, before, tree, s, lost) && s.due.Some?
    ensures TrailOk(c, before, tree, Next(c, s), lost)
  {
    EventAppended(s.db.events, s.due.value);
  }

  // The finding whose event the step loses.
  function Lost(c: Config, s: State, step: Step): set<nat> {
    if LosesEvent(c, s, step) then {s.due.value.finding} else {}
  }

  lemma GoneIsNoHit(c: Config, before: Db, tree: string, s: State, n: nat)
    requires OnTrack(c, before, tree, s) && s.pc.Closing? && n < |s.db.findings|
    requires IsGone(s.db.findings[n], c.engagement, c.assessment, c.skip)
    ensures !IsHit(c, tree, s.db.findings[n].fingerprint)
  {
    var row := s.db.findings[n];
    UniqueRowIsFound(s.db.findings, n);
    if IsHit(c, tree, row.fingerprint) {
      HitIsRecorded(c, tree, s.db, row.fingerprint);
    }
  }

  lemma WorkKeepsTrail(c: Config, before: Db, tree: string, s: State, lost: set<nat>)
    requires OnTrack(c, before, tree, s) && s.pc.Working? && s.due.None? && TrailOk(c, before, tree, s, lost)
    ensures TrailOk(c, before, tree, Next(c, s), lost)
  {
    var j, hits := s.pc.j, Hits(c, s.tree, s.pc.e);
    if j < |hits| && !c.suppressed(hits[j]) && s.pc.stage == 1 {
      assert IsHit(c, tree, hits[j].fingerprint);
      var k := FindCandidate(s.db.candidates, c.assessment, hits[j].fingerprint).value;
      PromoteKeepsTrail(c, before, tree, s, lost, k, Next(c, s));
    }
  }

  lemma ConfirmKeepsTrail(c: Config, before: Db, tree: string, s: State, lost: set<nat>)
    requires OnTrack(c, before, tree, s) && s.pc.Confirming? && s.due.None? && TrailOk(c, before, tree, s, lost)
    ensures TrailOk(c, before, tree, Next(c, s), lost)
  {
    var n := s.pc.n;
    if n < |s.db.candidates| && !s.pc.half && IsPendingOf(s.db.candidates[n], c.assessment) {
      PromoteKeepsTrail(c, before, tree, s, lost, n, Next(c, s));
    }
  }

  lemma CloseNextKeepsTrail(c: Config, before: Db, tree: string, s: State, lost: set<nat>)
    requires OnTrack(c, before, tree, s) && s.pc.Closing? && s.due.None? && TrailOk(c, before, tree, s, lost)
    ensures TrailOk(c, before, tree, Next(c, s), lost)
  {
    var n := s.pc.n;
    if n < |s.db.findings| {
      if IsGone(s.db.findings[n], c.engagement, c.assessment, c.skip) {
        GoneIsNoHit(c, before, tree, s, n);
      }
      CloseKeepsTrail(c, before, tree, s, lost, n, s.pc.listed);
    }
  }

  lemma AdvanceKeepsTrail(c: Config, before: Db, tree: string, s: State, lost: set<nat>)
    requires OnTrack(c, before, tree, s) && TrailOk(c, before, tree, s, lost)
    ensures TrailOk(c, before, tree, Next(c, s), lost)
  {
    if s.due.Some? {
      EventKeepsTrail(c, before, tree, s, lost);
    } else {
      match s.pc {
        case Working(_, _, _) => WorkKeepsTrail(c, before, tree, s, lost);
        case Confirming(_, _) => ConfirmKeepsTrail(c, before, tree, s, lost);
        case Closing(_, _) => CloseNextKeepsTrail(c, before, tree, s, lost);
        case _ =>
      }
    }
  }

  lemma StepKeepsTrail(c: Config, before: Db, tree: string, s: State, step: Step, lost: set<nat>)
    requires OnTrack(c, before, tree, s) && TrailOk(c, before, tree, s, lost)
    requires !step.UserTriage? && (step.Resume? ==> step.tree == tree)
    ensures TrailOk(c, before, tree, Do(c, s, step), lost + Lost(c, s, step))
  {
    if step.Advance? {
      AdvanceKeepsTrail(c, before, tree, s, lost);
      StepKeepsInv(c, s, step);
    }
  }

  lemma {:induction false} RunKeepsTrail(c: Config, before: Db, tree: string, s: State, steps: seq<Step>,
                                         lost: set<nat>)
    returns (lost': set<nat>)
    requires OnTrack(c, before, tree, s) && TrailOk(c, before, tree, s, lost) && Steady(steps, tree)
    ensures TrailOk(c, before, tree, Run(c, s, steps), lost')
    ensures lost' == {} <==> lost == {} && NeverLoses(c, s, steps)
    decreases |steps|
  {
    lost' := lost;
    if steps != [] {
      StepKeepsTrail(c, before, tree, s, steps[0], lost);
      StepOnTrack(c, before, tree, s, steps[0]);
      lost' := RunKeepsTrail(c, before, tree, Do(c, s, steps[0]), steps[1..], lost + Lost(c, s, steps[0]));
    }
  }

  lemma FreshTrail(c: Config, before: Db, tree: string)
    requires Fresh(c, before) && ReplayOk(before)
    ensures TrailOk(c, before, tree, Begun(before, tree), {})
  {
  }

  lemma OnlyLossesSpoil(c: Config, before: Db, tree: string, s: State, lost: set<nat>)
    requires OnTrack(c, before, tree, s) && TrailOk(c, before, tree, s, lost) && s.due.None?
    ensures ReplayOk(s.db) <==> lost == {}
  {
    if lost != {} {
      var i :| i in lost;
      assert LastTo(s.db.events, i) == StateAt(before.findings, i) != StateAt(s.db.findings, i);
    }
  }

  /** Whenever no event is due, in particular after a completed scan and after every
      crash, the trail replays if and only if no interruption so far fell between a
      row and its event. */
  lemma TrailReplaysExactly(c: Config, before: Db, tree: string, steps: seq<Step>)
    requires Fresh(c, before) && ReplayOk(before) && Steady(steps, tree)
    requires Run(c, Begun(before, tree), steps).due.None?
    ensures ReplayOk(Run(c, Begun(before, tree), steps).db) <==> NeverLoses(c, Begun(before, tree), steps)
  {
    FreshIsOnTrack(c, before, tree);
    FreshTrail(c, before, tree);
    RunOnTrack(c, before, tree, Begun(before, tree), steps);
    var lost := RunKeepsTrail(c, before, tree, Begun(before, tree), steps, {});
    OnlyLossesSpoil(c, before, tree, Run(c, Begun(before, tree), steps), lost);
  }

  // ----- an input on which it does not -----

  // A scan whose first engine reports a new finding first.
  predicate StartsWithNewHit(c: Config, before: Db, tree: string) {
    && |c.plan| > 0 && |Hits(c, tree, 0)| > 0 && !c.suppressed(Hits(c, tree, 0)[0])
    && Row(c, before, Hits(c, tree, 0)[0].fingerprint).None?
  }

  function AfterFirstRow(c: Config, s: State, tree: string): State {
    Do(c, Do(c, Do(c, Do(c, s, Resume(tree)), Advance), Advance), Advance)
  }

  lemma FirstCandidate(c: Config, before: Db, tree: string)
    requires Fresh(c, before) && StartsWithNewHit(c, before, tree)
    ensures var s := Do(c, Do(c, Do(c, Begun(before, tree), Resume(tree)), Advance), Advance);
            var i := FindCandidate(s.db.candidates, c.assessment, Hits(c, tree, 0)[0].fingerprint);
            && s.pc == Working(0, 0, 1) && s.due.None? && s.tree == tree && s.db.findings == before.findings
            && i.Some? && s.db.candidates[i.value].payload == Hits(c, tree, 0)[0]
            && s.db.candidates[i.value].engagement == c.engagement
  {
    CandidateKeeps(c, before, c.plan[0].key, Hits(c, tree, 0)[0]);
    var s2 := Do(c, Do(c, Begun(before, tree), Resume(tree)), Advance);
    assert s2.pc == Working(0, 0, 0) && s2.db == before;
  }

  lemma FirstRowIsDue(c: Config, before: Db, tree: string)
    requires Fresh(c, before) && StartsWithNewHit(c, before, tree)
    ensures LosesEvent(c, AfterFirstRow(c, Begun(before, tree), tree), Crash)
  {
    FirstCandidate(c, before, tree);
  }

  /** Every such scan has a run that crashes after the first row and is completed
      later, with a trail that does not replay. */
  lemma CrashSpoilsTrail(c: Config, before: Db, tree: string) returns (steps: seq<Step>)
    requires Fresh(c, before) && ReplayOk(before) && StartsWithNewHit(c, before, tree)
    ensures Steady(steps, tree)
    ensures var s := Run(c, Begun(before, tree), steps); s.pc.Finished? && !ReplayOk(s.db)
  {
    var s0, start := Begun(before, tree), [Resume(tree), Advance, Advance, Advance, Crash];
    FirstRowIsDue(c, before, tree);
    RunsThrough(c, s0, start, AfterFirstRow(c, s0, tree));
    var more := ResumeCompletes(c, before, tree, start);
    steps := start + more;
    RunConcat(c, s0, start, more);
    FinishedIsNotDue(c, before, tree, steps);
    LossStays(c, s0, start, more);
    TrailReplaysExactly(c, before, tree, steps);
  }

  lemma RunsThrough(c: Config, s: State, start: seq<Step>, s4: State)
    requires |start| == 5 && LosesEvent(c, s4, start[4])
    requires s4 == Do(c, Do(c, Do(c, Do(c, s, start[0]), start[1]), start[2]), start[3])
    ensures !NeverLoses(c, s, start)
  {
    assert start[1..][0] == start[1] && start[1..][1..] == start[2..];
    assert start[2..][0] == start[2] && start[2..][1..] == start[3..];
    assert start[3..][0] == start[3] && start[3..][1..] == start[4..];
    assert start[4..][0] == start[4];
    assert !NeverLoses(c, s4, start[4..]);
    assert !NeverLoses(c, Do(c, Do(c, Do(c, s, start[0]), start[1]), start[2]), start[3..]);
    assert !NeverLoses(c, Do(c, Do(c, s, start[0]), start[1]), start[2..]);
  }

  lemma {:induction false} RunConcat(c: Config, s: State, a: seq<Step>, b: seq<Step>)
    ensures Run(c, s, a + b) == Run(c, Run(c, s, a), b)
    decreases |a|
  {
    if a == [] {
      assert a + b == b;
    } else {
      assert (a + b)[1..] == a[1..] + b;
      RunConcat(c, Do(c, s, a[0]), a[1..], b);
    }
  }

  lemma {:induction false} LossStays(c: Config, s: State, a: seq<Step>, b: seq<Step>)
    requires !NeverLoses(c, s, a)
    ensures !NeverLoses(c, s, a + b)
    decreases |a|
  {
    assert (a + b)[1..] == a[1..] + b;
    if !LosesEvent(c, s, a[0]) {
      LossStays(c, Do(c, s, a[0]), a[1..], b);
    }
  }

  lemma FinishedIsNotDue(c: Config, before: Db, tree: string, steps: seq<Step>)
    requires Fresh(c, before) && Run(c, Begun(before, tree), steps).pc.Finished?
    ensures Run(c, Begun(before, tree), steps).due.None?
  {
    RunKeepsInv(c, Begun(before, tree), steps);
  }
}
