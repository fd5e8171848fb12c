/**
 The life of one assessment: its worker, cancellation, pausing and resuming all
 write the same row through guarded updates.

 A caller that looks at the row before writing does so in two steps, so that
 anything may happen in between; a worker writes without looking.
 */
module Assessments {
  import opened Options

  datatype Status = Queued | Running | Paused | Completed | Failed | Partial | Cancelled

  datatype Row = Row(status: Status, finishedAt: Option<int>, error: Option<string>)

  // The three statements that change a status.
  datatype Write =
    | Finish(status: Status, error: Option<string>)
    | SetLive(status: Status)
    | Reopen

  predicate IsLive(status: Status) {
    status.Queued? || status.Running? || status.Paused?
  }

  predicate CanReopen(status: Status) {
    status.Cancelled? || status.Partial? || status.Paused? || status.Failed? || status.Running?
  }

  function Created(): Row {
    Row(Running, None, None)
  }

  function Written(row: Row, write: Write, now: int): Row {
    match write
    case Finish(status, error) => if IsLive(row.status) then Row(status, Some(now), error) else row
    case SetLive(status) => if IsLive(row.status) then row.(status := status, finishedAt := None) else row
    case Reopen => if CanReopen(row.status) then Row(Running, None, None) else row
  }

  // The writes that exist: scans finish in an ended status, pausing sets a live one.
  predicate IsCallersWrite(write: Write) {
    match write
    case Finish(status, _) => !IsLive(status)
    case SetLive(status) => status.Running? || status.Paused?
    case Reopen => true
  }

  class Assessment {
    var status: Status
    var finishedAt: Option<int>
    var error: Option<string>

    function Value(): Row
      reads this
    {
      Row(status, finishedAt, error)
    }

    constructor ()
      ensures Value() == Created()
    {
      status, finishedAt, error := Running, None, None;
    }

    method FinishAssessment(status: Status, error: Option<string>, now: int)
      modifies this
      ensures Value() == Written(old(Value()), Finish(status, error), now)
    {
      if IsLive(this.status) {
        this.status, finishedAt, this.error := status, Some(now), error;
      }
    }

    method SetLiveStatus(status: Status)
      modifies this
      ensures Value() == Written(old(Value()), SetLive(status), 0)
    {
      if IsLive(this.status) {
        this.status, finishedAt := status, None;
      }
    }

    method ReopenAssessment() returns (ok: bool)
      modifies this
      ensures Value() == Written(old(Value()), Reopen, 0)
      ensures ok <==> CanReopen(old(status))
    {
      ok := CanReopen(status);
      if ok {
        status, finishedAt, error := Running, None, None;
      }
    }

    // Nobody interferes between the check and the write here.
    method CancelScan(now: int)
      modifies this
      ensures !IsLive(status)
      ensures Value() == if IsLive(old(status)) then Row(Cancelled, Some(now), Some("cancelled")) else old(Value())
    {
      if !IsLive(status) {
        return;
      }
      FinishAssessment(Cancelled, Some("cancelled"), now);
    }

    method PauseScan(paused: bool, registered: bool) returns (ok: bool)
      modifies this
      ensures ok <==> !IsLive(old(status)) || registered
      ensures Value() == if IsLive(old(status)) && registered
                         then Row(if paused then Paused else Running, None, old(error)) else old(Value())
    {
      if !IsLive(status) {
        return true;
      }
      if !registered {
        return false;
      }
      SetLiveStatus(if paused then Paused else Running);
      return true;
    }
  }

  // ----- all interleavings -----

  // Writes that are decided on and not made yet: their callers have looked at the
  // row, or are workers that have left the registry with a status to report.
  datatype State = State(row: Row, decided: seq<Write>)

  datatype Action =
    | CheckCancel
    | CheckPause(paused: bool, registered: bool)
    | CheckResume(registered: bool)
    | WorkerEnds(status: Status, error: Option<string>)
    | WorkerContinues                            // after a pause
    | Land(i: nat, now: int)                     // a decided write happens

  function Decide(s: State, write: Write): State {
    s.(decided := s.decided + [write])
  }

  function Do(s: State, action: Action): State {
    match action
    case CheckCancel => if IsLive(s.row.status) then Decide(s, Finish(Cancelled, Some("cancelled"))) else s
    case CheckPause(paused, registered) =>
      if IsLive(s.row.status) && registered then Decide(s, SetLive(if paused then Paused else Running)) else s
    case CheckResume(registered) => if CanReopen(s.row.status) && !registered then Decide(s, Reopen) else s
    case WorkerEnds(status, error) => if IsLive(status) then s else Decide(s, Finish(status, error))
    case WorkerContinues => Decide(s, SetLive(Running))
    case Land(i, now) =>
      if i < |s.decided| then State(Written(s.row, s.decided[i], now), s.decided[..i] + s.decided[i + 1..]) else s
  }

  function Run(s: State, actions: seq<Action>): State
    decreases |actions|
  {
    if |actions| == 0 then s else Run(Do(s, actions[0]), actions[1..])
  }

  predicate RowOk(row: Row) {
    && (row.finishedAt.None? <==> IsLive(row.status))
    && (IsLive(row.status) ==> row.error.None?)
  }

  ghost predicate Inv(s: State) {
    RowOk(s.row) && forall w :: w in s.decided ==> IsCallersWrite(w)
  }

  lemma StepKeepsInv(s: State, action: Action)
    requires Inv(s)
    ensures Inv(Do(s, action))
  {
    if action.Land? && action.i < |s.decided| {
      assert s.decided[action.i] in s.decided;
    }
  }

  lemma {:induction false} RunKeepsInv(s: State, actions: seq<Action>)
    requires Inv(s)
    ensures Inv(Run(s, actions))
    decreases |actions|
  {
    if |actions| > 0 {
      StepKeepsInv(s, actions[0]);
      RunKeepsInv(Do(s, actions[0]), actions[1..]);
    }
  }

  /** A finishing time is recorded exactly while the assessment is not live, and a
      live one carries no error. */
  lemma FinishedExactlyWhenNotLive(actions: seq<Action>)
    ensures RowOk(Run(State(Created(), []), actions).row)
  {
    RunKeepsInv(State(Created(), []), actions);
  }

  /** Nothing changes a completed assessment. */
  lemma {:induction false} CompletedIsForever(s: State, actions: seq<Action>)
    requires s.row.status.Completed?
    ensures Run(s, actions).row == s.row
    decreases |actions|
  {
    if |actions| > 0 {
      CompletedIsForever(Do(s, actions[0]), actions[1..]);
    }
  }

  // The action lets a resume's reopening take effect.
  predicate Reopens(s: State, action: Action) {
    action.Land? && action.i < |s.decided| && s.decided[action.i].Reopen? && CanReopen(s.row.status)
  }

  predicate NeverReopens(s: State, actions: seq<Action>)
    decreases |actions|
  {
    |actions| == 0 || (!Reopens(s, actions[0]) && NeverReopens(Do(s, actions[0]), actions[1..]))
  }

  /** An ended assessment stays as it is unless a resume reopens it. */
  lemma {:induction false} EndedUntilReopened(s: State, actions: seq<Action>)
    requires !IsLive(s.row.status) && NeverReopens(s, actions)
    ensures Run(s, actions).row == s.row
    decreases |actions|
  {
    if |actions| > 0 {
      EndedUntilReopened(Do(s, actions[0]), actions[1..]);
    }
  }

  // The finish that takes effect at this action.
  function Finishing(s: State, action: Action): Option<(Write, int)> {
    match action
    case Land(i, now) =>
      if i < |s.decided| && s.decided[i].Finish? && IsLive(s.row.status) then Some((s.decided[i], now)) else None
    case _ => None
  }

  // The first finish of a run, with its time.
  function FirstFinish(s: State, actions: seq<Action>): Option<(Write, int)>
    decreases |actions|
  {
    if |actions| == 0 then None
    else if Finishing(s, actions[0]).Some? then Finishing(s, actions[0])
    else FirstFinish(Do(s, actions[0]), actions[1..])
  }

  /** Of a worker's and any number of cancellers' finishes, the first sets status,
      time and error for good; without one the assessment is still live. */
  lemma {:induction false} FirstFinishWins(s: State, actions: seq<Action>)
    requires Inv(s) && IsLive(s.row.status) && NeverReopens(s, actions)
    ensures var first, row := FirstFinish(s, actions), Run(s, actions).row;
            if first.None? then IsLive(row.status)
            else first.value.0.Finish? && row == Row(first.value.0.status, Some(first.value.1), first.value.0.error)
    decreases |actions|
  {
    if |actions| > 0 {
      var s' := Do(s, actions[0]);
      StepKeepsInv(s, actions[0]);
      if Finishing(s, actions[0]).Some? {
        EndedUntilReopened(s', actions[1..]);
      } else {
        FirstFinishWins(s', actions[1..]);
      }
    }
  }

  /** A status goes back from ended to live only through Cancelled, Partial or
      Failed and a resume, which clears time and error. */
  lemma LeavingAnEndedStatus(s: State, action: Action)
    requires Inv(s) && !IsLive(s.row.status) && Do(s, action).row != s.row
    ensures Reopens(s, action) && Do(s, action).row == Created()
    ensures s.row.status.Cancelled? || s.row.status.Partial? || s.row.status.Failed?
  {
  }

  /** A canceller whose write has landed leaves an ended assessment, its own doing
      or an earlier finish's. */
  lemma CancelEnds(s: State, i: nat, now: int)
    requires Inv(s) && i < |s.decided| && s.decided[i].Finish?
    ensures var row := Do(s, Land(i, now)).row;
            !IsLive(row.status) && (row == s.row || row == Row(s.decided[i].status, Some(now), s.decided[i].error))
  {
    assert s.decided[i] in s.decided;
  }

  // ----- whose run the row describes -----

  // Nobody decides to end the assessment.
  predicate NobodyEnds(actions: seq<Action>) {
    forall i :: 0 <= i < |actions| ==> !actions[i].CheckCancel? && !actions[i].WorkerEnds?
  }

  predicate NoFinishDecided(s: State) {
    forall i :: 0 <= i < |s.decided| ==> !s.decided[i].Finish?
  }

  lemma {:induction false} StaysLive(s: State, actions: seq<Action>)
    requires Inv(s) && IsLive(s.row.status) && NoFinishDecided(s) && NobodyEnds(actions)
    ensures IsLive(Run(s, actions).row.status)
    decreases |actions|
  {
    if |actions| > 0 {
      StepKeepsInv(s, actions[0]);
      assert actions[0] != CheckCancel && !actions[0].WorkerEnds?;
      if actions[0].Land? && actions[0].i < |s.decided| {
        assert s.decided[actions[0].i] in s.decided;
      }
      StaysLive(Do(s, actions[0]), actions[1..]);
    }
  }

  lemma DecidedFinishEnds(s: State, i: nat, now: int)
    requires Inv(s) && i < |s.decided| && s.decided[i].Finish?
    ensures NobodyEnds([Land(i, now)]) && !IsLive(Run(s, [Land(i, now)]).row.status)
  {
    CancelEnds(s, i, now);
    assert [Land(i, now)][1..] == [];
  }

  /** A live assessment that nobody decides to end stays live, whatever else happens,
      if and only if no finish was decided on before. */
  lemma LiveExactlyWithoutDecidedFinish(s: State)
    requires Inv(s) && IsLive(s.row.status)
    ensures (forall actions :: NobodyEnds(actions) ==> IsLive(Run(s, actions).row.status)) <==> NoFinishDecided(s)
  {
    if NoFinishDecided(s) {
      forall actions | NobodyEnds(actions) ensures IsLive(Run(s, actions).row.status) {
        StaysLive(s, actions);
      }
    } else {
      var i :| 0 <= i < |s.decided| && s.decided[i].Finish?;
      DecidedFinishEnds(s, i, 0);
    }
  }

  /** So a resumed run is ended by its own worker and by cancels after the resume
      only, if and only if no write of the old run's worker or of a canceller who
      looked before is still to come when the resume reopens the row. */
  lemma ResumedRunIsItsOwn(before: seq<Action>, reopen: Action)
    requires Reopens(Run(State(Created(), []), before), reopen)
    ensures var s := Do(Run(State(Created(), []), before), reopen);
            && s.row == Created()
            && ((forall actions :: NobodyEnds(actions) ==> IsLive(Run(s, actions).row.status)) <==> NoFinishDecided(s))
  {
    RunKeepsInv(State(Created(), []), before);
    var s := Run(State(Created(), []), before);
    StepKeepsInv(s, reopen);
    LiveExactlyWithoutDecidedFinish(Do(s, reopen));
  }

  // Two runs in which it is not. A worker that was cancelled has left the registry
  // and reports after the resume of a row that still says running.
  lemma OldWorkerReachesResumedRun()
    ensures var s := Run(State(Created(), []), [WorkerEnds(Cancelled, Some("cancelled")), CheckResume(false)]);
            && Reopens(s, Land(1, 2))
            && Run(Do(s, Land(1, 2)), [Land(0, 3)]).row == Row(Cancelled, Some(3), Some("cancelled"))
  {
    var s0, end, resume := State(Created(), []), WorkerEnds(Cancelled, Some("cancelled")), CheckResume(false);
    var cancel := Finish(Cancelled, Some("cancelled"));
    assert [end, resume][1..] == [resume] && [resume][1..] == [];
    assert Run(s0, [end, resume]) == Run(Do(s0, end), [resume]) == Do(Do(s0, end), resume);
    var s := Do(Do(s0, end), resume);
    assert s.decided == [cancel, Reopen];
    assert Do(s, Land(1, 2)).decided == [cancel];
    assert [Land(0, 3)][1..] == [];
  }

  // A canceller has looked at the row before its worker failed, and writes after
  // the resume.
  lemma OldCancelReachesResumedRun(error: string)
    ensures var s := Run(State(Created(), []),
                         [CheckCancel, WorkerEnds(Failed, Some(error)), Land(1, 1), CheckResume(false)]);
            && Reopens(s, Land(1, 2))
            && Run(Do(s, Land(1, 2)), [Land(0, 3)]).row == Row(Cancelled, Some(3), Some("cancelled"))
  {
    var s0, cancel := State(Created(), []), Finish(Cancelled, Some("cancelled"));
    var a, b, d, e := CheckCancel, WorkerEnds(Failed, Some(error)), Land(1, 1), CheckResume(false);
    assert [a, b, d, e][1..] == [b, d, e] && [b, d, e][1..] == [d, e] && [d, e][1..] == [e] && [e][1..] == [];
    var s1 := Do(s0, a);
    var s2 := Do(s1, b);
    var s3 := Do(s2, d);
    assert s2.decided == [cancel, Finish(Failed, Some(error))];
    assert s3 == State(Row(Failed, Some(1), Some(error)), [cancel]);
    var s4 := Do(s3, e);
    assert s4.decided == [cancel, Reopen];
    assert Run(s0, [a, b, d, e]) == s4 by {
      assert Run(s3, [e]) == Run(s4, []);
      assert Run(s2, [d, e]) == Run(s3, [e]);
      assert Run(s1, [b, d, e]) == Run(s2, [d, e]);
    }
    assert Do(s4, Land(1, 2)).decided == [cancel];
    assert [Land(0, 3)][1..] == [];
  }
}
