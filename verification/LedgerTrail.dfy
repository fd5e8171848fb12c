/**
 The audit trail when operations are interrupted.

 A change of a finding writes its row and then, in a statement of its own, its
 event. A crash or an error between the two loses the event. This module says
 exactly which histories of complete and interrupted changes leave a trail that
 replays.
 */
module LedgerTrail {
  import opened Options
  import opened Ledger
  import opened LedgerHistory

  // What the operations of the store consist of.
  datatype Change =
    | See(engagement: string, assessment: string, hit: Hit)
    | CloseGone(engagement: string, assessment: string, skip: seq<string>, n: nat)
    | SetTriage(id: nat, state: string, reason: Option<string>, source: string)
    | AddCandidate(engagement: string, assessment: string, engine: string, hit: Hit)
    | Mark(i: nat)

  function RowWritten(db: Db, change: Change): Db {
    match change
    case See(e, a, hit) => UpsertRow(db, e, a, hit)
    case CloseGone(e, a, skip, n) => if n < |db.findings| then CloseRowAt(db, e, a, skip, n) else db
    case SetTriage(id, state, reason, source) =>
      if CheckTriage(db, id, state, reason, source).Some? then db
      else TriageRow(db, id, ParseState(state).value, TriageReason(reason).Some?)
    case AddCandidate(e, a, engine, hit) => UpsertCandidate(db, e, a, engine, hit)
    case Mark(i) => if i < |db.candidates| then MarkPromoted(db, i) else db
  }

  function EventOf(db: Db, change: Change): Option<Event> {
    match change
    case See(e, a, hit) => UpsertEvent(db, e, a, hit)
    case CloseGone(e, a, skip, n) => if n < |db.findings| then CloseEvent(db, e, a, skip, n) else None
    case SetTriage(id, state, reason, source) =>
      if CheckTriage(db, id, state, reason, source).Some? then None
      else TriageEvent(db, id, ParseState(state).value, source)
    case _ => None
  }

  function Complete(db: Db, change: Change): Db {
    AddEvent(RowWritten(db, change), EventOf(db, change))
  }

  function CompleteAll(db: Db, changes: seq<Change>): Db {
    if changes == [] then db else Complete(CompleteAll(db, changes[..|changes| - 1]), changes[|changes| - 1])
  }

  // ----- every operation consists of changes -----

  lemma {:induction false} CompleteConcat(db: Db, a: seq<Change>, b: seq<Change>)
    ensures CompleteAll(db, a + b) == CompleteAll(CompleteAll(db, a), b)
    decreases |b|
  {
    if b == [] {
      assert a + b == a;
    } else {
      assert (a + b)[..|a + b| - 1] == a + b[..|b| - 1];
      CompleteConcat(db, a, b[..|b| - 1]);
    }
  }

  lemma ConfirmIsChanges(db: Db, i: nat) returns (changes: seq<Change>)
    requires i < |db.candidates|
    ensures CompleteAll(db, changes) == ConfirmCandidate(db, i)
  {
    var c := db.candidates[i];
    var hit := See(c.engagement, c.assessment, c.payload);
    changes := [hit, Mark(i)];
    assert changes[..1] == [hit] && [hit][..0] == [];
    assert CompleteAll(db, [hit]) == Complete(db, hit);
  }

  lemma IngestHitIsChanges(db: Db, e: string, a: string, engine: string, hit: Hit, auto: bool)
    returns (changes: seq<Change>)
    ensures CompleteAll(db, changes) == IngestHit(db, e, a, engine, hit, auto)
  {
    var add := AddCandidate(e, a, engine, hit);
    assert [add][..0] == [];
    assert CompleteAll(db, [add]) == UpsertCandidate(db, e, a, engine, hit);
    changes := [add];
    var db' := UpsertCandidate(db, e, a, engine, hit);
    var i := FindCandidate(db'.candidates, a, hit.fingerprint);
    if auto && i.Some? {
      var confirm := ConfirmIsChanges(db', i.value);
      CompleteConcat(db, [add], confirm);
      changes := changes + confirm;
    }
  }

  lemma {:induction false} IngestIsChanges(db: Db, e: string, a: string, engine: string, hits: seq<Hit>, auto: bool,
                                           suppressed: Hit -> bool)
    returns (changes: seq<Change>)
    ensures CompleteAll(db, changes) == IngestHits(db, e, a, engine, hits, auto, suppressed)
    decreases |hits|
  {
    changes := [];
    if hits != [] {
      var init, hit := hits[..|hits| - 1], hits[|hits| - 1];
      changes := IngestIsChanges(db, e, a, engine, init, auto, suppressed);
      if !suppressed(hit) {
        var more := IngestHitIsChanges(IngestHits(db, e, a, engine, init, auto, suppressed), e, a, engine, hit, auto);
        CompleteConcat(db, changes, more);
        changes := changes + more;
      }
    }
  }

  lemma ConfirmNextIsChanges(db: Db, a: string, n: nat) returns (changes: seq<Change>)
    requires n < |db.candidates|
    ensures CompleteAll(db, changes) == if IsPendingOf(db.candidates[n], a) then ConfirmCandidate(db, n) else db
  {
    changes := [];
    if IsPendingOf(db.candidates[n], a) {
      changes := ConfirmIsChanges(db, n);
    }
  }

  lemma {:induction false} ConfirmAllIsChanges(db: Db, a: string, n: nat) returns (changes: seq<Change>)
    requires n <= |db.candidates|
    ensures CompleteAll(db, changes) == ConfirmPending(db, a, n)
  {
    changes := [];
    for i := 0 to n
      invariant CompleteAll(db, changes) == ConfirmPending(db, a, i)
    {
      var more := ConfirmNextIsChanges(ConfirmPending(db, a, i), a, i);
      CompleteConcat(db, changes, more);
      changes := changes + more;
    }
  }

  lemma CloseNextIsChange(db: Db, e: string, a: string, skip: seq<string>, n: nat)
    requires n < |db.findings|
    ensures CompleteAll(db, [CloseGone(e, a, skip, n)]) == CloseAt(db, e, a, skip, n)
  {
    assert [CloseGone(e, a, skip, n)][..0] == [];
  }

  lemma {:induction false} CloseIsChanges(db: Db, e: string, a: string, skip: seq<string>, n: nat)
    returns (changes: seq<Change>)
    requires n <= |db.findings|
    ensures CompleteAll(db, changes) == CloseAbsent(db, e, a, skip, n)
  {
    changes := [];
    for i := 0 to n
      invariant CompleteAll(db, changes) == CloseAbsent(db, e, a, skip, i)
    {
      CloseNextIsChange(CloseAbsent(db, e, a, skip, i), e, a, skip, i);
      CompleteConcat(db, changes, [CloseGone(e, a, skip, i)]);
      changes := changes + [CloseGone(e, a, skip, i)];
    }
  }

  /** Each operation is a sequence of changes, so interrupting it is interrupting
      one of them. */
  lemma OperationIsChanges(db: Db, op: Op) returns (changes: seq<Change>)
    ensures CompleteAll(db, changes) == Apply(db, op)
  {
    match op {
      case Upsert(e, a, hit) => changes := [See(e, a, hit)];
      case Ingest(e, a, engine, hits, auto, suppressed) =>
        changes := IngestIsChanges(db, e, a, engine, hits, auto, suppressed);
      case ConfirmAll(a) => changes := ConfirmAllIsChanges(db, a, |db.candidates|);
      case Close(e, a, skip) => changes := CloseIsChanges(db, e, a, skip, |db.findings|);
      case TriageOne(id, state, reason, source) => changes := [SetTriage(id, state, reason, source)];
    }
    if |changes| == 1 {
      assert changes[..0] == [];
    }
  }

  // ----- histories with interruptions -----

  // An event that was due, and whether it was written.
  datatype Entry = Entry(event: Event, kept: bool)

  datatype State = State(db: Db, log: seq<Entry>)

  datatype Step = Step(change: Change, interrupted: bool)

  const Initial := State(Db([], [], []), [])

  function Do(s: State, step: Step): State {
    var event := EventOf(s.db, step.change);
    State(AddEvent(RowWritten(s.db, step.change), if step.interrupted then None else event),
          s.log + if event.Some? then [Entry(event.value, !step.interrupted)] else [])
  }

  function Run(s: State, steps: seq<Step>): State {
    if steps == [] then s else Do(Run(s, steps[..|steps| - 1]), steps[|steps| - 1])
  }

  function Due(log: seq<Entry>): seq<Event> {
    if log == [] then [] else Due(log[..|log| - 1]) + [log[|log| - 1].event]
  }

  function Kept(log: seq<Entry>): seq<Event> {
    if log == [] then []
    else Kept(log[..|log| - 1]) + if log[|log| - 1].kept then [log[|log| - 1].event] else []
  }

  // How a finding's lost events leave its trail. A gap opens where an event is
  // lost; only losing another that leads back to where it opened closes it.
  datatype Trail = Sound | Gap(since: Option<FindingState>) | Broken

  function TrailOf(log: seq<Entry>, finding: nat): Trail {
    if log == [] then Sound
    else
      var before, last := TrailOf(log[..|log| - 1], finding), log[|log| - 1];
      if last.event.finding != finding || before.Broken? then before
      else if last.kept then (if before.Sound? then Sound else Broken)
      else if before.Sound? then Gap(last.event.from)
      else if before.since == Some(last.event.to) then Sound
      else before
  }

  ghost predicate ChainedFor(events: seq<Event>, finding: nat) {
    forall j :: 0 <= j < |events| && events[j].finding == finding ==>
      && events[j].from == LastTo(events[..j], finding)
      && (events[j].from.None? ==> events[j].to.Open?)
  }

  ghost predicate EventsChange(log: seq<Entry>) {
    forall i :: 0 <= i < |log| ==> log[i].event.from != Some(log[i].event.to)
  }

  lemma LastAppended(events: seq<Event>, e: Event, finding: nat)
    ensures LastTo(events + [e], finding) == if e.finding == finding then Some(e.to) else LastTo(events, finding)
  {
    assert (events + [e])[..|events|] == events;
  }

  lemma ChainedForAppended(events: seq<Event>, e: Event, finding: nat)
    ensures ChainedFor(events + [e], finding)
            <==> ChainedFor(events, finding)
                 && (e.finding == finding ==> e.from == LastTo(events, finding) && (e.from.None? ==> e.to.Open?))
  {
    var events' := events + [e];
    assert events'[..|events|] == events && events'[|events|] == e;
    forall j | 0 <= j < |events| ensures events'[j] == events[j] && events'[..j] == events[..j] {}
    if ChainedFor(events', finding) {
      forall j | 0 <= j < |events| && events[j].finding == finding
        ensures events[j].from == LastTo(events[..j], finding) && (events[j].from.None? ==> events[j].to.Open?)
      {
        assert events'[j].finding == finding;
      }
    }
  }

  // What a trail's name means for the events that were kept.
  ghost predicate Means(trail: Trail, log: seq<Entry>, finding: nat) {
    match trail
    case Sound => LastTo(Kept(log), finding) == LastTo(Due(log), finding) && ChainedFor(Kept(log), finding)
    case Gap(since) =>
      LastTo(Kept(log), finding) == since != LastTo(Due(log), finding) && ChainedFor(Kept(log), finding)
    case Broken => !ChainedFor(Kept(log), finding)
  }

  lemma {:induction false} TrailMeans(log: seq<Entry>, finding: nat)
    requires ChainedFor(Due(log), finding) && EventsChange(log)
    ensures Means(TrailOf(log, finding), log, finding)
  {
    if log != [] {
      var init, last := log[..|log| - 1], log[|log| - 1];
      ChainedForAppended(Due(init), last.event, finding);
      TrailMeans(init, finding);
      LastAppended(Due(init), last.event, finding);
      assert last.event.from != Some(last.event.to);
      if last.kept {
        LastAppended(Kept(init), last.event, finding);
        ChainedForAppended(Kept(init), last.event, finding);
      } else {
        assert Kept(log) == Kept(init);
      }
    }
  }

  // The ledger as it would be had no event been lost.
  function Ideal(s: State): Db {
    s.db.(events := Due(s.log))
  }

  ghost predicate Inv(s: State) {
    ReplayOk(Ideal(s)) && EventsChange(s.log) && s.db.events == Kept(s.log)
  }

  lemma TriageReplays(db: Db, id: nat, state: string, reason: Option<string>, source: string)
    requires ReplayOk(db)
    ensures ReplayOk(Complete(db, SetTriage(id, state, reason, source)))
  {
    ApplyReplays(db, TriageOne(id, state, reason, source));
  }

  lemma CompleteReplays(db: Db, change: Change)
    requires ReplayOk(db)
    ensures ReplayOk(Complete(db, change))
  {
    match change
    case See(e, a, hit) => UpsertReplays(db, e, a, hit);
    case CloseGone(e, a, skip, n) =>
      if n < |db.findings| {
        CloseAtReplays(db, e, a, skip, n);
      }
    case SetTriage(id, state, reason, source) => TriageReplays(db, id, state, reason, source);
    case _ =>
  }

  lemma DoIsIdeal(s: State, step: Step)
    ensures Ideal(Do(s, step)) == Complete(Ideal(s), step.change)
  {
    var event := EventOf(s.db, step.change);
    assert event == EventOf(Ideal(s), step.change);
    if event.Some? {
      var log' := s.log + [Entry(event.value, !step.interrupted)];
      assert log'[..|s.log|] == s.log;
    } else {
      assert s.log + [] == s.log;
    }
  }

  lemma EventsTellChanges(db: Db, change: Change)
    ensures EventOf(db, change).Some? ==> EventOf(db, change).value.from != Some(EventOf(db, change).value.to)
    ensures RowWritten(db, change).events == db.events
  {
  }

  lemma LogKept(s: State, step: Step)
    requires EventsChange(s.log) && s.db.events == Kept(s.log)
    ensures EventsChange(Do(s, step).log) && Do(s, step).db.events == Kept(Do(s, step).log)
  {
    EventsTellChanges(s.db, step.change);
    var event, log' := EventOf(s.db, step.change), Do(s, step).log;
    if event.Some? {
      assert log'[..|s.log|] == s.log;
      assert Kept(s.log) + [] == Kept(s.log);
    } else {
      assert log' == s.log;
    }
  }

  lemma StepKeepsInv(s: State, step: Step)
    requires Inv(s)
    ensures Inv(Do(s, step))
  {
    DoIsIdeal(s, step);
    CompleteReplays(Ideal(s), step.change);
    LogKept(s, step);
  }

  lemma {:induction false} RunKeepsInv(steps: seq<Step>)
    ensures Inv(Run(Initial, steps))
  {
    if steps == [] {
      assert ReplayOk(Ideal(Initial));
    } else {
      RunKeepsInv(steps[..|steps| - 1]);
      StepKeepsInv(Run(Initial, steps[..|steps| - 1]), steps[|steps| - 1]);
    }
  }

  lemma SoundTrailsReplay(findings: seq<Finding>, log: seq<Entry>)
    requires Replays(findings, Due(log)) && EventsChange(log) && forall i: nat :: TrailOf(log, i).Sound?
    ensures Replays(findings, Kept(log))
  {
    var events := Kept(log);
    forall i: nat
      ensures LastTo(events, i) == StateAt(findings, i) && ChainedFor(events, i)
    {
      TrailMeans(log, i);
    }
    forall j | 0 <= j < |events|
      ensures events[j].from == LastTo(events[..j], events[j].finding) && (events[j].from.None? ==> events[j].to.Open?)
    {
      assert ChainedFor(events, events[j].finding);
    }
  }

  lemma UnsoundTrailFails(findings: seq<Finding>, log: seq<Entry>, i: nat)
    requires Replays(findings, Due(log)) && EventsChange(log) && !TrailOf(log, i).Sound?
    ensures !Replays(findings, Kept(log))
  {
    TrailMeans(log, i);
    if Replays(findings, Kept(log)) {
      assert LastTo(Kept(log), i) == StateAt(findings, i) == LastTo(Due(log), i);
      assert ChainedFor(Kept(log), i);
    }
  }

  /** After any history of complete and interrupted changes the trail replays if
      and only if every gap that a lost event opened was closed again. */
  lemma TrailReplaysExactly(steps: seq<Step>)
    ensures var s := Run(Initial, steps); ReplayOk(s.db) <==> forall i: nat :: TrailOf(s.log, i).Sound?
  {
    var s := Run(Initial, steps);
    RunKeepsInv(steps);
    if forall i: nat :: TrailOf(s.log, i).Sound? {
      SoundTrailsReplay(s.db.findings, s.log);
    } else {
      var i: nat :| !TrailOf(s.log, i).Sound?;
      UnsoundTrailFails(s.db.findings, s.log, i);
    }
  }

  /** Interruptions never spoil the rows: keys stay unique and reasons fit. */
  lemma RowsStayOk(steps: seq<Step>)
    ensures RowsOk(Run(Initial, steps).db.findings)
  {
    RunKeepsInv(steps);
  }

  function LostOf(log: seq<Entry>, finding: nat): nat {
    if log == [] then 0
    else
      LostOf(log[..|log| - 1], finding)
      + if log[|log| - 1].event.finding == finding && !log[|log| - 1].kept then 1 else 0
  }

  lemma {:induction false} FewLost(log: seq<Entry>, finding: nat)
    requires ChainedFor(Due(log), finding) && EventsChange(log)
    ensures LostOf(log, finding) == 0 ==> TrailOf(log, finding).Sound?
    ensures LostOf(log, finding) == 1 ==> !TrailOf(log, finding).Sound?
  {
    if log != [] {
      ChainedForAppended(Due(log[..|log| - 1]), log[|log| - 1].event, finding);
      FewLost(log[..|log| - 1], finding);
    }
  }

  /** As long as no finding loses two events, the trail replays exactly when no
      event was lost: when no interruption fell between a row and its event. */
  lemma OneLossBreaksTheTrail(steps: seq<Step>)
    requires forall i: nat :: LostOf(Run(Initial, steps).log, i) <= 1
    ensures var s := Run(Initial, steps); ReplayOk(s.db) <==> forall i: nat :: LostOf(s.log, i) == 0
  {
    var s := Run(Initial, steps);
    RunKeepsInv(steps);
    TrailReplaysExactly(steps);
    if ReplayOk(s.db) {
      forall i: nat ensures LostOf(s.log, i) == 0 {
        FewLost(s.log, i);
        assert TrailOf(s.log, i).Sound?;
      }
    } else {
      var i: nat :| !TrailOf(s.log, i).Sound?;
      FewLost(s.log, i);
      assert LostOf(s.log, i) != 0;
    }
  }

  /** A lost opening is never made good, whatever follows. */
  lemma {:induction false} LostOpeningStays(log: seq<Entry>, more: seq<Entry>, finding: nat)
    requires TrailOf(log, finding) == Gap(None)
    ensures !TrailOf(log + more, finding).Sound?
    ensures TrailOf(log + more, finding) == Gap(None) || TrailOf(log + more, finding).Broken?
    decreases |more|
  {
    if more == [] {
      assert log + more == log;
    } else {
      assert (log + more)[..|log + more| - 1] == log + more[..|more| - 1];
      LostOpeningStays(log, more[..|more| - 1], finding);
    }
  }

  // The failing input: a first hit whose event is lost, then the same hit again.
  lemma LostOpeningFails(e: string, a: string, hit: Hit)
    ensures var row := Step(See(e, a, hit), true);
            && Run(Initial, [row]).db == Db([NewRow(e, a, hit)], [], [])
            && !ReplayOk(Run(Initial, [row]).db)
            && !ReplayOk(Run(Initial, [row, Step(See(e, a, hit), false)]).db)
  {
    var row, again := Step(See(e, a, hit), true), Step(See(e, a, hit), false);
    assert [row][..0] == [] && [row, again][..1] == [row];
    var s := Do(Initial, row);
    assert s.db.findings == [NewRow(e, a, hit)];
    assert LastTo(s.db.events, 0).None?;
    var s' := Do(s, again);
    assert FindRow(s.db.findings[..0], e, hit.fingerprint) == None;
    assert s'.db.events == [] && |s'.db.findings| == 1;
    assert LastTo(s'.db.events, 0).None?;
  }

  lemma {:induction false} ThreeEntries(opening: Event, closing: Event, reopening: Event)
    requires opening.finding == closing.finding == reopening.finding
    requires closing.from == Some(reopening.to)
    ensures var log := [Entry(opening, true), Entry(closing, false), Entry(reopening, false)];
            LostOf(log, opening.finding) == 2 && forall i: nat :: TrailOf(log, i).Sound?
  {
    var one, two, three := Entry(opening, true), Entry(closing, false), Entry(reopening, false);
    assert [one][..0] == [] && [one, two][..1] == [one] && [one, two, three][..2] == [one, two];
    forall i: nat ensures TrailOf([one, two, three], i).Sound? {
      assert TrailOf([one], i).Sound?;
      assert TrailOf([one, two], i) == if i == opening.finding then Gap(closing.from) else Sound;
    }
    assert LostOf([one], opening.finding) == 0;
    assert LostOf([one, two], opening.finding) == 1;
  }

  lemma CloseAndReopenLog(e: string, a: string, b: string, hit: Hit)
    requires a != b
    ensures var s1 := Do(Initial, Step(See(e, a, hit), false));
            var s2 := Do(s1, Step(CloseGone(e, b, [], 0), true));
            Do(s2, Step(See(e, b, hit), true)).log
            == [Entry(Event(0, "engine", None, Open, a), true),
                Entry(Event(0, "engine", Some(Open), VerifiedFixed, b), false),
                Entry(Event(0, "engine", Some(VerifiedFixed), Open, b), false)]
  {
    var row := NewRow(e, a, hit);
    var s1 := Do(Initial, Step(See(e, a, hit), false));
    assert s1.db.findings == [row] && s1.log == [Entry(Event(0, "engine", None, Open, a), true)];
    var s2 := Do(s1, Step(CloseGone(e, b, [], 0), true));
    assert s2.db.findings == [ClosedRow(row, b)];
    assert s2.log == s1.log + [Entry(Event(0, "engine", Some(Open), VerifiedFixed, b), false)];
    FirstRow(ClosedRow(row, b), e, hit.fingerprint);
  }

  lemma RunOfThree(one: Step, two: Step, three: Step)
    ensures Run(Initial, [one, two, three]) == Do(Do(Do(Initial, one), two), three)
  {
    assert [one][..0] == [] && [one, two][..1] == [one] && [one, two, three][..2] == [one, two];
    assert Run(Initial, [one, two]) == Do(Run(Initial, [one]), two);
  }

  lemma ChangedRowFails(db: Db, n: nat, row: Finding, e: Event)
    requires ReplayOk(db) && n < |db.findings| && e.finding == n && e.from != Some(db.findings[n].state)
    ensures !ReplayOk(Db(db.findings[n := row], db.events + [e], db.candidates))
  {
    ChainedForAppended(db.events, e, n);
    assert LastTo(db.events, n) == StateAt(db.findings, n);
    assert Chained(db.events + [e]) ==> ChainedFor(db.events + [e], n);
  }

  /** Closing goes by a listing that was made before the first row was closed: the
      trail replays after a row of it was closed, if and only if the finding still
      is in the state that was listed. */
  lemma ListedCloseReplays(db: Db, e: string, a: string, skip: seq<string>, n: nat, listed: Finding)
    requires ReplayOk(db) && n < |db.findings| && IsGone(listed, e, a, skip)
    ensures ReplayOk(AddEvent(CloseListedRow(db, e, a, skip, n, listed), CloseListedEvent(e, a, skip, n, listed)))
            <==> db.findings[n].state == listed.state
  {
    var row, event := ClosedRow(db.findings[n], a), CloseListedEvent(e, a, skip, n, listed).value;
    if db.findings[n].state == listed.state {
      RowChanged(db.findings, db.events, n, row, "engine", a);
    } else {
      ChangedRowFails(db, n, row, event);
    }
  }

  // Two losses can make each other good: a closing, and the reopening by a hit
  // that comes later in the same assessment.
  lemma TwoLossesCanCancel(e: string, a: string, b: string, hit: Hit)
    requires a != b
    ensures var steps := [Step(See(e, a, hit), false), Step(CloseGone(e, b, [], 0), true), Step(See(e, b, hit), true)];
            LostOf(Run(Initial, steps).log, 0) == 2 && ReplayOk(Run(Initial, steps).db)
  {
    var one, two, three := Step(See(e, a, hit), false), Step(CloseGone(e, b, [], 0), true), Step(See(e, b, hit), true);
    RunOfThree(one, two, three);
    CloseAndReopenLog(e, a, b, hit);
    ThreeEntries(Event(0, "engine", None, Open, a), Event(0, "engine", Some(Open), VerifiedFixed, b),
                 Event(0, "engine", Some(VerifiedFixed), Open, b));
    TrailReplaysExactly([one, two, three]);
  }

  lemma FirstRow(row: Finding, e: string, f: string)
    requires HasKey(row, e, f)
    ensures FindRow([row], e, f) == Some(0)
  {
    assert [row][..0] == [];
  }
}
