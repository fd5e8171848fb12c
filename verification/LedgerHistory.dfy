/**
 What every history of store operations keeps: the audit trail of a finding
 replays to its state, states and reasons agree, and keys stay unique.
 */
module LedgerHistory {
  import opened Options
  import opened Ledger

  datatype Op =
    | Upsert(engagement: string, assessment: string, hit: Hit)
    | Ingest(engagement: string, assessment: string, engine: string, hits: seq<Hit>, autoConfirm: bool,
             suppressed: Hit -> bool)
    | ConfirmAll(assessment: string)
    | Close(engagement: string, assessment: string, skip: seq<string>)
    | TriageOne(id: nat, state: string, reason: Option<string>, source: string)

  function Apply(db: Db, op: Op): Db {
    match op
    case Upsert(e, a, hit) => UpsertFinding(db, e, a, hit)
    case Ingest(e, a, engine, hits, auto, suppressed) => IngestHits(db, e, a, engine, hits, auto, suppressed)
    case ConfirmAll(a) => ConfirmPending(db, a, |db.candidates|)
    case Close(e, a, skip) => CloseAbsent(db, e, a, skip, |db.findings|)
    case TriageOne(id, state, reason, source) =>
      if CheckTriage(db, id, state, reason, source).Some? then db
      else Triage(db, id, ParseState(state).value, TriageReason(reason).Some?, source)
  }

  function ApplyAll(db: Db, ops: seq<Op>): Db
    decreases |ops|
  {
    if |ops| == 0 then db else ApplyAll(Apply(db, ops[0]), ops[1..])
  }

  // The state the last event of a finding leads to.
  function LastTo(events: seq<Event>, finding: nat): Option<FindingState> {
    if events == [] then None
    else
      var last := events[|events| - 1];
      if last.finding == finding then Some(last.to) else LastTo(events[..|events| - 1], finding)
  }

  // Each event starts where the finding's previous one ended; the first opens it.
  ghost predicate Chained(events: seq<Event>) {
    forall j :: 0 <= j < |events| ==>
      && events[j].from == LastTo(events[..j], events[j].finding)
      && (events[j].from.None? ==> events[j].to.Open?)
  }

  predicate ReasonFits(f: Finding) {
    && (IsActive(f.state) ==> f.reason.None?)
    && (f.reason == Some(FalsePositive) ==> f.state.Dismissed?)
    && (f.reason == Some(AbsentFromScan) ==> f.state.VerifiedFixed?)
  }

  // Keys are unique, and reasons fit states.
  ghost predicate RowsOk(findings: seq<Finding>) {
    UniqueRows(findings) && forall i :: 0 <= i < |findings| ==> ReasonFits(findings[i])
  }

  function StateAt(findings: seq<Finding>, i: nat): Option<FindingState> {
    if i < |findings| then Some(findings[i].state) else None
  }

  ghost predicate Replays(findings: seq<Finding>, events: seq<Event>) {
    Chained(events) && RowsOk(findings) && forall i: nat :: LastTo(events, i) == StateAt(findings, i)
  }

  ghost predicate ReplayOk(db: Db) {
    Replays(db.findings, db.events)
  }

  lemma EventAppended(events: seq<Event>, e: Event)
    requires Chained(events) && e.from == LastTo(events, e.finding) && (e.from.None? ==> e.to.Open?)
    ensures Chained(events + [e])
    ensures forall i :: LastTo(events + [e], i) == if i == e.finding then Some(e.to) else LastTo(events, i)
  {
    var events' := events + [e];
    assert events'[..|events|] == events;
    forall j | 0 <= j < |events'|
      ensures events'[j].from == LastTo(events'[..j], events'[j].finding)
      ensures events'[j].from.None? ==> events'[j].to.Open?
    {
      assert events'[..j] == events[..j];
    }
  }

  // One row changes its state, and an event tells so.
  lemma RowChanged(findings: seq<Finding>, events: seq<Event>, i: nat, row: Finding, actor: string, assessment: string)
    requires Replays(findings, events) && i < |findings|
    requires HasKey(row, findings[i].engagement, findings[i].fingerprint) && ReasonFits(row)
    ensures Replays(findings[i := row],
                    events + if row.state != findings[i].state
                             then [Event(i, actor, Some(findings[i].state), row.state, assessment)] else [])
  {
    if row.state != findings[i].state {
      EventAppended(events, Event(i, actor, Some(findings[i].state), row.state, assessment));
    } else {
      assert events + [] == events;
    }
  }

  lemma UpsertReplays(db: Db, e: string, a: string, hit: Hit)
    requires ReplayOk(db)
    ensures ReplayOk(UpsertFinding(db, e, a, hit))
  {
    var i := FindRow(db.findings, e, hit.fingerprint);
    if i.None? {
      EventAppended(db.events, Event(|db.findings|, "engine", None, Open, a));
    } else {
      assert ReasonFits(db.findings[i.value]);
      RowChanged(db.findings, db.events, i.value, Seen(db.findings[i.value], a, hit), "engine", a);
    }
  }

  lemma IngestHitReplays(db: Db, e: string, a: string, engine: string, hit: Hit, auto: bool)
    requires ReplayOk(db)
    ensures ReplayOk(IngestHit(db, e, a, engine, hit, auto))
  {
    var db' := UpsertCandidate(db, e, a, engine, hit);
    var i := FindCandidate(db'.candidates, a, hit.fingerprint);
    if auto && i.Some? {
      var c := db'.candidates[i.value];
      UpsertReplays(db', c.engagement, c.assessment, c.payload);
    }
  }

  lemma {:induction false} IngestReplays(db: Db, e: string, a: string, engine: string, hits: seq<Hit>, auto: bool,
                                         suppressed: Hit -> bool)
    requires ReplayOk(db)
    ensures ReplayOk(IngestHits(db, e, a, engine, hits, auto, suppressed))
    decreases |hits|
  {
    if hits != [] {
      var init, hit := hits[..|hits| - 1], hits[|hits| - 1];
      IngestReplays(db, e, a, engine, init, auto, suppressed);
      if !suppressed(hit) {
        IngestHitReplays(IngestHits(db, e, a, engine, init, auto, suppressed), e, a, engine, hit, auto);
      }
    }
  }

  lemma {:induction false} ConfirmReplays(db: Db, a: string, n: nat)
    requires ReplayOk(db) && n <= |db.candidates|
    ensures ReplayOk(ConfirmPending(db, a, n))
  {
    if n > 0 {
      ConfirmReplays(db, a, n - 1);
      var before := ConfirmPending(db, a, n - 1);
      var c := before.candidates[n - 1];
      UpsertReplays(before, c.engagement, c.assessment, c.payload);
    }
  }

  lemma CloseAtReplays(db: Db, e: string, a: string, skip: seq<string>, n: nat)
    requires ReplayOk(db) && n < |db.findings|
    ensures ReplayOk(CloseAt(db, e, a, skip, n))
  {
    if IsGone(db.findings[n], e, a, skip) {
      RowChanged(db.findings, db.events, n, ClosedRow(db.findings[n], a), "engine", a);
    }
  }

  lemma {:induction false} CloseReplays(db: Db, e: string, a: string, skip: seq<string>, n: nat)
    requires ReplayOk(db) && n <= |db.findings|
    ensures ReplayOk(CloseAbsent(db, e, a, skip, n))
  {
    var closed := db;
    for i := 0 to n
      invariant closed == CloseAbsent(db, e, a, skip, i) && ReplayOk(closed)
    {
      CloseAtReplays(closed, e, a, skip, i);
      closed := CloseAt(closed, e, a, skip, i);
    }
  }

  lemma ApplyReplays(db: Db, op: Op)
    requires ReplayOk(db)
    ensures ReplayOk(Apply(db, op))
  {
    match op
    case Upsert(e, a, hit) => UpsertReplays(db, e, a, hit);
    case Ingest(e, a, engine, hits, auto, suppressed) => IngestReplays(db, e, a, engine, hits, auto, suppressed);
    case ConfirmAll(a) => ConfirmReplays(db, a, |db.candidates|);
    case Close(e, a, skip) => CloseReplays(db, e, a, skip, |db.findings|);
    case TriageOne(id, state, reason, source) =>
      if CheckTriage(db, id, state, reason, source).None? {
        var db' := Apply(db, op);
        RowChanged(db.findings, db.events, id, db'.findings[id], source, db.findings[id].firstSeen);
      }
  }

  lemma {:induction false} HistoryReplaysFrom(db: Db, ops: seq<Op>)
    requires ReplayOk(db)
    ensures ReplayOk(ApplyAll(db, ops))
    decreases |ops|
  {
    if |ops| > 0 {
      ApplyReplays(db, ops[0]);
      HistoryReplaysFrom(Apply(db, ops[0]), ops[1..]);
    }
  }

  /** After any history of upserts, scans, closings and triage, the events of each
      finding form a chain from its opening to its present state, no finding has
      a reason that does not fit its state, and no two rows share a key. */
  lemma EveryHistoryReplays(ops: seq<Op>)
    ensures ReplayOk(ApplyAll(Db([], [], []), ops))
  {
    HistoryReplaysFrom(Db([], [], []), ops);
  }

  // ----- rows alone -----

  lemma UpsertKeepsRows(db: Db, e: string, a: string, hit: Hit)
    requires RowsOk(db.findings)
    ensures RowsOk(UpsertRow(db, e, a, hit).findings)
  {
    var i := FindRow(db.findings, e, hit.fingerprint);
    if i.Some? {
      assert ReasonFits(db.findings[i.value]);
    }
  }

  lemma CloseKeepsRows(db: Db, e: string, a: string, skip: seq<string>, n: nat)
    requires RowsOk(db.findings) && n < |db.findings|
    ensures RowsOk(CloseRowAt(db, e, a, skip, n).findings)
  {
    assert ReasonFits(db.findings[n]);
  }

  // ----- repeating an operation -----

  lemma {:induction false} NothingGone(db: Db, e: string, a: string, skip: seq<string>, n: nat)
    requires n <= |db.findings| && forall i :: 0 <= i < n ==> !IsGone(db.findings[i], e, a, skip)
    ensures CloseAbsent(db, e, a, skip, n) == db && CountGone(db.findings[..n], e, a, skip) == 0
  {
    if n > 0 {
      NothingGone(db, e, a, skip, n - 1);
      assert db.findings[..n][..n - 1] == db.findings[..n - 1];
    }
  }

  /** Closing again closes nothing and changes nothing. */
  lemma CloseIsIdempotent(db: Db, e: string, a: string, skip: seq<string>)
    ensures var closed := CloseAbsent(db, e, a, skip, |db.findings|);
            CloseAbsent(closed, e, a, skip, |db.findings|) == closed && CountGone(closed.findings, e, a, skip) == 0
  {
    var closed := CloseAbsent(db, e, a, skip, |db.findings|);
    ClosedRows(db, e, a, skip, |db.findings|);
    NothingGone(closed, e, a, skip, |db.findings|);
    assert closed.findings[..|db.findings|] == closed.findings;
  }

  // ----- rows found by key, after an operation -----

  lemma {:induction false} SameKeysSameRow(rows: seq<Finding>, rows': seq<Finding>, e: string, f: string)
    requires |rows| == |rows'|
    requires forall i :: 0 <= i < |rows| ==> HasKey(rows'[i], rows[i].engagement, rows[i].fingerprint)
    ensures FindRow(rows', e, f) == FindRow(rows, e, f)
  {
    if rows != [] {
      SameKeysSameRow(rows[..|rows| - 1], rows'[..|rows| - 1], e, f);
    }
  }

  lemma CandidateAppended(rows: seq<Candidate>, row: Candidate, a: string, f: string)
    ensures FindCandidate(rows + [row], a, f)
         == if FindCandidate(rows, a, f).Some? then FindCandidate(rows, a, f)
            else if row.assessment == a && row.payload.fingerprint == f then Some(|rows|)
            else None
  {
  }

  // The row of a key once a hit for it is upserted.
  function Upserted(before: Option<Finding>, e: string, a: string, hit: Hit): Finding {
    if before.Some? then Seen(before.value, a, hit) else NewRow(e, a, hit)
  }

  /** Upserting a hit changes the row of its key and no other. */
  lemma LookupUpserted(db: Db, e: string, a: string, hit: Hit, e': string, f: string)
    ensures Lookup(UpsertFinding(db, e, a, hit).findings, e', f)
         == if e' == e && f == hit.fingerprint then Some(Upserted(Lookup(db.findings, e, f), e, a, hit))
            else Lookup(db.findings, e', f)
  {
    var rows, rows' := db.findings, UpsertFinding(db, e, a, hit).findings;
    if FindRow(rows, e, hit.fingerprint).Some? {
      SameKeysSameRow(rows, rows', e', f);
    } else {
      assert rows'[..|rows|] == rows;
    }
  }

  /** Closing absent findings changes each row as CloseRow says. */
  lemma LookupClosed(db: Db, e: string, a: string, skip: seq<string>, e': string, f: string)
    ensures Lookup(CloseAbsent(db, e, a, skip, |db.findings|).findings, e', f)
         == match Lookup(db.findings, e', f)
            case None => None
            case Some(row) => Some(CloseRow(row, e, a, skip))
  {
    ClosedRows(db, e, a, skip, |db.findings|);
    SameKeysSameRow(db.findings, CloseAbsent(db, e, a, skip, |db.findings|).findings, e', f);
  }
}
