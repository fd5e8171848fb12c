/**
 The findings ledger: rows of findings and candidates, the audit trail, and the
 guarded updates that scans and triage make.

 Tables are sequences of rows in insertion order, a row's id being its index.
 Each operation of the store is one step; the columns an upsert overwrites
 without looking at them are kept together as details.
 */
module Ledger {
  import opened Options
  import opened Strings

  datatype FindingState = Open | Confirmed | Dismissed | VerifiedFixed

  datatype Reason = FalsePositive | AbsentFromScan

  // What an engine reports.
  datatype Hit = Hit(fingerprint: string, category: string, details: string)

  datatype Finding = Finding(engagement: string, fingerprint: string, category: string, details: string,
                             state: FindingState, reason: Option<Reason>,
                             firstSeen: string, lastSeen: string)

  datatype Event = Event(finding: nat, actor: string, from: Option<FindingState>, to: FindingState, assessment: string)

  datatype CandidateStatus = Pending | Promoted

  datatype Candidate = Candidate(engagement: string, assessment: string, engine: string,
                                 status: CandidateStatus, payload: Hit)

  datatype Db = Db(findings: seq<Finding>, events: seq<Event>, candidates: seq<Candidate>)

  predicate IsActive(state: FindingState) {
    state.Open? || state.Confirmed?
  }

  // ----- lookups by the unique keys -----

  predicate HasKey(f: Finding, engagement: string, fingerprint: string) {
    f.engagement == engagement && f.fingerprint == fingerprint
  }

  function FindRow(rows: seq<Finding>, engagement: string, fingerprint: string): (i: Option<nat>)
    ensures i.Some? ==> i.value < |rows| && HasKey(rows[i.value], engagement, fingerprint)
    ensures i.None? ==> forall j :: 0 <= j < |rows| ==> !HasKey(rows[j], engagement, fingerprint)
  {
    if rows == [] then None
    else
      var n := |rows| - 1;
      var earlier := FindRow(rows[..n], engagement, fingerprint);
      if earlier.Some? then earlier
      else if HasKey(rows[n], engagement, fingerprint) then Some(n)
      else None
  }

  function Lookup(rows: seq<Finding>, engagement: string, fingerprint: string): Option<Finding> {
    var i := FindRow(rows, engagement, fingerprint);
    if i.Some? then Some(rows[i.value]) else None
  }

  // UNIQUE(engagement_id, fingerprint)
  ghost predicate UniqueRows(rows: seq<Finding>) {
    forall i, j :: 0 <= i < j < |rows| ==> !HasKey(rows[j], rows[i].engagement, rows[i].fingerprint)
  }

  function FindCandidate(rows: seq<Candidate>, assessment: string, fingerprint: string): (i: Option<nat>)
    ensures i.Some? ==> i.value < |rows| && rows[i.value].assessment == assessment
                        && rows[i.value].payload.fingerprint == fingerprint
    ensures i.None? ==> forall j :: 0 <= j < |rows| ==>
                          !(rows[j].assessment == assessment && rows[j].payload.fingerprint == fingerprint)
  {
    if rows == [] then None
    else
      var n := |rows| - 1;
      var earlier := FindCandidate(rows[..n], assessment, fingerprint);
      if earlier.Some? then earlier
      else if rows[n].assessment == assessment && rows[n].payload.fingerprint == fingerprint then Some(n)
      else None
  }

  // ----- what the operations do -----

  // A row seen again: verified_fixed reopens, every other state is kept.
  function Seen(row: Finding, assessment: string, hit: Hit): Finding {
    if row.state.VerifiedFixed?
    then row.(lastSeen := assessment, details := hit.details, state := Open, reason := None)
    else row.(lastSeen := assessment, details := hit.details)
  }

  function NewRow(engagement: string, assessment: string, hit: Hit): Finding {
    Finding(engagement, hit.fingerprint, hit.category, hit.details, Open, None, assessment, assessment)
  }

  // Upserting writes the row first and then, in a statement of its own, an event.
  function UpsertRow(db: Db, engagement: string, assessment: string, hit: Hit): (db': Db)
    ensures db'.events == db.events && db'.candidates == db.candidates
  {
    var i := FindRow(db.findings, engagement, hit.fingerprint);
    if i.None? then db.(findings := db.findings + [NewRow(engagement, assessment, hit)])
    else db.(findings := db.findings[i.value := Seen(db.findings[i.value], assessment, hit)])
  }

  function UpsertEvent(db: Db, engagement: string, assessment: string, hit: Hit): Option<Event> {
    var i := FindRow(db.findings, engagement, hit.fingerprint);
    if i.None? then Some(Event(|db.findings|, "engine", None, Open, assessment))
    else if db.findings[i.value].state.VerifiedFixed? then
      Some(Event(i.value, "engine", Some(VerifiedFixed), Open, assessment))
    else None
  }

  function AddEvent(db: Db, event: Option<Event>): Db {
    if event.Some? then db.(events := db.events + [event.value]) else db
  }

  function UpsertFinding(db: Db, engagement: string, assessment: string, hit: Hit): Db {
    AddEvent(UpsertRow(db, engagement, assessment, hit), UpsertEvent(db, engagement, assessment, hit))
  }

  function UpsertCandidate(db: Db, engagement: string, assessment: string, engine: string, hit: Hit): Db {
    var i := FindCandidate(db.candidates, assessment, hit.fingerprint);
    if i.None? then
      db.(candidates := db.candidates + [Candidate(engagement, assessment, engine, Pending, hit)])
    else
      db.(candidates := db.candidates[i.value := db.candidates[i.value].(engine := engine, payload := hit)])
  }

  function MarkPromoted(db: Db, i: nat): Db
    requires i < |db.candidates|
  {
    db.(candidates := db.candidates[i := db.candidates[i].(status := Promoted)])
  }

  // confirm_candidate before it marks the candidate, its row and its event.
  function PromoteRow(db: Db, i: nat): (db': Db)
    requires i < |db.candidates|
    ensures db'.events == db.events && db'.candidates == db.candidates
  {
    var c := db.candidates[i];
    UpsertRow(db, c.engagement, c.assessment, c.payload)
  }

  function PromoteEvent(db: Db, i: nat): Option<Event>
    requires i < |db.candidates|
  {
    var c := db.candidates[i];
    UpsertEvent(db, c.engagement, c.assessment, c.payload)
  }

  function PromoteFinding(db: Db, i: nat): (db': Db)
    requires i < |db.candidates|
    ensures db'.candidates == db.candidates
  {
    var c := db.candidates[i];
    UpsertFinding(db, c.engagement, c.assessment, c.payload)
  }

  function ConfirmCandidate(db: Db, i: nat): Db
    requires i < |db.candidates|
  {
    MarkPromoted(PromoteFinding(db, i), i)
  }

  function IngestHit(db: Db, engagement: string, assessment: string, engine: string, hit: Hit, autoConfirm: bool): Db {
    var db' := UpsertCandidate(db, engagement, assessment, engine, hit);
    var i := FindCandidate(db'.candidates, assessment, hit.fingerprint);
    if autoConfirm && i.Some? then ConfirmCandidate(db', i.value) else db'
  }

  function IngestHits(db: Db, engagement: string, assessment: string, engine: string, hits: seq<Hit>,
                      autoConfirm: bool, suppressed: Hit -> bool): Db
  {
    if hits == [] then db
    else
      var db' := IngestHits(db, engagement, assessment, engine, hits[..|hits| - 1], autoConfirm, suppressed);
      var hit := hits[|hits| - 1];
      if suppressed(hit) then db' else IngestHit(db', engagement, assessment, engine, hit, autoConfirm)
  }

  function Kept(hits: seq<Hit>, suppressed: Hit -> bool): nat {
    if hits == [] then 0
    else Kept(hits[..|hits| - 1], suppressed) + if suppressed(hits[|hits| - 1]) then 0 else 1
  }

  predicate IsPendingOf(c: Candidate, assessment: string) {
    c.assessment == assessment && c.status.Pending?
  }

  // The first n candidate rows, each confirmed if it is pending.
  function ConfirmPending(db: Db, assessment: string, n: nat): (db': Db)
    requires n <= |db.candidates|
    ensures |db'.candidates| == |db.candidates|
    ensures forall i :: n <= i < |db.candidates| ==> db'.candidates[i] == db.candidates[i]
  {
    if n == 0 then db
    else
      var before := ConfirmPending(db, assessment, n - 1);
      if IsPendingOf(before.candidates[n - 1], assessment) then ConfirmCandidate(before, n - 1) else before
  }

  function ToLowerAscii(c: char): char {
    if 'A' <= c <= 'Z' then (c as int + 32) as char else c
  }

  predicate EqIgnoreAsciiCase(a: string, b: string) {
    |a| == |b| && forall i :: 0 <= i < |a| ==> ToLowerAscii(a[i]) == ToLowerAscii(b[i])
  }

  predicate IsSkipped(category: string, skip: seq<string>) {
    exists i :: 0 <= i < |skip| && EqIgnoreAsciiCase(skip[i], category)
  }

  // The row is open on this engagement, was not seen by this assessment, and
  // its engine ran.
  predicate IsGone(row: Finding, engagement: string, assessment: string, skip: seq<string>) {
    row.engagement == engagement && IsActive(row.state) && row.lastSeen != assessment
    && !IsSkipped(row.category, skip)
  }

  function ClosedRow(row: Finding, assessment: string): Finding {
    row.(state := VerifiedFixed, reason := Some(AbsentFromScan), lastSeen := assessment)
  }

  function CloseRow(row: Finding, engagement: string, assessment: string, skip: seq<string>): Finding {
    if IsGone(row, engagement, assessment, skip) then ClosedRow(row, assessment) else row
  }

  // Row n is closed if the row listed for it says that its finding is gone. The
  // listing may be older than the row.
  function CloseListedRow(db: Db, engagement: string, assessment: string, skip: seq<string>, n: nat, listed: Finding)
    : Db
    requires n < |db.findings|
  {
    if IsGone(listed, engagement, assessment, skip)
    then db.(findings := db.findings[n := ClosedRow(db.findings[n], assessment)])
    else db
  }

  function CloseListedEvent(engagement: string, assessment: string, skip: seq<string>, n: nat, listed: Finding)
    : Option<Event>
  {
    if IsGone(listed, engagement, assessment, skip)
    then Some(Event(n, "engine", Some(listed.state), VerifiedFixed, assessment))
    else None
  }

  // The same with a fresh listing.
  function CloseRowAt(db: Db, engagement: string, assessment: string, skip: seq<string>, n: nat): Db
    requires n < |db.findings|
  {
    CloseListedRow(db, engagement, assessment, skip, n, db.findings[n])
  }

  function CloseEvent(db: Db, engagement: string, assessment: string, skip: seq<string>, n: nat): Option<Event>
    requires n < |db.findings|
  {
    CloseListedEvent(engagement, assessment, skip, n, db.findings[n])
  }

  function CloseAt(db: Db, engagement: string, assessment: string, skip: seq<string>, n: nat): Db
    requires n < |db.findings|
  {
    AddEvent(CloseRowAt(db, engagement, assessment, skip, n), CloseEvent(db, engagement, assessment, skip, n))
  }

  // The first n rows, each closed if its finding is gone.
  function CloseAbsent(db: Db, engagement: string, assessment: string, skip: seq<string>, n: nat): (db': Db)
    requires n <= |db.findings|
    ensures |db'.findings| == |db.findings| && db'.candidates == db.candidates
  {
    if n == 0 then db
    else CloseAt(CloseAbsent(db, engagement, assessment, skip, n - 1), engagement, assessment, skip, n - 1)
  }

  function CountGone(rows: seq<Finding>, engagement: string, assessment: string, skip: seq<string>): nat {
    if rows == [] then 0
    else CountGone(rows[..|rows| - 1], engagement, assessment, skip)
         + if IsGone(rows[|rows| - 1], engagement, assessment, skip) then 1 else 0
  }

  function ParseState(state: string): Option<FindingState> {
    if state == "open" then Some(Open)
    else if state == "confirmed" then Some(Confirmed)
    else if state == "dismissed" then Some(Dismissed)
    else if state == "verified_fixed" then Some(VerifiedFixed)
    else None
  }

  datatype TriageError = InvalidSource | InvalidState | InvalidReason | ReasonWithoutDismissal | UnknownFinding

  // The reason a triage request gives, blank meaning none.
  function TriageReason(reason: Option<string>): Option<string> {
    if reason.None? || Trim(reason.value) == "" then None else Some(Trim(reason.value))
  }

  function CheckTriage(db: Db, id: nat, state: string, reason: Option<string>, source: string): Option<TriageError> {
    if source != "user" && source != "jev" then Some(InvalidSource)
    else if ParseState(state).None? then Some(InvalidState)
    else if TriageReason(reason).Some? && TriageReason(reason).value != "false_positive" then Some(InvalidReason)
    else if TriageReason(reason).Some? && state != "dismissed" then Some(ReasonWithoutDismissal)
    else if id >= |db.findings| then Some(UnknownFinding)
    else None
  }

  function TriageRow(db: Db, id: nat, state: FindingState, falsePositive: bool): Db
    requires id < |db.findings| && (falsePositive ==> state.Dismissed?)
  {
    db.(findings := db.findings[id := db.findings[id].(state := state,
                                                       reason := if falsePositive then Some(FalsePositive) else None)])
  }

  function TriageEvent(db: Db, id: nat, state: FindingState, source: string): Option<Event>
    requires id < |db.findings|
  {
    var row := db.findings[id];
    if row.state != state then Some(Event(id, source, Some(row.state), state, row.firstSeen)) else None
  }

  function Triage(db: Db, id: nat, state: FindingState, falsePositive: bool, source: string): Db
    requires id < |db.findings| && (falsePositive ==> state.Dismissed?)
  {
    AddEvent(TriageRow(db, id, state, falsePositive), TriageEvent(db, id, state, source))
  }

  // ----- the store -----

  class Store {
    var db: Db

    constructor ()
      ensures db == Db([], [], [])
    {
      db := Db([], [], []);
    }

    method InsertEvent(finding: nat, actor: string, from: Option<FindingState>, to: FindingState, assessment: string)
      modifies this
      ensures db == old(db).(events := old(db).events + [Event(finding, actor, from, to, assessment)])
    {
      db := db.(events := db.events + [Event(finding, actor, from, to, assessment)]);
    }

    method Upsert(engagement: string, assessment: string, hit: Hit)
      modifies this
      ensures db == UpsertFinding(old(db), engagement, assessment, hit)
    {
      var i := FindRow(db.findings, engagement, hit.fingerprint);
      if i.Some? {
        var row := db.findings[i.value];
        var prevState := row.state;
        row := row.(lastSeen := assessment, details := hit.details);
        if prevState == VerifiedFixed {
          row := row.(state := Open, reason := None);
        }
        db := db.(findings := db.findings[i.value := row]);
        if prevState == VerifiedFixed {
          InsertEvent(i.value, "engine", Some(prevState), Open, assessment);
        }
        return;
      }
      var id := |db.findings|;
      db := db.(findings := db.findings + [NewRow(engagement, assessment, hit)]);
      InsertEvent(id, "engine", None, Open, assessment);
    }

    method UpsertCand(engagement: string, assessment: string, engine: string, hit: Hit) returns (id: nat)
      modifies this
      ensures db == UpsertCandidate(old(db), engagement, assessment, engine, hit)
      ensures FindCandidate(db.candidates, assessment, hit.fingerprint) == Some(id)
    {
      var i := FindCandidate(db.candidates, assessment, hit.fingerprint);
      if i.Some? {
        id := i.value;
        ghost var rows := db.candidates;
        db := db.(candidates := db.candidates[id := db.candidates[id].(engine := engine, payload := hit)]);
        CandidateKept(rows, id, db.candidates[id], assessment, hit.fingerprint);
      } else {
        id := |db.candidates|;
        db := db.(candidates := db.candidates + [Candidate(engagement, assessment, engine, Pending, hit)]);
        assert db.candidates[..id] == old(db).candidates;
      }
    }

    method Confirm(id: nat)
      requires id < |db.candidates|
      modifies this
      ensures db == ConfirmCandidate(old(db), id)
    {
      var c := db.candidates[id];
      Upsert(c.engagement, c.assessment, c.payload);
      db := db.(candidates := db.candidates[id := c.(status := Promoted)]);
    }

    // ingest_hits of scan.rs
    method Ingest(engagement: string, assessment: string, engine: string, hits: seq<Hit>, autoConfirm: bool,
                  suppressed: Hit -> bool)
      returns (n: nat)
      modifies this
      ensures db == IngestHits(old(db), engagement, assessment, engine, hits, autoConfirm, suppressed)
      ensures n == Kept(hits, suppressed)
    {
      n := 0;
      for h := 0 to |hits|
        invariant db == IngestHits(old(db), engagement, assessment, engine, hits[..h], autoConfirm, suppressed)
        invariant n == Kept(hits[..h], suppressed)
      {
        assert hits[..h + 1][..h] == hits[..h];
        if suppressed(hits[h]) {
          continue;
        }
        var id := UpsertCand(engagement, assessment, engine, hits[h]);
        if autoConfirm {
          Confirm(id);
        }
        n := n + 1;
      }
      assert hits[..|hits|] == hits;
    }

    method ConfirmPendingCandidates(assessment: string)
      modifies this
      ensures db == ConfirmPending(old(db), assessment, |old(db).candidates|)
    {
      var n := |db.candidates|;
      for i := 0 to n
        invariant db == ConfirmPending(old(db), assessment, i)
      {
        if IsPendingOf(db.candidates[i], assessment) {
          Confirm(i);
        }
      }
    }

    // One row of the listing.
    method CloseFinding(n: nat, listed: Finding, engagement: string, assessment: string, skip: seq<string>)
      returns (closed: bool)
      requires n < |db.findings|
      modifies this
      ensures db == AddEvent(CloseListedRow(old(db), engagement, assessment, skip, n, listed),
                             CloseListedEvent(engagement, assessment, skip, n, listed))
      ensures closed == IsGone(listed, engagement, assessment, skip)
    {
      closed := false;
      if listed.engagement == engagement && IsActive(listed.state) && listed.lastSeen != assessment {
        if !IsSkipped(listed.category, skip) {
          db := db.(findings := db.findings[n := ClosedRow(db.findings[n], assessment)]);
          InsertEvent(n, "engine", Some(listed.state), VerifiedFixed, assessment);
          closed := true;
        }
      }
    }

    method CloseAbsentFindingsExcept(engagement: string, assessment: string, skip: seq<string>) returns (closed: nat)
      modifies this
      ensures db == CloseAbsent(old(db), engagement, assessment, skip, |old(db).findings|)
      ensures closed == CountGone(old(db).findings, engagement, assessment, skip)
    {
      closed := 0;
      var rows := db.findings;
      for i := 0 to |rows|
        invariant db == CloseAbsent(old(db), engagement, assessment, skip, i)
        invariant closed == CountGone(rows[..i], engagement, assessment, skip)
      {
        assert rows[..i + 1][..i] == rows[..i];
        ClosedRows(old(db), engagement, assessment, skip, i);
        var gone := CloseFinding(i, rows[i], engagement, assessment, skip);
        closed := closed + if gone then 1 else 0;
      }
      assert rows[..|rows|] == rows;
    }

    method TriageFinding(id: nat, state: string, reason: Option<string>, source: string)
      returns (error: Option<TriageError>)
      modifies this
      ensures error == CheckTriage(old(db), id, state, reason, source)
      ensures error.Some? ==> db == old(db)
      ensures error.None? ==>
                db == Triage(old(db), id, ParseState(state).value, TriageReason(reason).Some?, source)
    {
      if source != "user" && source != "jev" {
        return Some(InvalidSource);
      }
      var parsed := ParseState(state);
      if parsed.None? {
        return Some(InvalidState);
      }
      var given := TriageReason(reason);
      if given.Some? {
        if given.value != "false_positive" {
          return Some(InvalidReason);
        }
        if state != "dismissed" {
          return Some(ReasonWithoutDismissal);
        }
      }
      if id >= |db.findings| {
        return Some(UnknownFinding);
      }
      var row := db.findings[id];
      var fromState := row.state;
      var statusReason := if parsed.value == Dismissed && given.Some? then Some(FalsePositive) else None;
      db := db.(findings := db.findings[id := row.(state := parsed.value, reason := statusReason)]);
      if fromState != parsed.value {
        InsertEvent(id, source, Some(fromState), parsed.value, row.firstSeen);
      }
      return None;
    }
  }

  /** Closing treats each row by what it was before, whatever the others are. */
  lemma {:induction false} ClosedRows(db: Db, engagement: string, assessment: string, skip: seq<string>, n: nat)
    requires n <= |db.findings|
    ensures var db' := CloseAbsent(db, engagement, assessment, skip, n);
            && (forall i :: 0 <= i < n ==> db'.findings[i] == CloseRow(db.findings[i], engagement, assessment, skip))
            && (forall i :: n <= i < |db.findings| ==> db'.findings[i] == db.findings[i])
  {
    if n > 0 {
      ClosedRows(db, engagement, assessment, skip, n - 1);
    }
  }

  lemma {:induction false} CandidateKept(rows: seq<Candidate>, i: nat, row: Candidate,
                                         assessment: string, fingerprint: string)
    requires i < |rows| && row.assessment == rows[i].assessment
    requires row.payload.fingerprint == rows[i].payload.fingerprint
    ensures FindCandidate(rows[i := row], assessment, fingerprint) == FindCandidate(rows, assessment, fingerprint)
    decreases |rows|
  {
    var n := |rows| - 1;
    if i == n {
      assert rows[i := row][..n] == rows[..n];
    } else {
      assert rows[i := row][..n] == rows[..n][i := row];
      CandidateKept(rows[..n], i, row, assessment, fingerprint);
    }
  }
}
