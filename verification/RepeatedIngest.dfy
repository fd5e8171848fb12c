/** Ingesting the same hits again leaves the ledger as it is. */
module RepeatedIngest {
  import opened Options
  import opened Ledger
  import opened LedgerHistory

  // The rows of a fingerprint after a hit on it was ingested: only details and
  // payload can still change.
  predicate Touched(db: Db, a: string, engine: string, f: string, auto: bool) {
    var i := FindCandidate(db.candidates, a, f);
    && i.Some?
    && var c := db.candidates[i.value];
    && c.engine == engine
    && (auto ==> c.status.Promoted? && IsTouchedRow(Lookup(db.findings, c.engagement, f), a))
  }

  predicate IsTouchedRow(row: Option<Finding>, a: string) {
    row.Some? && row.value.lastSeen == a && !row.value.state.VerifiedFixed?
  }

  // What ingesting a hit does where its fingerprint was touched before.
  function Retouched(db: Db, a: string, hit: Hit, auto: bool): Db
    requires FindCandidate(db.candidates, a, hit.fingerprint).Some?
  {
    var i := FindCandidate(db.candidates, a, hit.fingerprint).value;
    var c := db.candidates[i];
    var j := FindRow(db.findings, c.engagement, hit.fingerprint);
    var db' := db.(candidates := db.candidates[i := c.(payload := hit)]);
    if auto && j.Some?
    then db'.(findings := db.findings[j.value := db.findings[j.value].(details := hit.details)])
    else db'
  }

  lemma TouchedIngest(db: Db, e: string, a: string, engine: string, hit: Hit, auto: bool)
    requires Touched(db, a, engine, hit.fingerprint, auto)
    ensures IngestHit(db, e, a, engine, hit, auto) == Retouched(db, a, hit, auto)
  {
    var i := FindCandidate(db.candidates, a, hit.fingerprint).value;
    var db' := UpsertCandidate(db, e, a, engine, hit);
    CandidateKept(db.candidates, i, db'.candidates[i], a, hit.fingerprint);
    assert db.events + [] == db.events;
    if auto {
      assert MarkPromoted(PromoteFinding(db', i), i).candidates == db'.candidates;
    }
  }

  // Which candidate row a fingerprint has, and which finding row, after a hit.
  lemma RowsAfterIngest(db: Db, e: string, a: string, engine: string, hit: Hit, auto: bool, f: string)
    ensures var db' := IngestHit(db, e, a, engine, hit, auto);
            && FindCandidate(db'.candidates, a, f)
               == (if f == hit.fingerprint && FindCandidate(db.candidates, a, f).None? then Some(|db.candidates|)
                   else FindCandidate(db.candidates, a, f))
  {
    var db1 := UpsertCandidate(db, e, a, engine, hit);
    var i := FindCandidate(db.candidates, a, hit.fingerprint);
    if i.Some? {
      CandidateKept(db.candidates, i.value, db1.candidates[i.value], a, f);
    } else {
      CandidateAppended(db.candidates, db1.candidates[|db.candidates|], a, f);
    }
    var i1 := FindCandidate(db1.candidates, a, hit.fingerprint);
    if auto && i1.Some? {
      CandidateKept(db1.candidates, i1.value, db1.candidates[i1.value].(status := Promoted), a, f);
    }
  }

  lemma IngestTouches(db: Db, e: string, a: string, engine: string, hit: Hit, auto: bool)
    ensures Touched(IngestHit(db, e, a, engine, hit, auto), a, engine, hit.fingerprint, auto)
  {
    RowsAfterIngest(db, e, a, engine, hit, auto, hit.fingerprint);
    var db1 := UpsertCandidate(db, e, a, engine, hit);
    var i := FindCandidate(db1.candidates, a, hit.fingerprint);
    var j := FindCandidate(db.candidates, a, hit.fingerprint);
    if j.Some? {
      CandidateKept(db.candidates, j.value, db1.candidates[j.value], a, hit.fingerprint);
    } else {
      CandidateAppended(db.candidates, db1.candidates[|db.candidates|], a, hit.fingerprint);
    }
    if auto {
      var c := db1.candidates[i.value];
      LookupUpserted(db1, c.engagement, c.assessment, c.payload, c.engagement, hit.fingerprint);
    }
  }

  lemma IngestKeepsTouched(db: Db, e: string, a: string, engine: string, hit: Hit, auto: bool, f: string)
    requires Touched(db, a, engine, f, auto)
    ensures Touched(IngestHit(db, e, a, engine, hit, auto), a, engine, f, auto)
  {
    if f == hit.fingerprint {
      IngestTouches(db, e, a, engine, hit, auto);
    } else {
      RowsAfterIngest(db, e, a, engine, hit, auto, f);
      RowsAfterIngest(db, e, a, engine, hit, auto, hit.fingerprint);
      var db1 := UpsertCandidate(db, e, a, engine, hit);
      var i := FindCandidate(db1.candidates, a, hit.fingerprint);
      if auto && i.Some? {
        var c := db1.candidates[i.value];
        var mine := db.candidates[FindCandidate(db.candidates, a, f).value];
        LookupUpserted(db1, c.engagement, c.assessment, c.payload, mine.engagement, f);
      }
    }
  }

  /** Of two hits on one touched fingerprint, only the later one shows. */
  lemma LaterHitWins(db: Db, e: string, a: string, engine: string, g: Hit, h: Hit, auto: bool)
    requires Touched(db, a, engine, g.fingerprint, auto) && h.fingerprint == g.fingerprint
    ensures IngestHit(IngestHit(db, e, a, engine, g, auto), e, a, engine, h, auto)
         == IngestHit(db, e, a, engine, h, auto)
  {
    var db' := IngestHit(db, e, a, engine, g, auto);
    IngestKeepsTouched(db, e, a, engine, g, auto, g.fingerprint);
    TouchedIngest(db, e, a, engine, g, auto);
    TouchedIngest(db', e, a, engine, h, auto);
    TouchedIngest(db, e, a, engine, h, auto);
    RowsAfterIngest(db, e, a, engine, g, auto, g.fingerprint);
    var c := db.candidates[FindCandidate(db.candidates, a, g.fingerprint).value];
    SameKeysSameRow(db.findings, db'.findings, c.engagement, g.fingerprint);
  }

  lemma CandidateKeepsOthers(db: Db, e: string, a: string, engine: string, h: Hit, f: string)
    requires f != h.fingerprint && FindCandidate(db.candidates, a, f).Some?
    ensures var db' := UpsertCandidate(db, e, a, engine, h);
            && FindCandidate(db'.candidates, a, f) == FindCandidate(db.candidates, a, f)
            && db'.candidates[FindCandidate(db.candidates, a, f).value]
               == db.candidates[FindCandidate(db.candidates, a, f).value]
  {
    RowsAfterIngest(db, e, a, engine, h, false, f);
  }

  lemma RetouchCommutesWithCandidate(db: Db, e: string, a: string, engine: string, g: Hit, h: Hit, auto: bool)
    requires FindCandidate(db.candidates, a, g.fingerprint).Some? && h.fingerprint != g.fingerprint
    requires FindCandidate(UpsertCandidate(db, e, a, engine, h).candidates, a, g.fingerprint).Some?
    ensures var db' := UpsertCandidate(db, e, a, engine, h);
            && UpsertCandidate(Retouched(db, a, g, auto), e, a, engine, h) == Retouched(db', a, g, auto)
            && FindCandidate(Retouched(db', a, g, auto).candidates, a, h.fingerprint)
               == FindCandidate(db'.candidates, a, h.fingerprint)
  {
    var db' := UpsertCandidate(db, e, a, engine, h);
    CandidateKeepsOthers(db, e, a, engine, h, g.fingerprint);
    var i, k := FindCandidate(db.candidates, a, g.fingerprint).value, FindCandidate(db.candidates, a, h.fingerprint);
    var row := db.candidates[i].(payload := g);
    CandidateKept(db.candidates, i, row, a, h.fingerprint);
    CandidateKept(db'.candidates, i, row, a, h.fingerprint);
    if k.Some? {
      assert db'.candidates[i := row] == db.candidates[i := row][k.value := db'.candidates[k.value]];
    } else {
      assert db'.candidates[i := row] == db.candidates[i := row] + [db'.candidates[|db.candidates|]];
    }
  }

  lemma DetailsCommute(db: Db, j: nat, details: string, e: string, a: string, hit: Hit)
    requires j < |db.findings| && !HasKey(db.findings[j], e, hit.fingerprint)
    ensures var row, db' := db.findings[j].(details := details), UpsertFinding(db, e, a, hit);
            && j < |db'.findings| && db'.findings[j] == db.findings[j]
            && UpsertFinding(db.(findings := db.findings[j := row]), e, a, hit)
               == db'.(findings := db'.findings[j := row])
  {
    var row := db.findings[j].(details := details);
    SameKeysSameRow(db.findings, db.findings[j := row], e, hit.fingerprint);
    var i, db' := FindRow(db.findings, e, hit.fingerprint), UpsertFinding(db, e, a, hit);
    if i.Some? {
      assert db'.findings[j := row] == db.findings[j := row][i.value := db'.findings[i.value]];
    } else {
      assert db'.findings[j := row] == db.findings[j := row] + [db'.findings[|db.findings|]];
    }
  }

  lemma OtherRowKept(db: Db, e: string, a: string, hit: Hit, e': string, f: string)
    requires f != hit.fingerprint && FindRow(db.findings, e', f).Some?
    ensures FindRow(UpsertFinding(db, e, a, hit).findings, e', f) == FindRow(db.findings, e', f)
  {
    var db' := UpsertFinding(db, e, a, hit);
    if FindRow(db.findings, e, hit.fingerprint).Some? {
      SameKeysSameRow(db.findings, db'.findings, e', f);
    } else {
      assert db'.findings[..|db.findings|] == db.findings;
    }
  }

  lemma RetouchCommutesWithConfirm(db: Db, a: string, g: Hit, k: nat, auto: bool)
    requires FindCandidate(db.candidates, a, g.fingerprint).Some?
    requires k < |db.candidates| && db.candidates[k].payload.fingerprint != g.fingerprint
    requires var mine := db.candidates[FindCandidate(db.candidates, a, g.fingerprint).value];
             auto ==> FindRow(db.findings, mine.engagement, g.fingerprint).Some?
    ensures var db' := ConfirmCandidate(db, k);
            && FindCandidate(db'.candidates, a, g.fingerprint) == FindCandidate(db.candidates, a, g.fingerprint)
            && (auto ==> ConfirmCandidate(Retouched(db, a, g, auto), k) == Retouched(db', a, g, auto))
  {
    var c := db.candidates[k];
    var mine := db.candidates[FindCandidate(db.candidates, a, g.fingerprint).value];
    CandidateKept(db.candidates, k, c.(status := Promoted), a, g.fingerprint);
    if auto {
      var j := FindRow(db.findings, mine.engagement, g.fingerprint).value;
      DetailsCommute(db, j, g.details, c.engagement, c.assessment, c.payload);
      OtherRowKept(db, c.engagement, c.assessment, c.payload, mine.engagement, g.fingerprint);
    }
  }

  /** Hits on different fingerprints can be ingested in either order once one of
      them was seen before. */
  lemma HitsCommute(db: Db, e: string, a: string, engine: string, g: Hit, h: Hit, auto: bool)
    requires Touched(db, a, engine, g.fingerprint, auto) && h.fingerprint != g.fingerprint
    ensures IngestHit(IngestHit(db, e, a, engine, g, auto), e, a, engine, h, auto)
         == IngestHit(IngestHit(db, e, a, engine, h, auto), e, a, engine, g, auto)
  {
    TouchedIngest(db, e, a, engine, g, auto);
    IngestKeepsTouched(db, e, a, engine, h, auto, g.fingerprint);
    TouchedIngest(IngestHit(db, e, a, engine, h, auto), e, a, engine, g, auto);
    CandidateKeepsOthers(db, e, a, engine, h, g.fingerprint);
    RetouchCommutesWithCandidate(db, e, a, engine, g, h, auto);
    var db' := UpsertCandidate(db, e, a, engine, h);
    var k := FindCandidate(db'.candidates, a, h.fingerprint);
    if auto && k.Some? {
      RetouchCommutesWithConfirm(db', a, g, k.value, auto);
    }
  }

  ghost predicate AllTouched(db: Db, a: string, engine: string, hits: seq<Hit>, auto: bool, suppressed: Hit -> bool) {
    forall h :: h in hits && !suppressed(h) ==> Touched(db, a, engine, h.fingerprint, auto)
  }

  lemma {:induction false} ListKeepsTouched(db: Db, e: string, a: string, engine: string, hits: seq<Hit>, auto: bool,
                                            suppressed: Hit -> bool, f: string)
    ensures Touched(db, a, engine, f, auto) ==>
              Touched(IngestHits(db, e, a, engine, hits, auto, suppressed), a, engine, f, auto)
    ensures AllTouched(IngestHits(db, e, a, engine, hits, auto, suppressed), a, engine, hits, auto, suppressed)
  {
    if hits != [] {
      var init, hit := hits[..|hits| - 1], hits[|hits| - 1];
      var before := IngestHits(db, e, a, engine, init, auto, suppressed);
      ListKeepsTouched(db, e, a, engine, init, auto, suppressed, f);
      if !suppressed(hit) {
        IngestTouches(before, e, a, engine, hit, auto);
        forall f' | Touched(before, a, engine, f', auto)
          ensures Touched(IngestHit(before, e, a, engine, hit, auto), a, engine, f', auto)
        {
          IngestKeepsTouched(before, e, a, engine, hit, auto, f');
        }
      }
    }
  }

  // A hit ingested before a list of touched hits makes no difference if it comes
  // again after them.
  lemma {:induction false} EarlierIsForgotten(db: Db, e: string, a: string, engine: string, hits: seq<Hit>, h: Hit,
                                              auto: bool, suppressed: Hit -> bool)
    requires AllTouched(db, a, engine, hits, auto, suppressed) && !suppressed(h)
    ensures IngestHit(IngestHits(IngestHit(db, e, a, engine, h, auto), e, a, engine, hits, auto, suppressed),
                      e, a, engine, h, auto)
         == IngestHit(IngestHits(db, e, a, engine, hits, auto, suppressed), e, a, engine, h, auto)
  {
    var db' := IngestHit(db, e, a, engine, h, auto);
    if hits == [] {
      IngestTouches(db, e, a, engine, h, auto);
      HitTwice(db, e, a, engine, h, auto);
    } else {
      var init, g := hits[..|hits| - 1], hits[|hits| - 1];
      EarlierIsForgotten(db, e, a, engine, init, h, auto, suppressed);
      if !suppressed(g) {
        var one := IngestHits(db', e, a, engine, init, auto, suppressed);
        var two := IngestHits(db, e, a, engine, init, auto, suppressed);
        IngestKeepsTouched(db, e, a, engine, h, auto, g.fingerprint);
        ListKeepsTouched(db', e, a, engine, init, auto, suppressed, g.fingerprint);
        ListKeepsTouched(db, e, a, engine, init, auto, suppressed, g.fingerprint);
        if g.fingerprint == h.fingerprint {
          LaterHitWins(one, e, a, engine, g, h, auto);
          LaterHitWins(two, e, a, engine, g, h, auto);
        } else {
          HitsCommute(one, e, a, engine, g, h, auto);
          HitsCommute(two, e, a, engine, g, h, auto);
        }
      }
    }
  }

  lemma CandidateIsSet(db: Db, e: string, a: string, engine: string, h: Hit)
    ensures var rows := UpsertCandidate(db, e, a, engine, h).candidates;
            var i := FindCandidate(rows, a, h.fingerprint);
            i.Some? && rows[i.value].payload == h
  {
    RowsAfterIngest(db, e, a, engine, h, false, h.fingerprint);
  }

  lemma ConfirmSets(db: Db, k: nat)
    requires k < |db.candidates|
    ensures var c, db' := db.candidates[k], ConfirmCandidate(db, k);
            var row := Lookup(db'.findings, c.engagement, c.payload.fingerprint);
            && db'.candidates == db.candidates[k := c.(status := Promoted)]
            && row.Some? && row.value.details == c.payload.details
  {
    var c := db.candidates[k];
    LookupUpserted(db, c.engagement, c.assessment, c.payload, c.engagement, c.payload.fingerprint);
  }

  lemma IngestSets(db: Db, e: string, a: string, engine: string, h: Hit, auto: bool)
    ensures var db' := IngestHit(db, e, a, engine, h, auto);
            var i := FindCandidate(db'.candidates, a, h.fingerprint);
            && i.Some? && db'.candidates[i.value].payload == h
            && var row := Lookup(db'.findings, db'.candidates[i.value].engagement, h.fingerprint);
            (auto ==> row.Some? && row.value.details == h.details)
  {
    CandidateIsSet(db, e, a, engine, h);
    var db1 := UpsertCandidate(db, e, a, engine, h);
    var i := FindCandidate(db1.candidates, a, h.fingerprint).value;
    if auto {
      CandidateKept(db1.candidates, i, db1.candidates[i].(status := Promoted), a, h.fingerprint);
      ConfirmSets(db1, i);
    }
  }

  lemma HitTwice(db: Db, e: string, a: string, engine: string, h: Hit, auto: bool)
    ensures IngestHit(IngestHit(db, e, a, engine, h, auto), e, a, engine, h, auto)
         == IngestHit(db, e, a, engine, h, auto)
  {
    IngestTouches(db, e, a, engine, h, auto);
    IngestSets(db, e, a, engine, h, auto);
    TouchedIngest(IngestHit(db, e, a, engine, h, auto), e, a, engine, h, auto);
  }

  /** Ingesting a list of hits again, duplicates and suppressed ones included,
      changes no row and adds no event. */
  lemma {:induction false} IngestIsIdempotent(db: Db, e: string, a: string, engine: string, hits: seq<Hit>, auto: bool,
                                              suppressed: Hit -> bool)
    ensures var once := IngestHits(db, e, a, engine, hits, auto, suppressed);
            IngestHits(once, e, a, engine, hits, auto, suppressed) == once
  {
    if hits != [] {
      var init, h := hits[..|hits| - 1], hits[|hits| - 1];
      IngestIsIdempotent(db, e, a, engine, init, auto, suppressed);
      if !suppressed(h) {
        var before := IngestHits(db, e, a, engine, init, auto, suppressed);
        ListKeepsTouched(db, e, a, engine, init, auto, suppressed, h.fingerprint);
        EarlierIsForgotten(before, e, a, engine, init, h, auto, suppressed);
      }
    }
  }
}
