/** Reclaiming stuck claims keeps the store invariant. */
module SweepSteps {
  import opened Models
  import opened Tables
  import opened Recheck
  import opened Sweep
  import opened LogFacts
  import opened StoreInvariant
  import opened StoreSteps
  import AuditIds

  function Later(db: Db): Db { db.(clock := db.clock + 1) }

  /** One reclaim: the row goes back to PENDING_RECHECK or to DEAD_LETTER, and exactly one
      row is logged for it. */
  predicate ReclaimEffect(settings: Settings, db: Db, db': Db, o: string) {
    && o in db.orders && o in db'.orders
    && db'.orders == db.orders[o := ReclaimedRow(settings, db.orders[o], db.clock)]
    && db'.views == db.views && db'.claims == db.claims && db'.clock == db.clock
    && |db'.audit| == |db.audit| + 1
    && db'.audit == db.audit + [db'.audit[|db.audit|]]
    && (var row := db'.audit[|db.audit|];
        row.entry.eventId == AuditIds.SweepId(o, db.orders[o].retryCount + 1) && row.entry.orderId == o &&
        row.entry.source == System && row.payload.None? &&
        row.entry.oldState == Some(Processing) && row.entry.newState == Some(db'.orders[o].status))
    && db'.reviews ==
         if db'.orders[o].status == DeadLetter
         then db.reviews + [ReviewItem(Some(o), DeadLetterReview, None, None)] else db.reviews
  }

  lemma ReclaimHasEffect(settings: Settings, db: Db, o: string)
    requires OrderOk(settings, db, o)
    requires o in db.orders
    ensures ReclaimEffect(settings, db, ReclaimOne(settings, db, o), o)
    ensures !Logged(db.audit, AuditIds.SweepId(o, db.orders[o].retryCount + 1))
  {
    assert !Logged(db.audit, AuditIds.SweepId(o, db.orders[o].retryCount + 1));
  }

  lemma ReclaimFits(settings: Settings, db: Db, db': Db, o: string)
    requires ReclaimEffect(settings, db, db', o)
    requires !Logged(db.audit, AuditIds.SweepId(o, db.orders[o].retryCount + 1))
    ensures StepFits(Later(db), Later(db'), o)
  {
    hide AuditIds.SweepId, AuditIds.RecheckId;
    assert OwnId(o, AuditIds.SweepId(o, db.orders[o].retryCount + 1));
  }

  /** The books still balance after a claim is taken away and logged. */
  lemma ReclaimedRowOk(settings: Settings, row: Row, now: int, claims: nat, systemRows: nat, deadLetters: nat)
    requires row.status == Processing && RowOk(settings, row)
    requires ClaimsAccounted(settings, Some(row), claims, systemRows)
    requires DeadLettersOk(Some(row), deadLetters)
    ensures var row' := ReclaimedRow(settings, row, now);
            && RowOk(settings, row')
            && ClaimsAccounted(settings, Some(row'), claims, systemRows + 1)
            && DeadLettersOk(Some(row'), deadLetters + if row'.status == DeadLetter then 1 else 0)
  {
  }

  /** The id a reclaim spends is that retry's and no other's; it files none. */
  lemma ReclaimedIds(settings: Settings, db: Db, db': Db, o: string, t: nat)
    requires ReclaimEffect(settings, db, db', o)
    ensures Logged(db'.audit, AuditIds.RecheckId(o, t)) ==> Logged(db.audit, AuditIds.RecheckId(o, t))
    ensures Logged(db'.audit, AuditIds.SweepId(o, t)) ==>
              Logged(db.audit, AuditIds.SweepId(o, t)) || t == db.orders[o].retryCount + 1
    ensures Filed(db'.reviews, Some(AuditIds.RecheckId(o, t))) ==> Filed(db.reviews, Some(AuditIds.RecheckId(o, t)))
  {
    var spent := db.orders[o].retryCount + 1;
    AuditIds.IdsAreInjective(o, t, o, spent);
    AuditIds.KindsDiffer(o, t, o, spent);
    AuditAppend(db.audit, db'.audit[|db.audit|], o);
    ReviewsAppend(db.reviews, ReviewItem(Some(o), DeadLetterReview, None, None), o);
    hide AuditIds.RecheckId, AuditIds.SweepId, Logged, Filed, ReclaimedRow;
  }

  lemma ReclaimedIdsOk(settings: Settings, db: Db, db': Db, o: string)
    requires OrderOk(settings, db, o)
    requires ReclaimEffect(settings, db, db', o)
    ensures IdsOk(db', o)
  {
    assert IdsOk(db, o) && db'.claims == db.claims;
    assert db'.orders[o].retryCount == db.orders[o].retryCount + 1 && db'.orders[o].claimToken.None?;
    hide OrderOk, AuditIds.RecheckId, AuditIds.SweepId, Logged, Filed, ReclaimEffect;
    forall t: nat
      ensures Logged(db'.audit, AuditIds.RecheckId(o, t)) ==> Settled(db', o, t)
      ensures Filed(db'.reviews, Some(AuditIds.RecheckId(o, t))) ==> Settled(db', o, t)
      ensures Logged(db'.audit, AuditIds.SweepId(o, t)) ==> o in db'.orders && t <= db'.orders[o].retryCount
    {
      ReclaimedIds(settings, db, db', o, t);
    }
  }

  lemma ReclaimedOrderOk(settings: Settings, db: Db, db': Db, o: string)
    requires OrderOk(settings, db, o)
    requires ReclaimEffect(settings, db, db', o)
    requires db.orders[o].status == Processing
    ensures OrderOk(settings, db', o)
  {
    hide IdsOk, TokensOk, ViewsOk, RowOk, ClaimsAccounted, DeadLettersOk, ReclaimEffect, ReclaimedRow, ClaimsOf,
         SystemRows, DeadLetters;
    ReclaimedIdsOk(settings, db, db', o);
    ReclaimedViewsOk(settings, db, db', o);
    ReclaimedCounts(settings, db, db', o);
    ReclaimedRowOk(settings, db.orders[o], db.clock, ClaimsOf(db.claims, o), SystemRows(db.audit, o),
                   DeadLetters(db.reviews, o));
  }

  /** What a reclaim adds to the books. */
  lemma ReclaimedCounts(settings: Settings, db: Db, db': Db, o: string)
    requires ReclaimEffect(settings, db, db', o)
    ensures o in db.orders && o in db'.orders
    ensures db'.orders[o] == ReclaimedRow(settings, db.orders[o], db.clock)
    ensures db'.orders[o].status != ResolvedAutocorrected
    ensures ClaimsOf(db'.claims, o) == ClaimsOf(db.claims, o)
    ensures SystemRows(db'.audit, o) == SystemRows(db.audit, o) + 1
    ensures DeadLetters(db'.reviews, o) ==
            DeadLetters(db.reviews, o) + if db'.orders[o].status == DeadLetter then 1 else 0
  {
    AuditAppend(db.audit, db'.audit[|db.audit|], o);
    ReviewsAppend(db.reviews, ReviewItem(Some(o), DeadLetterReview, None, None), o);
    hide AuditIds.SweepId, ClaimsOf, SystemRows, DeadLetters;
  }

  lemma ReclaimedViewsOk(settings: Settings, db: Db, db': Db, o: string)
    requires ViewsOk(db, o)
    requires ReclaimEffect(settings, db, db', o)
    ensures ViewsOk(db', o)
    ensures TokensOk(db', o)
  {
    AuditAppend(db.audit, db'.audit[|db.audit|], o);
  }

  lemma ReclaimOneKeeps(settings: Settings, db: Db, o: string)
    requires StoreOk(settings, Later(db))
    requires o in db.orders && db.orders[o].status == Processing
    ensures var db' := ReclaimOne(settings, db, o);
            StoreOk(settings, Later(db')) && ReclaimEffect(settings, db, db', o)
  {
    var db' := ReclaimOne(settings, db, o);
    StoreOrder(settings, Later(db), o);
    hide OrderOk;
    SameButClock(settings, Later(db), db, o);
    ReclaimHasEffect(settings, db, o);
    ReclaimFits(settings, db, db', o);
    ReclaimedOrderOk(settings, db, db', o);
    hide ReclaimOne, ReclaimEffect, StepFits, StoreOk;
    SameButClock(settings, db', Later(db'), o);
    StepKeeps(settings, Later(db), Later(db'), o);
  }

  lemma SameButClock(settings: Settings, db: Db, db': Db, o: string)
    requires OrderOk(settings, db, o)
    requires db' == db.(clock := db'.clock)
    ensures OrderOk(settings, db', o)
  {
    hide RowOk, ClaimsAccounted, DeadLettersOk, ViewsOk;
    assert ViewsOk(db', o) by { SameViews(db, db', o); }
    forall t: nat ensures Settled(db, o, t) ==> Settled(db', o, t)
                  ensures Live(db', o, t) ==> Live(db, o, t)
                  ensures LastClaim(db, o, t) ==> LastClaim(db', o, t) {
    }
    if o in db'.orders && db'.orders[o].status == ResolvedAutocorrected {
      var token, n :| Justified(db, o, token, n);
      assert Justified(db', o, token, n);
    }
  }

  lemma SameViews(db: Db, db': Db, o: string)
    requires ViewsOk(db, o) && db' == db.(clock := db'.clock)
    ensures ViewsOk(db', o)
  {
  }

  lemma TickKeeps(settings: Settings, db: Db, later: int)
    requires StoreOk(settings, db)
    requires db.clock <= later
    ensures StoreOk(settings, db.(clock := later))
  {
    hide OrderOk;
    var db' := db.(clock := later);
    forall o: string ensures OrderOk(settings, db', o) {
      SameButClock(settings, db, db', o);
    }
  }

  /** The whole batch: listed rows are reclaimed, every other row is as it was, and each
      reclaim is logged. */
  lemma {:induction false} ReclaimEachKeeps(settings: Settings, db: Db, orderIds: seq<string>)
    requires StoreOk(settings, Later(db))
    requires Distinct(orderIds)
    requires forall o | o in orderIds :: o in db.orders && db.orders[o].status == Processing
    ensures var db' := ReclaimEach(settings, db, orderIds);
            && StoreOk(settings, Later(db'))
            && db'.clock == db.clock && db'.views == db.views && db'.claims == db.claims
            && |db'.audit| == |db.audit| + |orderIds| && db.audit <= db'.audit
            && (orderIds != [] ==>
                  var before := ReclaimEach(settings, db, orderIds[..|orderIds| - 1]);
                  var last := orderIds[|orderIds| - 1];
                  && ReclaimEffect(settings, before, db', last)
                  && ReclaimedRow(settings, before.orders[last], before.clock) ==
                     ReclaimedRow(settings, db.orders[last], db.clock))
            && (forall o | o in db.orders ::
                  db'.orders[o] == if o in orderIds then ReclaimedRow(settings, db.orders[o], db.clock)
                                   else db.orders[o])
  {
    hide StoreOk;
    if orderIds != [] {
      var n := |orderIds| - 1;
      var before := ReclaimEach(settings, db, orderIds[..n]);
      ReclaimEachKeeps(settings, db, orderIds[..n]);
      assert orderIds[n] in orderIds;
      ReclaimOneKeeps(settings, before, orderIds[n]);
      assert orderIds == orderIds[..n] + [orderIds[n]];
    }
  }

  lemma ReclaimOneRecords(settings: Settings, db: Db, db': Db, p: string, o: string)
    requires ReclaimEffect(settings, db, db', p)
    ensures EventsOf(db'.audit, o) == EventsOf(db.audit, o)
    ensures DeadLetters(db'.reviews, o) == DeadLetters(db.reviews, o) +
            if o == p && db'.orders[p].status == DeadLetter then 1 else 0
  {
    AuditAppend(db.audit, db'.audit[|db.audit|], o);
    ReviewsAppend(db.reviews, ReviewItem(Some(p), DeadLetterReview, None, None), o);
  }

  predicate DiesIn(settings: Settings, db: Db, orderIds: seq<string>, o: string) {
    o in orderIds && o in db.orders && ReclaimedRow(settings, db.orders[o], db.clock).status == DeadLetter
  }

  /** What one more reclaim adds to the records of the batch. */
  lemma LastReclaimRecords(settings: Settings, db: Db, before: Db, after: Db, orderIds: seq<string>, o: string)
    requires orderIds != [] && Distinct(orderIds) && forall p | p in orderIds :: p in db.orders
    requires var last := orderIds[|orderIds| - 1];
             && ReclaimEffect(settings, before, after, last)
             && ReclaimedRow(settings, before.orders[last], before.clock) ==
                ReclaimedRow(settings, db.orders[last], db.clock)
    ensures EventsOf(after.audit, o) == EventsOf(before.audit, o)
    ensures DeadLetters(after.reviews, o) - DeadLetters(before.reviews, o) ==
            (if DiesIn(settings, db, orderIds, o) then 1 else 0) -
            (if DiesIn(settings, db, orderIds[..|orderIds| - 1], o) then 1 else 0)
  {
    var n := |orderIds| - 1;
    ReclaimOneRecords(settings, before, after, orderIds[n], o);
    assert after.orders[orderIds[n]] == ReclaimedRow(settings, db.orders[orderIds[n]], db.clock);
    hide ReclaimEffect, ReclaimedRow, EventsOf, DeadLetters;
    assert orderIds == orderIds[..n] + [orderIds[n]];
  }

  /** The batch records no events, and files one review row per dead letter. */
  lemma {:induction false} ReclaimEachRecords(settings: Settings, db: Db, orderIds: seq<string>, o: string)
    requires StoreOk(settings, Later(db))
    requires Distinct(orderIds)
    requires forall p | p in orderIds :: p in db.orders && db.orders[p].status == Processing
    ensures var db' := ReclaimEach(settings, db, orderIds);
            && EventsOf(db'.audit, o) == EventsOf(db.audit, o)
            && DeadLetters(db'.reviews, o) ==
               DeadLetters(db.reviews, o) + if DiesIn(settings, db, orderIds, o) then 1 else 0
  {
    hide StoreOk, ReclaimEffect, ReclaimedRow, EventsOf, DeadLetters;
    if orderIds == [] {
      assert !DiesIn(settings, db, orderIds, o);
    } else {
      hide ReclaimEach, DiesIn;
      var n := |orderIds| - 1;
      ReclaimEachRecords(settings, db, orderIds[..n], o);
      ReclaimEachKeeps(settings, db, orderIds);
      LastReclaimRecords(settings, db, ReclaimEach(settings, db, orderIds[..n]), ReclaimEach(settings, db, orderIds),
                         orderIds, o);
    }
  }

  lemma StuckSweepKeeps(settings: Settings, db: Db, orderIds: seq<string>)
    requires StoreOk(settings, db)
    requires ListsStuck(settings, db, orderIds)
    ensures var db' := StuckSweep(settings, db, orderIds);
            && StoreOk(settings, db')
            && db'.views == db.views && db'.claims == db.claims && db'.clock == db.clock + 1
            && |db'.audit| == |db.audit| + |orderIds| && db.audit <= db'.audit
            && (forall o :: EventsOf(db'.audit, o) == EventsOf(db.audit, o))
            && (forall o :: DeadLetters(db'.reviews, o) == DeadLetters(db.reviews, o) +
                            if o in orderIds && db'.orders[o].status == DeadLetter then 1 else 0)
            && db'.orders.Keys == db.orders.Keys
            && (forall o :: DeadLetters(db'.reviews, o) == DeadLetters(db.reviews, o) +
                            if IsStuck(settings, db, o) && db'.orders[o].status == DeadLetter then 1 else 0)
            && (forall o | o in db.orders ::
                  db'.orders[o] == if IsStuck(settings, db, o) then ReclaimedRow(settings, db.orders[o], db.clock)
                                   else db.orders[o])
  {
    TickKeeps(settings, db, db.clock + 1);
    ReclaimEachKeeps(settings, db, orderIds);
    forall o ensures EventsOf(StuckSweep(settings, db, orderIds).audit, o) == EventsOf(db.audit, o)
             ensures DeadLetters(StuckSweep(settings, db, orderIds).reviews, o) ==
                     DeadLetters(db.reviews, o) + if DiesIn(settings, db, orderIds, o) then 1 else 0 {
      ReclaimEachRecords(settings, db, orderIds, o);
    }
  }
}
