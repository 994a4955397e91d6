/** What every reachable state of the tables satisfies, one order at a time. */
module StoreInvariant {
  import opened Models
  import opened Tables
  import opened Recheck
  import opened LogFacts
  import AuditIds
  import ViewCodec
  import ViewFold

  /** A row's own fields agree with its status. */
  predicate RowOk(settings: Settings, row: Row) {
    && (row.claimToken.Some? <==> row.status == Processing)
    && (row.status in {PendingRecheck, Processing} ==>
          row.recheckAt.Some? && row.retryCount < settings.maxRetries)
    && (row.status in {ResolvedAutocorrected, ResolvedNaturally, Disputed} ==> row.recheckAt.None?)
    && (row.status == DeadLetter ==> row.retryCount == settings.maxRetries)
  }

  /** Every claim granted is settled by exactly one row of the log, or is the one held. */
  predicate ClaimsAccounted(settings: Settings, row: Option<Row>, claims: nat, systemRows: nat) {
    match row
    case None => claims == 0 && systemRows == 0
    case Some(r) =>
      && claims == systemRows + (if r.status == Processing then 1 else 0)
      && r.retryCount <= systemRows <= r.retryCount + 1
      && systemRows <= settings.maxRetries
      && (r.status in {PendingRecheck, Processing, DeadLetter} ==> systemRows == r.retryCount)
      && (r.status == ResolvedAutocorrected ==> systemRows == r.retryCount + 1)
  }

  predicate DeadLettersOk(row: Option<Row>, deadLetters: nat) {
    && deadLetters <= 1
    && (deadLetters == 1 ==> row.Some? && row.value.status in {DeadLetter, Disputed})
    && (row.Some? && row.value.status == DeadLetter ==> deadLetters == 1)
  }

  /** The stored view is the replay of the log, and a pointer only exists beside a view. */
  predicate ViewsOk(db: Db, orderId: string) {
    && (orderId in db.views <==> EventsOf(db.audit, orderId) != [])
    && (orderId in db.views ==>
          db.views[orderId] == ViewCodec.Serialize(ViewAt(db.audit, orderId)) && orderId != "")
    && (orderId in db.orders ==> orderId in db.views)
  }

  predicate Live(db: Db, orderId: string, token: nat) {
    orderId in db.orders && db.orders[orderId].claimToken == Some(token)
  }

  predicate Granted(db: Db, orderId: string, token: nat) {
    token < |db.claims| && db.claims[token].orderId == orderId
  }

  /** The latest claim granted on the order. */
  predicate LastClaim(db: Db, orderId: string, token: nat) {
    Granted(db, orderId, token) &&
    forall t | token < t < |db.claims| :: db.claims[t].orderId != orderId
  }

  predicate Settled(db: Db, orderId: string, token: nat) {
    Granted(db, orderId, token) && !Live(db, orderId, token)
  }

  /** Ids of system rows are spent only by settled claims and by past reclaims. */
  ghost predicate IdsOk(db: Db, orderId: string) {
    && (forall t: nat :: Logged(db.audit, AuditIds.RecheckId(orderId, t)) ==> Settled(db, orderId, t))
    && (forall t: nat :: Filed(db.reviews, Some(AuditIds.RecheckId(orderId, t))) ==> Settled(db, orderId, t))
    && (forall n: nat :: Logged(db.audit, AuditIds.SweepId(orderId, n)) ==>
                         orderId in db.orders && n <= db.orders[orderId].retryCount)
  }

  /** `n` is a point of the log no earlier than the grant of the order's last claim,
      `token`, at which the accepted events justify a correction. */
  ghost predicate Justified(db: Db, orderId: string, token: nat, n: nat) {
    && LastClaim(db, orderId, token)
    && db.claims[token].logLength <= n <= |db.audit|
    && ViewFold.SafeEvidence(AcceptedIn(db.audit[..n], orderId))
  }

  ghost predicate ProvenanceOk(db: Db, orderId: string) {
    orderId in db.orders && db.orders[orderId].status == ResolvedAutocorrected ==>
      exists token, n :: Justified(db, orderId, token, n)
  }

  /** A live token is the one the order's last claim was given. */
  ghost predicate TokensOk(db: Db, orderId: string) {
    forall t: nat :: Live(db, orderId, t) ==> LastClaim(db, orderId, t)
  }

  ghost predicate OrderOk(settings: Settings, db: Db, orderId: string) {
    var row := RowOf(db, orderId);
    && (row.Some? ==> RowOk(settings, row.value))
    && TokensOk(db, orderId)
    && ClaimsAccounted(settings, row, ClaimsOf(db.claims, orderId), SystemRows(db.audit, orderId))
    && DeadLettersOk(row, DeadLetters(db.reviews, orderId))
    && ViewsOk(db, orderId)
    && IdsOk(db, orderId)
    && ProvenanceOk(db, orderId)
  }

  /** An event's row carries it; a system row carries none and records the end of a claim. */
  predicate AuditRowOk(row: AuditRow) {
    && (row.entry.source == System <==> row.payload.None?)
    && (row.entry.source == System ==>
          row.entry.oldState == Some(Processing) && row.entry.newState.Some? &&
          row.entry.newState != Some(Processing))
    && (row.payload.Some? ==>
          && EventOk(row.payload.value)
          && row.payload.value.eventId == row.entry.eventId
          && row.payload.value.orderId == row.entry.orderId)
  }

  /** The log: well-formed rows, unique ids. */
  predicate AuditOk(audit: seq<AuditRow>) {
    && (forall i, j | 0 <= i < j < |audit| :: audit[i].entry.eventId != audit[j].entry.eventId)
    && (forall i | 0 <= i < |audit| :: AuditRowOk(audit[i]))
  }

  ghost predicate StoreOk(settings: Settings, db: Db) {
    && settings.maxRetries >= 1
    && AuditOk(db.audit)
    && (forall o: string :: OrderOk(settings, db, o))
    && (forall o | o in db.orders :: db.orders[o].updatedAt < db.clock)
    && (forall t | 0 <= t < |db.claims| :: db.claims[t].logLength <= |db.audit|)
  }

  lemma StoreOrder(settings: Settings, db: Db, orderId: string)
    requires StoreOk(settings, db)
    ensures OrderOk(settings, db, orderId)
  {
    hide OrderOk, AuditOk;
  }

  // ------------------------------------------------------------------
  // A change to one order leaves every other order's facts alone
  // ------------------------------------------------------------------

  /** An id a row about `orderId` may carry. */
  ghost predicate OwnId(orderId: string, id: string) {
    !AuditIds.IsSystemId(id) ||
    exists n: nat :: id == AuditIds.RecheckId(orderId, n) || id == AuditIds.SweepId(orderId, n)
  }

  ghost predicate Appended<T>(s: seq<T>, s': seq<T>) {
    s' == s || (|s'| == |s| + 1 && s' == s + [s'[|s|]])
  }

  /** `db'` differs from `db` only in what concerns `p`. */
  ghost predicate TouchesOnly(db: Db, db': Db, p: string) {
    && (forall o | o != p :: RowOf(db', o) == RowOf(db, o) &&
                             (o in db'.views <==> o in db.views) &&
                             (o in db.views ==> db'.views[o] == db.views[o]))
    && Appended(db.audit, db'.audit)
    && (db'.audit != db.audit ==>
          var row := db'.audit[|db.audit|];
          row.entry.orderId == p && OwnId(p, row.entry.eventId) &&
          (row.payload.Some? ==> row.payload.value.orderId == p))
    && Appended(db.claims, db'.claims)
    && (db'.claims != db.claims ==> db'.claims[|db.claims|].orderId == p)
    && Appended(db.reviews, db'.reviews)
    && (db'.reviews != db.reviews ==>
          var item := db'.reviews[|db.reviews|];
          && (item.reason == DeadLetterReview ==> item.orderId == Some(p))
          && (item.eventId.Some? ==> OwnId(p, item.eventId.value)))
  }

  lemma OwnIdIsNotAnothers(p: string, id: string, o: string, n: nat)
    requires OwnId(p, id) && o != p
    ensures id != AuditIds.RecheckId(o, n) && id != AuditIds.SweepId(o, n)
  {
    AuditIds.SystemIds(o, n);
    if AuditIds.IsSystemId(id) {
      var m: nat :| id == AuditIds.RecheckId(p, m) || id == AuditIds.SweepId(p, m);
      AuditIds.IdsAreInjective(p, m, o, n);
      AuditIds.KindsDiffer(p, m, o, n);
      AuditIds.KindsDiffer(o, n, p, m);
    }
  }

  lemma AppendFacts(db: Db, db': Db, p: string, o: string)
    requires TouchesOnly(db, db', p) && o != p
    ensures EventsOf(db'.audit, o) == EventsOf(db.audit, o)
    ensures SystemRows(db'.audit, o) == SystemRows(db.audit, o)
    ensures ClaimsOf(db'.claims, o) == ClaimsOf(db.claims, o)
    ensures DeadLetters(db'.reviews, o) == DeadLetters(db.reviews, o)
    ensures forall n: nat :: Logged(db'.audit, AuditIds.RecheckId(o, n)) ==> Logged(db.audit, AuditIds.RecheckId(o, n))
    ensures forall n: nat :: Logged(db'.audit, AuditIds.SweepId(o, n)) ==> Logged(db.audit, AuditIds.SweepId(o, n))
    ensures forall n: nat :: Filed(db'.reviews, Some(AuditIds.RecheckId(o, n))) ==>
                             Filed(db.reviews, Some(AuditIds.RecheckId(o, n)))
  {
    if db'.audit != db.audit {
      var row := db'.audit[|db.audit|];
      AuditAppend(db.audit, row, o);
      forall n: nat ensures row.entry.eventId != AuditIds.RecheckId(o, n) &&
                            row.entry.eventId != AuditIds.SweepId(o, n) {
        OwnIdIsNotAnothers(p, row.entry.eventId, o, n);
      }
    }
    if db'.claims != db.claims {
      ClaimsAppend(db.claims, db'.claims[|db.claims|], o);
    }
    if db'.reviews != db.reviews {
      var item := db'.reviews[|db.reviews|];
      ReviewsAppend(db.reviews, item, o);
      forall n: nat ensures item.eventId != Some(AuditIds.RecheckId(o, n)) {
        if item.eventId.Some? { OwnIdIsNotAnothers(p, item.eventId.value, o, n); }
      }
    }
  }

  /** A justification outlives anything that grants the order no further claim. */
  lemma JustifiedPersists(db: Db, db': Db, p: string, o: string, token: nat, n: nat)
    requires TouchesOnly(db, db', p)
    requires o == p ==> db'.claims == db.claims
    requires Justified(db, o, token, n)
    ensures Justified(db', o, token, n)
  {
    assert db'.audit[..n] == db.audit[..n];
  }

  lemma OthersTokens(db: Db, db': Db, p: string, o: string)
    requires TouchesOnly(db, db', p) && o != p
    ensures TokensOk(db, o) ==> TokensOk(db', o)
    ensures forall t: nat :: Settled(db, o, t) ==> Settled(db', o, t)
  {
    assert RowOf(db', o) == RowOf(db, o);
    forall t: nat ensures Live(db', o, t) == Live(db, o, t)
                  ensures Granted(db, o, t) ==> Granted(db', o, t)
                  ensures LastClaim(db, o, t) ==> LastClaim(db', o, t) {
    }
  }

  lemma OthersIds(db: Db, db': Db, p: string, o: string)
    requires TouchesOnly(db, db', p) && o != p
    requires IdsOk(db, o)
    ensures IdsOk(db', o)
  {
    assert RowOf(db', o) == RowOf(db, o);
    AppendFacts(db, db', p, o);
    OthersTokens(db, db', p, o);
    hide TouchesOnly, Settled, TokensOk;
  }

  lemma OthersProvenance(db: Db, db': Db, p: string, o: string)
    requires TouchesOnly(db, db', p) && o != p
    requires ProvenanceOk(db, o)
    ensures ProvenanceOk(db', o)
  {
    assert RowOf(db', o) == RowOf(db, o);
    if o in db'.orders && db'.orders[o].status == ResolvedAutocorrected {
      var token, n :| Justified(db, o, token, n);
      JustifiedPersists(db, db', p, o, token, n);
    }
  }

  lemma OthersViews(db: Db, db': Db, p: string, o: string)
    requires TouchesOnly(db, db', p) && o != p
    requires ViewsOk(db, o)
    ensures ViewsOk(db', o)
  {
    assert RowOf(db', o) == RowOf(db, o);
    AppendFacts(db, db', p, o);
  }

  lemma OthersUnaffected(settings: Settings, db: Db, db': Db, p: string, o: string)
    requires TouchesOnly(db, db', p) && o != p
    requires OrderOk(settings, db, o)
    ensures OrderOk(settings, db', o)
  {
    hide RowOk, TokensOk, ClaimsAccounted, DeadLettersOk, ViewsOk, IdsOk, ProvenanceOk;
    assert RowOf(db', o) == RowOf(db, o);
    AppendFacts(db, db', p, o);
    OthersTokens(db, db', p, o);
    OthersIds(db, db', p, o);
    OthersProvenance(db, db', p, o);
    OthersViews(db, db', p, o);
  }
}
