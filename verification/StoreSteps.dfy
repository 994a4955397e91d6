/** Every transaction keeps the store invariant. */
module StoreSteps {
  import opened Models
  import opened Tables
  import opened Recheck
  import opened LogFacts
  import opened StoreInvariant
  import opened Sweep
  import AuditIds
  import Compare
  import Correlate
  import ViewCodec
  import ViewFold

  /** Reading back an order's view gives the replay of the log, if there is any. */
  lemma ReadsReplay(settings: Settings, db: Db, orderId: string)
    requires OrderOk(settings, db, orderId)
    ensures ViewOf(db, orderId) ==
            if EventsOf(db.audit, orderId) == [] then None else Some(ViewAt(db.audit, orderId))
  {
    var view := ViewAt(db.audit, orderId);
    ViewFold.FoldKeepsOrderId(EmptyView(orderId), EventsOf(db.audit, orderId));
    ViewCodec.RoundTrip(view, orderId);
  }

  /** A change that concerns one order, stamps what it writes, and logs only what is well
      formed and new. */
  ghost predicate StepFits(db: Db, db': Db, p: string) {
    && TouchesOnly(db, db', p)
    && db.clock <= db'.clock
    && (p in db'.orders ==> db'.orders[p].updatedAt < db'.clock)
    && (db'.audit != db.audit ==>
          !Logged(db.audit, db'.audit[|db.audit|].entry.eventId) && AuditRowOk(db'.audit[|db.audit|]))
    && (db'.claims != db.claims ==> db'.claims[|db.claims|].logLength <= |db'.audit|)
  }

  /** Such a step keeps the invariant if it keeps its own order's part of it. */
  lemma StepKeeps(settings: Settings, db: Db, db': Db, p: string)
    requires StoreOk(settings, db)
    requires StepFits(db, db', p)
    requires OrderOk(settings, db', p)
    ensures StoreOk(settings, db')
  {
    hide OrderOk, AuditRowOk;
    forall o: string ensures OrderOk(settings, db', o) {
      if o != p { OthersUnaffected(settings, db, db', p, o); }
    }
    forall o | o in db'.orders ensures db'.orders[o].updatedAt < db'.clock {
      if o != p { assert RowOf(db', o) == RowOf(db, o); }
    }
    if db'.audit != db.audit {
      AuditOkAppend(db.audit, db'.audit[|db.audit|]);
    }
  }

  lemma AuditOkAppend(audit: seq<AuditRow>, row: AuditRow)
    requires AuditOk(audit) && AuditRowOk(row) && !Logged(audit, row.entry.eventId)
    ensures AuditOk(audit + [row])
  {
    hide AuditRowOk;
  }

  // ------------------------------------------------------------------
  // Claim
  // ------------------------------------------------------------------

  lemma ClaimKeeps(settings: Settings, db: Db, o: string)
    requires StoreOk(settings, db)
    ensures StoreOk(settings, ClaimRecheck(db, o).0)
    ensures var (db', token) := ClaimRecheck(db, o);
            && (token.None? ==> db' == db)
            && (token.Some? ==> HoldsClaim(db', o, token.value) && Granted(db', o, token.value) &&
                                token.value == |db.claims|)
  {
    hide OrderOk;
    var (db', token) := ClaimRecheck(db, o);
    if token.Some? {
      ClaimedOrderOk(settings, db, o);
      StepKeeps(settings, db, db', o);
    }
  }

  lemma ClaimedOrderOk(settings: Settings, db: Db, o: string)
    requires StoreOk(settings, db)
    requires ClaimRecheck(db, o).1.Some?
    ensures OrderOk(settings, ClaimRecheck(db, o).0, o)
    ensures StepFits(db, ClaimRecheck(db, o).0, o)
  {
    StoreOrder(settings, db, o);
    ClaimFits(db, o);
    hide StoreOk, IdsOk, TokensOk, ViewsOk, StepFits;
    var db' := ClaimRecheck(db, o).0;
    ClaimsAppend(db.claims, db'.claims[|db.claims|], o);
    ClaimedIdsOk(settings, db, o);
    ClaimedViewsOk(db, o);
  }

  lemma ClaimFits(db: Db, o: string)
    requires ClaimRecheck(db, o).1.Some?
    ensures StepFits(db, ClaimRecheck(db, o).0, o)
  {
  }

  lemma ClaimedViewsOk(db: Db, o: string)
    requires ViewsOk(db, o)
    requires ClaimRecheck(db, o).1.Some?
    ensures ViewsOk(ClaimRecheck(db, o).0, o)
  {
  }

  lemma ClaimedIdsOk(settings: Settings, db: Db, o: string)
    requires OrderOk(settings, db, o)
    requires ClaimRecheck(db, o).1.Some?
    ensures IdsOk(ClaimRecheck(db, o).0, o)
    ensures TokensOk(ClaimRecheck(db, o).0, o)
  {
    var db' := ClaimRecheck(db, o).0;
    forall t: nat ensures Settled(db, o, t) ==> Settled(db', o, t) {
    }
  }

  // ------------------------------------------------------------------
  // Finish
  // ------------------------------------------------------------------

  /** The decision was made on the replay of the log as it stood at length `n`. */
  predicate MadeAt(settings: Settings, db: Db, o: string, token: nat, decision: Decision, n: nat, now: int) {
    && Granted(db, o, token)
    && db.claims[token].logLength <= n <= |db.audit|
    && decision == RecheckDecision(o, token, Some(ViewAt(db.audit[..n], o)), now, settings.recheckDelay)
  }

  /** What every recheck decision for a claim looks like. */
  predicate RecheckShape(d: Decision, o: string, token: nat) {
    && d.audit.eventId == AuditIds.RecheckId(o, token)
    && d.audit.orderId == o
    && d.audit.source == System
    && d.audit.oldState == Some(Processing)
    && (IsTerminalAction(d.action) ==> d.audit.newState == d.newStatus)
    && d.action in {ApplyAutocorrect, MarkResolvedNaturally, RouteDisputed, ArmRecheck, FlagForReview}
    && (d.action == ApplyAutocorrect ==> d.newStatus == Some(ResolvedAutocorrected))
    && (d.action == MarkResolvedNaturally ==> d.newStatus == Some(ResolvedNaturally))
    && (d.action == RouteDisputed ==> d.newStatus == Some(Disputed))
  }

  lemma RecheckFacts(settings: Settings, o: string, token: nat, view: OrderView, now: int)
    ensures var d := RecheckDecision(o, token, Some(view), now, settings.recheckDelay);
            && RecheckShape(d, o, token)
            && (d.action == ArmRecheck ==> d.recheckAt == Some(now + settings.recheckDelay))
            && (d.action == FlagForReview ==> d.recheckAt.None?)
            && (d.action == ApplyAutocorrect ==> Compare.Assess(view) == SafeDrift && view.merchantStatus.Some?)
  {
    var e := Synthetic(o, AuditIds.RecheckId(o, token), now);
    var projected := Correlate.Project(view, e);
    assert projected == view.(seenEventIds := view.seenEventIds + {e.eventId});
    assert Compare.Assess(projected) == Compare.Assess(view);
  }

  /** The row a finished claim leaves: terminal, dead-lettered, or armed again. */
  predicate FinishedRow(settings: Settings, row: Row, row': Row, action: Action) {
    && row'.claimToken.None?
    && if IsTerminalAction(action) then
         && row'.retryCount == row.retryCount && row'.recheckAt.None?
         && row'.status == (match action
                            case ApplyAutocorrect => ResolvedAutocorrected
                            case MarkResolvedNaturally => ResolvedNaturally
                            case _ => Disputed)
       else
         && row'.retryCount == row.retryCount + 1
         && if row.retryCount + 1 >= settings.maxRetries then row'.status == DeadLetter
            else row'.status == PendingRecheck && row'.recheckAt.Some?
  }

  /** Finishing a held claim writes one row of each kind, about that order. */
  predicate FinishEffect(settings: Settings, db: Db, db': Db, o: string, token: nat, action: Action) {
    && HoldsClaim(db, o, token)
    && o in db'.orders
    && db'.orders == db.orders[o := db'.orders[o]]
    && FinishedRow(settings, db.orders[o], db'.orders[o], action)
    && db'.orders[o].updatedAt == db.clock
    && db'.clock == db.clock + 1
    && db'.views == db.views
    && db'.claims == db.claims
    && |db'.audit| == |db.audit| + 1
    && db'.audit == db.audit + [db'.audit[|db.audit|]]
    && (var row := db'.audit[|db.audit|];
        row.entry.eventId == AuditIds.RecheckId(o, token) && row.entry.orderId == o &&
        row.entry.source == System && row.payload.None? &&
        row.entry.oldState == Some(Processing) && row.entry.newState == Some(db'.orders[o].status))
    && db'.reviews ==
         if db'.orders[o].status == DeadLetter
         then db.reviews + [ReviewItem(Some(o), DeadLetterReview, Some(AuditIds.RecheckId(o, token)), None)]
         else db.reviews
  }

  lemma FinishHasEffect(settings: Settings, db: Db, o: string, token: nat, decision: Decision, wall: int)
    requires HoldsClaim(db, o, token)
    requires RecheckShape(decision, o, token)
    requires !Logged(db.audit, AuditIds.RecheckId(o, token))
    requires !Filed(db.reviews, Some(AuditIds.RecheckId(o, token)))
    ensures FinishEffect(settings, db, FinishClaim(settings, db, o, token, decision, wall).0, o, token,
                         decision.action)
  {
    hide AuditIds.RecheckId, AuditIds.SweepId;
  }

  /** The claim being held, its audit id is unspent, so its log row is written. */
  lemma HeldIdsAreFresh(settings: Settings, db: Db, o: string, token: nat)
    requires OrderOk(settings, db, o)
    requires HoldsClaim(db, o, token)
    ensures !Logged(db.audit, AuditIds.RecheckId(o, token))
    ensures !Filed(db.reviews, Some(AuditIds.RecheckId(o, token)))
  {
    assert Live(db, o, token);
  }

  lemma FinishFits(settings: Settings, db: Db, db': Db, o: string, token: nat, action: Action)
    requires FinishEffect(settings, db, db', o, token, action)
    requires !Logged(db.audit, AuditIds.RecheckId(o, token))
    ensures StepFits(db, db', o)
  {
    hide AuditIds.RecheckId;
    assert OwnId(o, AuditIds.RecheckId(o, token));
  }

  /** The books still balance after a claim is settled by one system row. */
  lemma FinishedRowOk(settings: Settings, row: Row, row': Row, action: Action, claims: nat, systemRows: nat,
                      deadLetters: nat)
    requires row.status == Processing && FinishedRow(settings, row, row', action)
    requires RowOk(settings, row)
    requires ClaimsAccounted(settings, Some(row), claims, systemRows)
    requires DeadLettersOk(Some(row), deadLetters)
    ensures RowOk(settings, row')
    ensures ClaimsAccounted(settings, Some(row'), claims, systemRows + 1)
    ensures DeadLettersOk(Some(row'), deadLetters + if row'.status == DeadLetter then 1 else 0)
  {
  }

  /** A finish settles its own token and unsettles none. */
  lemma FinishedTokens(settings: Settings, db: Db, db': Db, o: string, token: nat, action: Action, t: nat)
    requires Granted(db, o, token)
    requires FinishEffect(settings, db, db', o, token, action)
    requires Settled(db, o, t) || t == token
    ensures Settled(db', o, t)
  {
    hide AuditIds.RecheckId;
  }

  /** The id a finish spends in the log is that claim's and no other's. */
  lemma FinishedAuditIds(settings: Settings, db: Db, db': Db, o: string, token: nat, action: Action, t: nat)
    requires FinishEffect(settings, db, db', o, token, action)
    ensures Logged(db'.audit, AuditIds.RecheckId(o, t)) ==> Logged(db.audit, AuditIds.RecheckId(o, t)) || t == token
    ensures Logged(db'.audit, AuditIds.SweepId(o, t)) ==> Logged(db.audit, AuditIds.SweepId(o, t))
  {
    AuditIds.IdsAreInjective(o, t, o, token);
    AuditIds.KindsDiffer(o, token, o, t);
    AuditAppend(db.audit, db'.audit[|db.audit|], o);
    hide AuditIds.RecheckId, AuditIds.SweepId, Logged, FinishedRow;
  }

  /** And the same in the review queue. */
  lemma FinishedReviewIds(settings: Settings, db: Db, db': Db, o: string, token: nat, action: Action, t: nat)
    requires FinishEffect(settings, db, db', o, token, action)
    ensures Filed(db'.reviews, Some(AuditIds.RecheckId(o, t))) ==>
              Filed(db.reviews, Some(AuditIds.RecheckId(o, t))) || t == token
  {
    AuditIds.IdsAreInjective(o, t, o, token);
    if db'.reviews != db.reviews {
      ReviewsAppend(db.reviews, db'.reviews[|db.reviews|], o);
    }
    hide AuditIds.RecheckId, Filed, FinishedRow;
  }

  lemma FinishedIdsOk(settings: Settings, db: Db, db': Db, o: string, token: nat, action: Action)
    requires OrderOk(settings, db, o)
    requires FinishEffect(settings, db, db', o, token, action)
    ensures IdsOk(db', o)
  {
    assert Granted(db, o, token) by { assert Live(db, o, token); }
    assert IdsOk(db, o) && db.orders[o].retryCount <= db'.orders[o].retryCount;
    hide OrderOk, AuditIds.RecheckId, AuditIds.SweepId, Logged, Filed, Settled, Granted, FinishEffect;
    forall t: nat
      ensures Logged(db'.audit, AuditIds.RecheckId(o, t)) ==> Settled(db', o, t)
      ensures Filed(db'.reviews, Some(AuditIds.RecheckId(o, t))) ==> Settled(db', o, t)
      ensures Logged(db'.audit, AuditIds.SweepId(o, t)) ==> o in db'.orders && t <= db'.orders[o].retryCount
    {
      FinishedAuditIds(settings, db, db', o, token, action, t);
      FinishedReviewIds(settings, db, db', o, token, action, t);
      if Settled(db, o, t) || t == token {
        FinishedTokens(settings, db, db', o, token, action, t);
      }
    }
  }

  lemma FinishedOrderOk(settings: Settings, db: Db, db': Db, o: string, token: nat, decision: Decision,
                        n: nat, now: int)
    requires OrderOk(settings, db, o)
    requires MadeAt(settings, db, o, token, decision, n, now)
    requires FinishEffect(settings, db, db', o, token, decision.action)
    ensures OrderOk(settings, db', o)
  {
    hide IdsOk, TokensOk, ProvenanceOk, ViewsOk, RowOk, ClaimsAccounted, DeadLettersOk, FinishedRow, MadeAt,
         FinishEffect, ClaimsOf, SystemRows, DeadLetters, AuditIds.RecheckId;
    FinishedCounts(settings, db, db', o, token, decision.action);
    FinishedRowOk(settings, db.orders[o], db'.orders[o], decision.action, ClaimsOf(db.claims, o),
                  SystemRows(db.audit, o), DeadLetters(db.reviews, o));
    FinishedIdsOk(settings, db, db', o, token, decision.action);
    FinishedViewsOk(settings, db, db', o, token, decision.action);
    FinishedProvenance(settings, db, db', o, token, decision, n, now);
  }

  /** What a finish adds to the books. */
  lemma FinishedCounts(settings: Settings, db: Db, db': Db, o: string, token: nat, action: Action)
    requires FinishEffect(settings, db, db', o, token, action)
    ensures o in db.orders && o in db'.orders && db.orders[o].status == Processing
    ensures FinishedRow(settings, db.orders[o], db'.orders[o], action)
    ensures ClaimsOf(db'.claims, o) == ClaimsOf(db.claims, o)
    ensures SystemRows(db'.audit, o) == SystemRows(db.audit, o) + 1
    ensures DeadLetters(db'.reviews, o) ==
            DeadLetters(db.reviews, o) + if db'.orders[o].status == DeadLetter then 1 else 0
  {
    AuditAppend(db.audit, db'.audit[|db.audit|], o);
    if db'.reviews != db.reviews {
      ReviewsAppend(db.reviews, db'.reviews[|db.reviews|], o);
    }
    hide FinishedRow, AuditIds.RecheckId, ClaimsOf, SystemRows, DeadLetters;
  }

  lemma FinishedViewsOk(settings: Settings, db: Db, db': Db, o: string, token: nat, action: Action)
    requires ViewsOk(db, o)
    requires FinishEffect(settings, db, db', o, token, action)
    ensures ViewsOk(db', o)
    ensures TokensOk(db', o)
  {
    AuditAppend(db.audit, db'.audit[|db.audit|], o);
  }

  lemma FinishedProvenance(settings: Settings, db: Db, db': Db, o: string, token: nat, decision: Decision,
                           n: nat, now: int)
    requires OrderOk(settings, db, o)
    requires MadeAt(settings, db, o, token, decision, n, now)
    requires FinishEffect(settings, db, db', o, token, decision.action)
    ensures ProvenanceOk(db', o)
  {
    if db'.orders[o].status == ResolvedAutocorrected {
      FinishJustified(settings, db, db', o, token, decision, n, now);
    }
  }

  lemma FinishJustified(settings: Settings, db: Db, db': Db, o: string, token: nat, decision: Decision,
                        n: nat, now: int)
    requires OrderOk(settings, db, o)
    requires MadeAt(settings, db, o, token, decision, n, now)
    requires FinishEffect(settings, db, db', o, token, decision.action)
    requires db'.orders[o].status == ResolvedAutocorrected
    ensures Justified(db', o, token, n)
  {
    assert LastClaim(db, o, token) by { assert Live(db, o, token); }
    hide OrderOk, MadeAt;
    DecisionJustified(settings, db, o, token, decision, n, now);
    hide Justified;
    JustifiedLater(db, db', o, token, n);
  }

  lemma JustifiedLater(db: Db, db': Db, o: string, token: nat, n: nat)
    requires Justified(db, o, token, n)
    requires db'.claims == db.claims && db.audit <= db'.audit
    ensures Justified(db', o, token, n)
  {
    assert db'.audit[..n] == db.audit[..n];
  }

  /** A correction is decided only on safe evidence. */
  lemma DecisionJustified(settings: Settings, db: Db, o: string, token: nat, decision: Decision, n: nat, now: int)
    requires LastClaim(db, o, token)
    requires MadeAt(settings, db, o, token, decision, n, now)
    requires decision.action == ApplyAutocorrect
    ensures Justified(db, o, token, n)
  {
    RecheckFacts(settings, o, token, ViewAt(db.audit[..n], o), now);
    ViewFold.SafeRecheckIff(o, EventsOf(db.audit[..n], o));
    hide RecheckDecision, Compare.Assess, ViewFold.SafeEvidence;
  }

  /** A finish under a held claim settles it with exactly one row of the log; one without
      its claim changes nothing. */
  lemma FinishKeeps(settings: Settings, db: Db, o: string, token: nat, decision: Decision, wall: int,
                    n: nat, now: int)
    requires StoreOk(settings, db)
    requires MadeAt(settings, db, o, token, decision, n, now)
    ensures var db' := FinishClaim(settings, db, o, token, decision, wall).0;
            && StoreOk(settings, db')
            && (!HoldsClaim(db, o, token) ==> db' == db)
            && (HoldsClaim(db, o, token) ==> FinishEffect(settings, db, db', o, token, decision.action))
  {
    if HoldsClaim(db, o, token) {
      hide OrderOk;
      var db' := FinishClaim(settings, db, o, token, decision, wall).0;
      StoreOrder(settings, db, o);
      RecheckFacts(settings, o, token, ViewAt(db.audit[..n], o), now);
      HeldIdsAreFresh(settings, db, o, token);
      FinishHasEffect(settings, db, o, token, decision, wall);
      FinishFits(settings, db, db', o, token, decision.action);
      FinishedOrderOk(settings, db, db', o, token, decision, n, now);
      StepKeeps(settings, db, db', o);
    }
  }
}
