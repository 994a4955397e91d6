/** What holds of every run of the protocol. */
module RunTheorems {
  import opened Models
  import opened Tables
  import opened Recheck
  import opened Sweep
  import opened LogFacts
  import opened StoreInvariant
  import opened StoreSteps
  import opened ConsumerSteps
  import opened SweepSteps
  import opened Protocol
  import opened ProtocolInvariant
  import ViewFold

  function Reached(settings: Settings, steps: seq<Step>): Db {
    Run(settings, INITIAL, steps).db
  }

  lemma ReachedOk(settings: Settings, steps: seq<Step>)
    requires settings.maxRetries >= 1
    ensures Inv(settings, Run(settings, INITIAL, steps))
  {
    InitialInv(settings);
    RunKeeps(settings, INITIAL, steps);
  }

  // ------------------------------------------------------------------
  // Single states
  // ------------------------------------------------------------------

  /** The token is set iff PROCESSING; an armed or claimed recheck always carries a
      deadline, so the sweep can see it; a settled row carries none; the budget is spent
      exactly at DEAD_LETTER. */
  lemma RowsWellFormed(settings: Settings, steps: seq<Step>, o: string)
    requires settings.maxRetries >= 1 && o in Reached(settings, steps).orders
    ensures var row := Reached(settings, steps).orders[o];
            && (row.claimToken.Some? <==> row.status == Processing)
            && (row.status in {PendingRecheck, Processing} ==> row.recheckAt.Some?)
            && (row.status in {ResolvedAutocorrected, ResolvedNaturally, Disputed} ==> row.recheckAt.None?)
            && (row.status in {PendingRecheck, Processing} ==> row.retryCount < settings.maxRetries)
            && (row.status == DeadLetter ==> row.retryCount == settings.maxRetries)
  {
    ReachedOk(settings, steps);
    assert OrderOk(settings, Reached(settings, steps), o);
  }

  /** Claims ever granted = recheck rows + reclaim rows + the one being held; and never
      more than the retry budget, however claims, crashes and reclaims interleave. */
  lemma ClaimAccounting(settings: Settings, steps: seq<Step>, o: string)
    requires settings.maxRetries >= 1
    ensures var db := Reached(settings, steps);
            && ClaimsOf(db.claims, o) ==
               SystemRows(db.audit, o) +
               (if o in db.orders && db.orders[o].status == Processing then 1 else 0)
            && ClaimsOf(db.claims, o) <= settings.maxRetries
  {
    ReachedOk(settings, steps);
    assert OrderOk(settings, Reached(settings, steps), o);
  }

  /** The log never repeats an id, every event it holds is fit for the store and stands under
      its own id and order, and every row the worker wrote about its own doing records a
      transition out of PROCESSING. */
  lemma LogIsWellFormed(settings: Settings, steps: seq<Step>, i: nat, j: nat)
    requires settings.maxRetries >= 1
    requires i < j < |Reached(settings, steps).audit|
    ensures var log := Reached(settings, steps).audit;
            && log[i].entry.eventId != log[j].entry.eventId
            && (log[i].payload.Some? ==>
                  var e := log[i].payload.value;
                  EventOk(e) && e.eventId == log[i].entry.eventId && e.orderId == log[i].entry.orderId)
            && (log[i].payload.None? ==>
                  log[i].entry.source == System && log[i].entry.oldState == Some(Processing) &&
                  log[i].entry.newState.Some? && log[i].entry.newState != Some(Processing))
  {
    ReachedOk(settings, steps);
    hide OrderOk, Run;
  }

  /** The stored view, read back, is the replay of the log. */
  lemma StoredViewIsReplay(settings: Settings, steps: seq<Step>, o: string)
    requires settings.maxRetries >= 1
    ensures var db := Reached(settings, steps);
            && ViewOf(db, o) == LoggedView(db.audit, o)
            && (o in db.orders ==> ViewOf(db, o).Some?)
  {
    ReachedOk(settings, steps);
    assert OrderOk(settings, Reached(settings, steps), o);
    ReadsReplay(settings, Reached(settings, steps), o);
  }

  /** A correction is recommended only where the log, read after the order's last claim,
      holds an accepted capture as the gateway's last word, no accepted reversal, and a
      merchant record that says pending or failed. */
  lemma CorrectionIsJustified(settings: Settings, steps: seq<Step>, o: string)
    requires settings.maxRetries >= 1
    requires o in Reached(settings, steps).orders
    requires Reached(settings, steps).orders[o].status == ResolvedAutocorrected
    ensures var db := Reached(settings, steps);
            exists claim, n ::
              && 0 <= claim < |db.claims| && db.claims[claim].orderId == o
              && (forall c | claim < c < |db.claims| :: db.claims[c].orderId != o)
              && db.claims[claim].logLength <= n <= |db.audit|
              && ViewFold.SafeEvidence(AcceptedIn(db.audit[..n], o))
  {
    ReachedOk(settings, steps);
    var db := Reached(settings, steps);
    assert OrderOk(settings, db, o);
    var claim, n :| Justified(db, o, claim, n);
  }

  // ------------------------------------------------------------------
  // Steps
  // ------------------------------------------------------------------

  /** Every way a row can change in one step. */
  predicate RowMove(settings: Settings, row: Option<Row>, row': Option<Row>, token: nat) {
    || PointerMove(row, row')
    || (row.Some? && row'.Some? &&
        (|| ClaimMove(row.value, row'.value, token)
         || SettleMove(settings, row.value, row'.value)))
  }

  predicate ClaimMove(row: Row, row': Row, token: nat) {
    row.status == PendingRecheck && row'.status == Processing && row'.claimToken == Some(token) &&
    row'.retryCount == row.retryCount && row'.recheckAt == row.recheckAt
  }

  /** A claim ends: finished, re-armed, reclaimed, or dead-lettered. */
  predicate SettleMove(settings: Settings, row: Row, row': Row) {
    row.status == Processing && row'.status != Processing && row'.claimToken.None? &&
    if row'.status in {PendingRecheck, DeadLetter} then
      row'.retryCount == row.retryCount + 1 &&
      (row'.status == DeadLetter <==> row'.retryCount >= settings.maxRetries)
    else
      row'.retryCount == row.retryCount
  }

  lemma FinishMovesRow(settings: Settings, db: Db, db': Db, o: string, token: nat, action: Action)
    requires OrderOk(settings, db, o)
    requires FinishEffect(settings, db, db', o, token, action)
    ensures SettleMove(settings, db.orders[o], db'.orders[o])
  {
  }

  lemma ReclaimMovesRow(settings: Settings, db: Db, o: string, now: int)
    requires o in db.orders && db.orders[o].status == Processing
    ensures SettleMove(settings, db.orders[o], ReclaimedRow(settings, db.orders[o], now))
  {
  }

  lemma CommitMovesRow(settings: Settings, s: Sys, p: string, o: string)
    requires Inv(settings, s)
    requires p in s.consumers && s.consumers[p].Evaluated?
    ensures var db' := CommitInFlight(s.db, s.consumers[p]);
            PointerMove(RowOf(s.db, o), RowOf(db', o)) && db'.claims == s.db.claims
  {
    var c := s.consumers[p];
    assert InFlightOk(settings, s.db, p, c);
    hide Inv, StoreOk, AgentOk;
    ApplyKeeps(settings, s.db, c.event, c.prior, c.now, c.evaluation);
    hide InFlightOk, Apply, EvaluationOk, PriorOk, PointerMove;
    SameRowIsAMove(RowOf(s.db, o));
  }

  lemma SameRowIsAMove(row: Option<Row>)
    ensures PointerMove(row, row)
  {
  }

  lemma FinishStepMovesRow(settings: Settings, s: Sys, a: nat, wall: int, o: string)
    requires Inv(settings, s)
    requires a in s.agents && s.agents[a].Resolving?
    ensures var db' := Do(settings, s, Finish(a, wall)).db;
            RowMove(settings, RowOf(s.db, o), RowOf(db', o), |s.db.claims|) && db'.claims == s.db.claims
  {
    var g := s.agents[a];
    FinishStep(settings, s, a, wall);
    StoreOrder(settings, s.db, g.orderId);
    hide Inv, StoreOk, Do, SettleMove, OrderOk, PointerMove, FinishEffect;
    if HoldsClaim(s.db, g.orderId, g.token) {
      FinishMovesRows(settings, s.db, Do(settings, s, Finish(a, wall)).db, g.orderId, g.token, g.decision.action, o);
    } else {
      SameRowMoves(settings, RowOf(s.db, o), |s.db.claims|);
    }
  }

  lemma FinishMovesRows(settings: Settings, db: Db, db': Db, p: string, token: nat, action: Action, o: string)
    requires OrderOk(settings, db, p)
    requires FinishEffect(settings, db, db', p, token, action)
    ensures RowMove(settings, RowOf(db, o), RowOf(db', o), |db.claims|) && db'.claims == db.claims
  {
    FinishMovesRow(settings, db, db', p, token, action);
    hide OrderOk, SettleMove, PointerMove, FinishedRow;
    if o != p {
      SameRowMoves(settings, RowOf(db, o), |db.claims|);
    }
  }

  lemma SameRowMoves(settings: Settings, row: Option<Row>, token: nat)
    ensures RowMove(settings, row, row, token)
  {
  }

  lemma SweepMovesRow(settings: Settings, s: Sys, orderIds: seq<string>, o: string)
    requires Inv(settings, s)
    ensures var db' := Do(settings, s, ReclaimStuck(orderIds)).db;
            RowMove(settings, RowOf(s.db, o), RowOf(db', o), |s.db.claims|) && db'.claims == s.db.claims
  {
    if ListsStuck(settings, s.db, orderIds) {
      StuckSweepKeeps(settings, s.db, orderIds);
      hide StoreOk, StuckSweep, ReclaimedRow, ListsStuck;
      if o in s.db.orders && IsStuck(settings, s.db, o) {
        ReclaimMovesRow(settings, s.db, o, s.db.clock);
      }
    }
  }

  /** In one step a row moves only as `RowMove` says, and a claim gets the next token. */
  lemma StepMovesRow(settings: Settings, s: Sys, step: Step, o: string)
    requires Inv(settings, s)
    ensures RowMove(settings, RowOf(s.db, o), RowOf(Do(settings, s, step).db, o), |s.db.claims|)
    ensures s.db.claims <= Do(settings, s, step).db.claims
  {
    match step {
      case Commit(p) =>
        if p in s.consumers && s.consumers[p].Evaluated? {
          CommitMovesRow(settings, s, p, o);
        }
      case Finish(a, wall) =>
        if a in s.agents && s.agents[a].Resolving? {
          FinishStepMovesRow(settings, s, a, wall, o);
        }
      case ReclaimStuck(orderIds) =>
        SweepMovesRow(settings, s, orderIds, o);
      case _ =>
        hide Inv, SettleMove;
    }
  }

  predicate FilesOnDeath(db: Db, db': Db, o: string) {
    && DeadLetters(db.reviews, o) <= DeadLetters(db'.reviews, o)
    && (DeadLetters(db.reviews, o) < DeadLetters(db'.reviews, o) ==>
          o in db'.orders && db'.orders[o].status == DeadLetter)
  }

  lemma CommitFiles(settings: Settings, s: Sys, p: string, o: string)
    requires Inv(settings, s)
    requires p in s.consumers && s.consumers[p].Evaluated?
    ensures FilesOnDeath(s.db, CommitInFlight(s.db, s.consumers[p]), o)
  {
    var c := s.consumers[p];
    ConsumerFacts(settings, s.db, c.event, c.prior, c.now, c.evaluation);
    ApplyKeeps(settings, s.db, c.event, c.prior, c.now, c.evaluation);
    hide StoreOk, EvaluationOk, PriorOk, Apply;
    if c.evaluation.decision.review.Some? {
      ReviewsAppend(s.db.reviews, c.evaluation.decision.review.value, o);
    }
  }

  lemma FinishFiles(settings: Settings, db: Db, db': Db, p: string, token: nat, action: Action, o: string)
    requires FinishEffect(settings, db, db', p, token, action)
    ensures FilesOnDeath(db, db', o)
  {
    if db'.reviews != db.reviews {
      ReviewsAppend(db.reviews, db'.reviews[|db.reviews|], o);
    }
  }

  lemma FinishStepFiles(settings: Settings, s: Sys, a: nat, wall: int, o: string)
    requires Inv(settings, s)
    requires a in s.agents && s.agents[a].Resolving?
    ensures FilesOnDeath(s.db, Do(settings, s, Finish(a, wall)).db, o)
  {
    var g := s.agents[a];
    FinishStep(settings, s, a, wall);
    hide Inv, StoreOk, Do, FinishEffect, DeadLetters;
    if HoldsClaim(s.db, g.orderId, g.token) {
      FinishFiles(settings, s.db, Do(settings, s, Finish(a, wall)).db, g.orderId, g.token, g.decision.action, o);
    }
  }

  /** New dead-letter review rows appear only in the step that dead-letters the order. */
  lemma StepFilesDeadLetters(settings: Settings, s: Sys, step: Step, o: string)
    requires Inv(settings, s)
    ensures FilesOnDeath(s.db, Do(settings, s, step).db, o)
  {
    match step {
      case Commit(p) =>
        if p in s.consumers && s.consumers[p].Evaluated? {
          CommitFiles(settings, s, p, o);
        }
      case Finish(a, wall) =>
        if a in s.agents && s.agents[a].Resolving? {
          FinishStepFiles(settings, s, a, wall, o);
        }
      case FileMalformed(about, id) =>
        hide Inv;
        ReviewsAppend(s.db.reviews, ReviewItem(about, MalformedReview, Some(id), None), o);
      case ReclaimStuck(orderIds) =>
        if ListsStuck(settings, s.db, orderIds) {
          StuckSweepKeeps(settings, s.db, orderIds);
          hide StoreOk, StuckSweep, ListsStuck, DeadLetters;
        }
      case _ =>
        hide Inv;
    }
  }

  // ------------------------------------------------------------------
  // Whole runs
  // ------------------------------------------------------------------

  /** Terminal lock: a settled order can only ever become DISPUTED, and a DISPUTED row
      never changes again, even when a consumer applies a decision made on a stale read. */
  lemma {:induction false} TerminalLock(settings: Settings, s: Sys, steps: seq<Step>, o: string)
    requires Inv(settings, s)
    requires o in s.db.orders && IsTerminal(s.db.orders[o].status)
    ensures var db' := Run(settings, s, steps).db;
            && o in db'.orders
            && (db'.orders[o] == s.db.orders[o] || db'.orders[o].status == Disputed)
            && (s.db.orders[o].status == Disputed ==> db'.orders[o] == s.db.orders[o])
  {
    if steps != [] {
      var n := |steps| - 1;
      TerminalLock(settings, s, steps[..n], o);
      RunKeeps(settings, s, steps[..n]);
      StepMovesRow(settings, Run(settings, s, steps[..n]), steps[n], o);
    }
  }

  /** The retry count never falls, and a pointer never disappears. */
  lemma {:induction false} RetriesNeverFall(settings: Settings, s: Sys, steps: seq<Step>, o: string)
    requires Inv(settings, s)
    requires o in s.db.orders
    ensures var db' := Run(settings, s, steps).db;
            o in db'.orders && s.db.orders[o].retryCount <= db'.orders[o].retryCount
  {
    if steps != [] {
      var n := |steps| - 1;
      RetriesNeverFall(settings, s, steps[..n], o);
      RunKeeps(settings, s, steps[..n]);
      StepMovesRow(settings, Run(settings, s, steps[..n]), steps[n], o);
    }
  }

  predicate PendingThroughout(settings: Settings, s: Sys, steps: seq<Step>, o: string) {
    forall i | 0 <= i <= |steps| ::
      var db := Run(settings, s, steps[..i]).db;
      o in db.orders && db.orders[o].status == PendingRecheck
  }

  lemma PendingEnds(settings: Settings, s: Sys, steps: seq<Step>, o: string)
    requires PendingThroughout(settings, s, steps, o)
    ensures o in s.db.orders && s.db.orders[o].status == PendingRecheck
    ensures var db := Run(settings, s, steps).db; o in db.orders && db.orders[o].status == PendingRecheck
    ensures steps != [] ==> PendingThroughout(settings, s, steps[..|steps| - 1], o)
  {
    hide Do;
    assert steps[..0] == [] && steps[..|steps|] == steps;
    assert o in Run(settings, s, steps[..0]).db.orders;
    assert o in Run(settings, s, steps[..|steps|]).db.orders;
    if steps != [] {
      var init := steps[..|steps| - 1];
      forall i | 0 <= i <= |init|
        ensures var db := Run(settings, s, init[..i]).db; o in db.orders && db.orders[o].status == PendingRecheck
      {
        assert init[..i] == steps[..i];
      }
    }
  }

  lemma StepKeepsDeadline(settings: Settings, s: Sys, step: Step, o: string)
    requires Inv(settings, s) && Inv(settings, Do(settings, s, step))
    requires o in s.db.orders && s.db.orders[o].status == PendingRecheck
    requires var db' := Do(settings, s, step).db; o in db'.orders && db'.orders[o].status == PendingRecheck
    ensures var row, row' := s.db.orders[o], Do(settings, s, step).db.orders[o];
            row.recheckAt.Some? && row'.recheckAt.Some? && row'.recheckAt.value <= row.recheckAt.value
  {
    StepMovesRow(settings, s, step, o);
    PendingRowOk(settings, s, o);
    PendingRowOk(settings, Do(settings, s, step), o);
    hide Inv, Do, RowOk, RowMove;
    MoveKeepsDeadline(settings, s.db.orders[o], Do(settings, s, step).db.orders[o], |s.db.claims|);
  }

  lemma MoveKeepsDeadline(settings: Settings, row: Row, row': Row, token: nat)
    requires RowOk(settings, row) && RowOk(settings, row')
    requires row.status == PendingRecheck && row'.status == PendingRecheck
    requires RowMove(settings, Some(row), Some(row'), token)
    ensures row.recheckAt.Some? && row'.recheckAt.Some? && row'.recheckAt.value <= row.recheckAt.value
  {
  }

  lemma PendingRowOk(settings: Settings, s: Sys, o: string)
    requires Inv(settings, s)
    requires o in s.db.orders
    ensures RowOk(settings, s.db.orders[o])
  {
    assert OrderOk(settings, s.db, o);
  }

  /** No timer starvation: as long as no claim intervenes, repeat detections never move an
      armed deadline later. */
  lemma {:induction false} DeadlineNeverRecedes(settings: Settings, s: Sys, steps: seq<Step>, o: string)
    requires Inv(settings, s)
    requires PendingThroughout(settings, s, steps, o)
    ensures var db' := Run(settings, s, steps).db;
            && o in s.db.orders && s.db.orders[o].recheckAt.Some?
            && o in db'.orders && db'.orders[o].recheckAt.Some?
            && db'.orders[o].recheckAt.value <= s.db.orders[o].recheckAt.value
  {
    PendingEnds(settings, s, steps, o);
    assert s.db.orders[o].recheckAt.Some? by { assert OrderOk(settings, s.db, o); }
    hide Inv, Do, PendingThroughout;
    if steps != [] {
      var n := |steps| - 1;
      PendingEnds(settings, s, steps[..n], o);
      DeadlineNeverRecedes(settings, s, steps[..n], o);
      RunKeeps(settings, s, steps[..n]);
      RunKeeps(settings, s, steps);
      StepKeepsDeadline(settings, Run(settings, s, steps[..n]), steps[n], o);
    }
  }

  predicate EverDead(settings: Settings, s: Sys, steps: seq<Step>, o: string) {
    || (o in Run(settings, s, steps).db.orders && Run(settings, s, steps).db.orders[o].status == DeadLetter)
    || (steps != [] && EverDead(settings, s, steps[..|steps| - 1], o))
  }

  /** Exactly one dead-letter review row for an order that ever entered DEAD_LETTER, and
      none for any other. */
  lemma {:induction false} OneReviewPerDeadLetter(settings: Settings, steps: seq<Step>, o: string)
    requires settings.maxRetries >= 1
    ensures DeadLetters(Reached(settings, steps).reviews, o) ==
            if EverDead(settings, INITIAL, steps, o) then 1 else 0
  {
    ReachedOk(settings, steps);
    assert OrderOk(settings, Reached(settings, steps), o);
    if steps != [] {
      var n := |steps| - 1;
      OneReviewPerDeadLetter(settings, steps[..n], o);
      ReachedOk(settings, steps[..n]);
      StepFilesDeadLetters(settings, Run(settings, INITIAL, steps[..n]), steps[n], o);
    }
  }

  // ------------------------------------------------------------------
  // Fencing
  // ------------------------------------------------------------------

  lemma StepKeepsSettled(settings: Settings, s: Sys, step: Step, o: string, token: nat)
    requires Inv(settings, s)
    requires Settled(s.db, o, token)
    ensures Settled(Do(settings, s, step).db, o, token)
  {
    StepMovesRow(settings, s, step, o);
    hide Inv, Do, RowMove;
    MoveRevivesNothing(settings, RowOf(s.db, o), RowOf(Do(settings, s, step).db, o), |s.db.claims|, token);
  }

  /** No move of a row gives it a token handed out before, other than the one it has. */
  lemma MoveRevivesNothing(settings: Settings, row: Option<Row>, row': Option<Row>, next: nat, token: nat)
    requires RowMove(settings, row, row', next) && token < next
    requires row.Some? ==> row.value.claimToken != Some(token)
    ensures row'.Some? ==> row'.value.claimToken != Some(token)
  {
  }

  /** Without the claim, a completion or re-arm changes nothing. */
  lemma UnheldFinishIsVoid(settings: Settings, db: Db, o: string, token: nat, decision: Decision, wall: int)
    requires !HoldsClaim(db, o, token)
    ensures FinishClaim(settings, db, o, token, decision, wall).0 == db
  {
  }

  /** Once a claim is finished or reclaimed its token is dead: no row ever carries it
      again, and no later completion or re-arm with it, on any order and under any
      decision, changes anything in any table. */
  lemma {:induction false} SettledForever(settings: Settings, s: Sys, steps: seq<Step>, o: string, token: nat)
    requires Inv(settings, s)
    requires Settled(s.db, o, token)
    ensures var db' := Run(settings, s, steps).db;
            && Settled(db', o, token)
            && (forall p: string :: !Live(db', p, token))
            && (forall p: string, decision, wall ::
                  FinishClaim(settings, db', p, token, decision, wall).0 == db')
  {
    if steps != [] {
      var n := |steps| - 1;
      SettledForever(settings, s, steps[..n], o, token);
      RunKeeps(settings, s, steps[..n]);
      StepKeepsSettled(settings, Run(settings, s, steps[..n]), steps[n], o, token);
    }
    var db' := Run(settings, s, steps).db;
    RunKeeps(settings, s, steps);
    forall p: string ensures !Live(db', p, token) {
      assert OrderOk(settings, db', p);
    }
    forall p: string, decision, wall
      ensures FinishClaim(settings, db', p, token, decision, wall).0 == db' {
      assert !Live(db', p, token);
      UnheldFinishIsVoid(settings, db', p, token, decision, wall);
    }
  }

  lemma SettledAfter(settings: Settings, db: Db, db': Db, o: string, token: nat, action: Action)
    requires OrderOk(settings, db, o) && Granted(db, o, token)
    requires if HoldsClaim(db, o, token) then FinishEffect(settings, db, db', o, token, action) else db' == db
    ensures Settled(db', o, token)
  {
  }

  /** Whether or not its claim was still held, an agent's finish leaves the token settled:
      of any number of finishes with one token at most the first has an effect. */
  lemma FinishSettles(settings: Settings, s: Sys, a: nat, wall: int)
    requires Inv(settings, s)
    requires a in s.agents && s.agents[a].Resolving?
    ensures Settled(Do(settings, s, Finish(a, wall)).db, s.agents[a].orderId, s.agents[a].token)
  {
    FinishStep(settings, s, a, wall);
    var g := s.agents[a];
    StoreOrder(settings, s.db, g.orderId);
    hide Inv, StoreOk, FinishClaim;
    SettledAfter(settings, s.db, Do(settings, s, Finish(a, wall)).db, g.orderId, g.token, g.decision.action);
  }

  /** A reclaim settles the claim it takes away. */
  lemma ReclaimSettles(settings: Settings, s: Sys, orderIds: seq<string>, o: string, token: nat)
    requires Inv(settings, s)
    requires ListsStuck(settings, s.db, orderIds) && o in orderIds && Live(s.db, o, token)
    ensures Settled(Do(settings, s, ReclaimStuck(orderIds)).db, o, token)
  {
    assert Granted(s.db, o, token) by { assert OrderOk(settings, s.db, o); }
    SweptRow(settings, s.db, orderIds, o);
  }

  lemma SweptRow(settings: Settings, db: Db, orderIds: seq<string>, o: string)
    requires StoreOk(settings, db) && ListsStuck(settings, db, orderIds) && o in orderIds
    ensures var db' := StuckSweep(settings, db, orderIds);
            o in db'.orders && db'.orders[o].claimToken.None? && db'.claims == db.claims
  {
    StuckSweepKeeps(settings, db, orderIds);
    assert IsStuck(settings, db, o);
  }
}
