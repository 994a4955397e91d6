/** A correction can stand although the payment was reversed: exactly when the reversal was
logged after the recheck had read the log and before it finished. */
module CorrectionWindow {
  import opened Models
  import opened Tables
  import opened Recheck
  import opened Sweep
  import opened LogFacts
  import opened StoreInvariant
  import opened StoreSteps
  import opened ConsumerSteps
  import opened SweepSteps
  import opened Protocol
  import opened ProtocolInvariant
  import opened RunTheorems
  import AuditIds
  import Compare
  import Correlate
  import Engine
  import FinalRecords
  import ViewFold

  /** Row `i` of the log is a reversal of the order that passed correlation. */
  predicate ReversalAt(audit: seq<AuditRow>, o: string, i: nat) {
    && i < |audit|
    && audit[i].payload.Some? && audit[i].payload.value.orderId == o
    && ViewFold.Accepts(ViewAt(audit[..i], o), audit[i].payload.value)
    && ViewFold.ReversalId(audit[i].payload.value).Some?
  }

  /** The recheck under `claim` read the log at length `n`, on safe evidence, and finished by
      writing row `f`; every accepted reversal in the log lies between. */
  ghost predicate Window(db: Db, o: string, claim: nat, n: nat, f: nat) {
    && Justified(db, o, claim, n)
    && n <= f < |db.audit|
    && db.audit[f].entry.eventId == AuditIds.RecheckId(o, claim)
    && forall i: nat | ReversalAt(db.audit, o, i) :: n <= i < f
  }

  ghost predicate WindowOk(db: Db, o: string) {
    o in db.orders && db.orders[o].status == ResolvedAutocorrected ==> exists claim, n, f :: Window(db, o, claim, n, f)
  }

  /** A consumer that read a disputed row still faces one. */
  predicate ReadsDispute(db: Db, o: string, c: InFlight) {
    c.Evaluated? && c.prior.Some? && c.prior.value.status == Disputed ==>
      o in db.orders && db.orders[o].status == Disputed
  }

  predicate ReadsDisputes(s: Sys) {
    forall p | p in s.consumers :: ReadsDispute(s.db, p, s.consumers[p])
  }

  // ------------------------------------------------------------------
  // The log and its prefixes
  // ------------------------------------------------------------------

  lemma {:induction false} EventsGrow(audit: seq<AuditRow>, o: string, n: nat)
    requires n <= |audit|
    ensures EventsOf(audit[..n], o) <= EventsOf(audit, o)
    decreases |audit|
  {
    if n == |audit| {
      assert audit[..n] == audit;
    } else {
      var m := |audit| - 1;
      assert audit[..m][..n] == audit[..n];
      EventsGrow(audit[..m], o, n);
    }
  }

  /** An accepted event of the log is among the accepted of every later prefix. */
  lemma {:induction false} ReversalIsAccepted(audit: seq<AuditRow>, o: string, i: nat, n: nat)
    requires ReversalAt(audit, o, i) && i < n <= |audit|
    ensures audit[i].payload.value in AcceptedIn(audit[..n], o)
    decreases n
  {
    hide ViewFold.Accepts, ViewFold.Accepted, ViewFold.Fold, ViewFold.ReversalId, EventsOf;
    var before, row := audit[..n - 1], audit[n - 1];
    assert audit[..n] == before + [row];
    AuditAppend(before, row, o);
    if row.payload.Some? && row.payload.value.orderId == o {
      ViewFold.FoldAppend(EmptyView(o), EventsOf(before, o), row.payload.value);
    } else {
      assert EventsOf(before, o) + [] == EventsOf(before, o);
    }
    if i < n - 1 {
      ReversalIsAccepted(audit, o, i, n - 1);
    }
  }

  /** On safe evidence the payment is known as settled, from then on. */
  lemma EvidenceIsSettled(audit: seq<AuditRow>, o: string, n: nat)
    requires n <= |audit| && ViewFold.SafeEvidence(AcceptedIn(audit[..n], o))
    ensures ViewAt(audit, o).settled
  {
    var read, now := EventsOf(audit[..n], o), EventsOf(audit, o);
    EventsGrow(audit, o, n);
    assert now[..|read|] == read;
    ViewFold.FoldIsSummary(o, read);
    FinalRecords.StatusMeansSettled(o, read);
    ViewFold.ViewOnlyGrows(EmptyView(o), now, |read|);
    hide ViewFold.Fold, ViewFold.Accepted, EventsOf;
  }

  // ------------------------------------------------------------------
  // A reversal that finds the correction made
  // ------------------------------------------------------------------

  /** Whatever status was read, short of DISPUTED, an accepted reversal of settled money is
      routed to DISPUTED. */
  lemma ReversalIsRouted(e: Event, view: OrderView, status: Option<ReconStatus>, now: int, delay: int)
    requires view.settled && ViewFold.Accepts(view, e) && ViewFold.ReversalId(e).Some?
    requires status != Some(Disputed)
    ensures Engine.EvaluateAgainst(e, Some(view), status, now, delay).decision.action == RouteDisputed
  {
    var projected := Correlate.Project(view, e);
    assert projected.settled && projected.reversalIds != {} by {
      assert ViewFold.ReversalId(e).value in projected.reversalIds;
    }
    assert Compare.Assess(projected) == ReversalDrift;
    assert e.IsReversal();
    hide Correlate.Project, Compare.Assess, ViewFold.ReversalId, Event.IsReversal;
  }

  /** So if the row is still corrected after a consumer's write, the event it logged was not
      an accepted reversal. */
  lemma WriteKeepsOnlyIfNoReversal(settings: Settings, db: Db, c: InFlight, o: string)
    requires InFlightOk(settings, db, o, c) && c.Evaluated? && !Logged(db.audit, c.event.eventId)
    requires o in db.orders && db.orders[o].status == ResolvedAutocorrected
    requires ReadsDispute(db, o, c)
    requires ViewAt(db.audit, o).settled
    requires RowOf(CommitInFlight(db, c), o) == RowOf(db, o)
    ensures !(ViewFold.Accepts(ViewAt(db.audit, o), c.event) && ViewFold.ReversalId(c.event).Some?)
  {
    var view, d := ViewAt(db.audit, o), c.evaluation.decision;
    hide ViewFold.Accepts, ViewFold.ReversalId, ViewFold.Fold, Engine.EvaluateAgainst, EventOk;
    if ViewFold.Accepts(view, c.event) && ViewFold.ReversalId(c.event).Some? {
      SettledIsLogged(db.audit, o);
      ReversalIsRouted(c.event, view, StatusOf(c.prior), c.now, settings.recheckDelay);
      ConsumerFacts(settings, db, c.event, c.prior, c.now, c.evaluation);
      RoutedRow(db, c.event, d, c.evaluation.view, c.prior);
    }
  }

  lemma SettledIsLogged(audit: seq<AuditRow>, o: string)
    requires ViewAt(audit, o).settled
    ensures LoggedView(audit, o) == Some(ViewAt(audit, o))
  {
  }

  lemma RoutedRow(db: Db, e: Event, d: Decision, view: OrderView, prior: Option<Row>)
    requires !Logged(db.audit, d.audit.eventId) && d.action == RouteDisputed
    requires e.orderId in db.orders && db.orders[e.orderId].status == ResolvedAutocorrected
    ensures var db' := Apply(db, e, d, view, prior).0;
            e.orderId in db'.orders && db'.orders[e.orderId].status == Disputed
  {
  }

  // ------------------------------------------------------------------
  // Steps
  // ------------------------------------------------------------------

  /** A window outlives anything that grants the order no claim and logs no accepted
      reversal of it. */
  lemma WindowPersists(db: Db, db': Db, o: string, claim: nat, n: nat, f: nat)
    requires Window(db, o, claim, n, f)
    requires db.audit <= db'.audit && LastClaim(db', o, claim) && db.claims <= db'.claims
    requires forall i: nat | |db.audit| <= i :: !ReversalAt(db'.audit, o, i)
    ensures Window(db', o, claim, n, f)
  {
    assert db'.audit[..n] == db.audit[..n];
    forall i: nat | ReversalAt(db'.audit, o, i) ensures n <= i < f {
      assert i < |db.audit|;
      assert db'.audit[..i] == db.audit[..i] && db'.audit[i] == db.audit[i];
      assert ReversalAt(db.audit, o, i);
    }
  }

  /** Rows that add nothing to an order's events hold no reversal of it. */
  lemma {:induction false} NoNewEvents(audit: seq<AuditRow>, audit': seq<AuditRow>, o: string, i: nat)
    requires audit <= audit' && EventsOf(audit', o) == EventsOf(audit, o)
    requires |audit| <= i < |audit'|
    ensures !ReversalAt(audit', o, i)
  {
    EventsGrow(audit', o, |audit|);
    EventsGrow(audit', o, i);
    EventsGrow(audit', o, i + 1);
    assert audit'[..|audit|] == audit;
    assert audit'[..i + 1] == audit'[..i] + [audit'[i]];
    assert audit'[..i + 1][..i] == audit'[..i] && audit'[..i][..|audit|] == audit;
    EventsGrow(audit'[..i], o, |audit|);
    AuditAppend(audit'[..i], audit'[i], o);
    hide EventsOf, ViewFold.Accepts, ViewFold.ReversalId;
  }

  /** The window opens at the finish that corrects. */
  lemma FinishOpens(settings: Settings, db: Db, db': Db, o: string, token: nat, decision: Decision, n: nat, now: int)
    requires OrderOk(settings, db, o)
    requires MadeAt(settings, db, o, token, decision, n, now)
    requires FinishEffect(settings, db, db', o, token, decision.action)
    requires db'.orders[o].status == ResolvedAutocorrected
    ensures Window(db', o, token, n, |db.audit|)
  {
    FinishJustified(settings, db, db', o, token, decision, n, now);
    assert n <= |db.audit|;
    hide OrderOk, MadeAt, RecheckDecision, ViewFold.SafeEvidence, FinishedRow;
    forall i: nat | ReversalAt(db'.audit, o, i) ensures n <= i < |db.audit| {
      if i < n { NoReversalBefore(db'.audit, o, n, i); }
    }
  }

  lemma NoReversalBefore(audit: seq<AuditRow>, o: string, n: nat, i: nat)
    requires i < n <= |audit| && ViewFold.SafeEvidence(AcceptedIn(audit[..n], o))
    ensures !ReversalAt(audit, o, i)
  {
    hide ViewFold.Accepts, AcceptedIn;
    if ReversalAt(audit, o, i) {
      ReversalIsAccepted(audit, o, i, n);
    }
  }

  lemma QuietStep(db: Db, db': Db, o: string)
    requires WindowOk(db, o)
    requires o in db'.orders && db'.orders[o].status == ResolvedAutocorrected ==>
               o in db.orders && db.orders[o].status == ResolvedAutocorrected
    requires db.audit <= db'.audit && EventsOf(db'.audit, o) == EventsOf(db.audit, o)
    requires db.claims <= db'.claims && forall t | |db.claims| <= t < |db'.claims| :: db'.claims[t].orderId != o
    ensures WindowOk(db', o)
  {
    hide ReversalAt, Justified, EventsOf;
    if o in db'.orders && db'.orders[o].status == ResolvedAutocorrected {
      var claim, n, f :| Window(db, o, claim, n, f);
      assert LastClaim(db, o, claim) by { LastOf(db, o, claim, n); }
      forall i: nat | |db.audit| <= i ensures !ReversalAt(db'.audit, o, i) {
        if i < |db'.audit| { NoNewEvents(db.audit, db'.audit, o, i); } else { PastTheEnd(db'.audit, o, i); }
      }
      WindowPersists(db, db', o, claim, n, f);
    }
  }

  lemma LastOf(db: Db, o: string, claim: nat, n: nat)
    requires Justified(db, o, claim, n)
    ensures LastClaim(db, o, claim)
  {
  }

  lemma PastTheEnd(audit: seq<AuditRow>, o: string, i: nat)
    requires |audit| <= i
    ensures !ReversalAt(audit, o, i)
  {
  }

  lemma CommitKeepsWindow(settings: Settings, s: Sys, p: string, o: string)
    requires Inv(settings, s)
    requires p in s.consumers && s.consumers[p].Evaluated? && ReadsDispute(s.db, p, s.consumers[p])
    requires WindowOk(s.db, o)
    ensures WindowOk(CommitInFlight(s.db, s.consumers[p]), o)
  {
    var c, db' := s.consumers[p], CommitInFlight(s.db, s.consumers[p]);
    assert InFlightOk(settings, s.db, p, c);
    CommitMovesRow(settings, s, p, o);
    ApplyKeeps(settings, s.db, c.event, c.prior, c.now, c.evaluation);
    hide StoreOk, Inv, EvaluationOk, PriorOk, AgentOk, CommitInFlight, Window, InFlightOk;
    if !Logged(s.db.audit, c.event.eventId) {
      assert CommitInFlight(s.db, c) == Apply(s.db, c.event, c.evaluation.decision, c.evaluation.view, c.prior).0 by {
        CommitIsApply(s.db, c);
      }
      if o in db'.orders && db'.orders[o].status == ResolvedAutocorrected {
        var claim, n, f :| Window(s.db, o, claim, n, f);
        CommitWindow(settings, s.db, c, o, claim, n, f);
      }
    } else {
      CommitIsApply(s.db, c);
    }
  }

  lemma CommitIsApply(db: Db, c: InFlight)
    requires c.Evaluated?
    ensures CommitInFlight(db, c) == Apply(db, c.event, c.evaluation.decision, c.evaluation.view, c.prior).0
  {
  }

  lemma CommitWindow(settings: Settings, db: Db, c: InFlight, o: string, claim: nat, n: nat, f: nat)
    requires c.Evaluated? && InFlightOk(settings, db, c.event.orderId, c) && ReadsDispute(db, c.event.orderId, c)
    requires !Logged(db.audit, c.event.eventId)
    requires ApplyEffect(db, CommitInFlight(db, c), c.event, c.evaluation.decision, c.evaluation.view)
    requires o in db.orders && db.orders[o].status == ResolvedAutocorrected && Window(db, o, claim, n, f)
    requires RowOf(CommitInFlight(db, c), o) == RowOf(db, o)
    ensures Window(CommitInFlight(db, c), o, claim, n, f)
  {
    var db' := CommitInFlight(db, c);
    LastOf(db, o, claim, n);
    EvidenceIsSettled(db.audit, o, n);
    if c.event.orderId == o {
      WriteKeepsOnlyIfNoReversal(settings, db, c, o);
    }
    assert db'.audit[..|db.audit|] == db.audit;
    forall i: nat | |db.audit| <= i ensures !ReversalAt(db'.audit, o, i) {
    }
    hide CommitInFlight, InFlightOk, ReversalAt, Justified, Window, ApplyEffect;
    WindowPersists(db, db', o, claim, n, f);
  }

  lemma FinishKeepsWindow(settings: Settings, s: Sys, a: nat, wall: int, o: string)
    requires Inv(settings, s)
    requires a in s.agents && s.agents[a].Resolving?
    requires WindowOk(s.db, o)
    ensures WindowOk(Do(settings, s, Finish(a, wall)).db, o)
  {
    var g, db' := s.agents[a], Do(settings, s, Finish(a, wall)).db;
    FinishStep(settings, s, a, wall);
    assert AgentOk(settings, s.db, g);
    StoreOrder(settings, s.db, g.orderId);
    hide Inv, StoreOk, Do, OrderOk, Window, WindowOk, FinishEffect;
    if HoldsClaim(s.db, g.orderId, g.token) {
      if o == g.orderId {
        OwnFinish(settings, s.db, db', g);
      } else {
        AnothersFinish(settings, s.db, db', g.orderId, g.token, g.decision.action, o);
      }
    }
  }

  lemma OwnFinish(settings: Settings, db: Db, db': Db, g: Agent)
    requires g.Resolving? && AgentOk(settings, db, g) && OrderOk(settings, db, g.orderId)
    requires FinishEffect(settings, db, db', g.orderId, g.token, g.decision.action)
    ensures WindowOk(db', g.orderId)
  {
    hide OrderOk, Window, FinishEffect;
    if g.orderId in db'.orders && db'.orders[g.orderId].status == ResolvedAutocorrected {
      FinishOpens(settings, db, db', g.orderId, g.token, g.decision, g.logLength, g.now);
    }
  }

  lemma AnothersFinish(settings: Settings, db: Db, db': Db, p: string, token: nat, action: Action, o: string)
    requires FinishEffect(settings, db, db', p, token, action) && o != p
    requires WindowOk(db, o)
    ensures WindowOk(db', o)
  {
    FinishGrows(settings, db, db', p, token, action);
    hide FinishedRow, WindowOk, EventsOf;
    QuietStep(db, db', o);
  }

  /** In one step of anyone, a window stays open or the order is no longer corrected. */
  lemma StepKeepsWindow(settings: Settings, s: Sys, step: Step, o: string)
    requires Inv(settings, s)
    requires ReadsDisputes(s)
    requires WindowOk(s.db, o)
    ensures WindowOk(Do(settings, s, step).db, o)
  {
    match step {
      case Commit(p) =>
        if p in s.consumers && s.consumers[p].Evaluated? {
          CommitKeepsWindow(settings, s, p, o);
        }
      case Finish(a, wall) =>
        if a in s.agents && s.agents[a].Resolving? {
          FinishKeepsWindow(settings, s, a, wall, o);
        }
      case ReclaimStuck(orderIds) =>
        if ListsStuck(settings, s.db, orderIds) {
          hide Inv, WindowOk;
          SweepKeepsWindow(settings, s.db, orderIds, o);
        }
      case ClaimOrder(a, p) =>
        hide Inv, WindowOk;
        ClaimKeepsWindow(settings, s, a, p, o);
      case _ =>
        hide Inv, WindowOk;
        QuietStep(s.db, Do(settings, s, step).db, o);
    }
  }

  lemma SweepKeepsWindow(settings: Settings, db: Db, orderIds: seq<string>, o: string)
    requires StoreOk(settings, db) && ListsStuck(settings, db, orderIds)
    requires WindowOk(db, o)
    ensures WindowOk(StuckSweep(settings, db, orderIds), o)
  {
    StuckSweepKeeps(settings, db, orderIds);
    hide StoreOk, StuckSweep, ListsStuck, WindowOk, DeadLetters;
    QuietStep(db, StuckSweep(settings, db, orderIds), o);
  }

  lemma ClaimKeepsWindow(settings: Settings, s: Sys, a: nat, p: string, o: string)
    requires WindowOk(s.db, o)
    ensures WindowOk(Do(settings, s, ClaimOrder(a, p)).db, o)
  {
    var db' := Do(settings, s, ClaimOrder(a, p)).db;
    hide Window;
    if p != o || db' == s.db {
      hide WindowOk;
      QuietStep(s.db, db', o);
    }
  }

  lemma StepKeepsReads(settings: Settings, s: Sys, step: Step, o: string)
    requires Inv(settings, s)
    requires ReadsDisputes(s)
    requires o in Do(settings, s, step).consumers
    ensures var s' := Do(settings, s, step); ReadsDispute(s'.db, o, s'.consumers[o])
  {
    StepMovesRow(settings, s, step, o);
    ConsumersOfStep(settings, s, step, o);
    var s' := Do(settings, s, step);
    hide Inv, Do, RowMove;
    if o in s.db.orders && s.db.orders[o].status == Disputed {
      DisputeStays(settings, s.db.orders[o], RowOf(s'.db, o), |s.db.claims|);
    }
  }

  lemma DisputeStays(settings: Settings, row: Row, row': Option<Row>, token: nat)
    requires row.status == Disputed && RowMove(settings, Some(row), row', token)
    ensures row' == Some(row)
  {
  }

  /** What a consumer holds after a step, it held before or has just read. */
  lemma ConsumersOfStep(settings: Settings, s: Sys, step: Step, o: string)
    requires o in Do(settings, s, step).consumers
    ensures var s' := Do(settings, s, step);
            || (o in s.consumers && s'.consumers[o] == s.consumers[o])
            || s'.consumers[o].Committed?
            || (s'.consumers[o].Evaluated? && s'.consumers[o].prior == RowOf(s'.db, o))
  {
  }

  // ------------------------------------------------------------------
  // Runs
  // ------------------------------------------------------------------

  lemma {:induction false} RunKeepsWindow(settings: Settings, steps: seq<Step>, o: string)
    requires settings.maxRetries >= 1
    ensures WindowOk(Reached(settings, steps), o)
    ensures ReadsDisputes(Run(settings, INITIAL, steps))
  {
    hide Do, Inv, WindowOk, ReadsDispute;
    if steps == [] {
      assert WindowOk(EMPTY_DB, o) by { NothingCorrected(o); }
    } else {
      var n := |steps| - 1;
      var s := Run(settings, INITIAL, steps[..n]);
      RunKeepsWindow(settings, steps[..n], o);
      ReachedOk(settings, steps[..n]);
      StepKeepsWindow(settings, s, steps[n], o);
      forall p | p in Do(settings, s, steps[n]).consumers
        ensures ReadsDispute(Do(settings, s, steps[n]).db, p, Do(settings, s, steps[n]).consumers[p])
      {
        StepKeepsReads(settings, s, steps[n], p);
      }
      assert ReadsDisputes(Do(settings, s, steps[n]));
    }
  }

  lemma NothingCorrected(o: string)
    ensures WindowOk(EMPTY_DB, o)
  {
  }

  /** In every reachable state a corrected order has its window: the recheck under its last
      claim read the log at `n` on safe evidence and finished at `f`. The correction stands
      over a logged reversal if and only if one was logged in between, that is, after the
      recheck read and before it finished; earlier it would have prevented the correction,
      later it would have disputed the order. */
  lemma CorrectionOverReversalIff(settings: Settings, steps: seq<Step>, o: string)
    returns (claim: nat, n: nat, f: nat)
    requires settings.maxRetries >= 1
    requires o in Reached(settings, steps).orders
    requires Reached(settings, steps).orders[o].status == ResolvedAutocorrected
    ensures var db := Reached(settings, steps);
            && LastClaim(db, o, claim) && db.claims[claim].logLength <= n <= f < |db.audit|
            && db.audit[f].entry.eventId == AuditIds.RecheckId(o, claim)
            && ViewFold.SafeEvidence(AcceptedIn(db.audit[..n], o))
            && ((exists i: nat :: ReversalAt(db.audit, o, i)) <==>
                (exists i: nat :: n <= i < f && ReversalAt(db.audit, o, i)))
            && (forall i: nat | f <= i :: !ReversalAt(db.audit, o, i))
            && (forall i: nat | i < n :: !ReversalAt(db.audit, o, i))
  {
    hide Run, ReversalAt, ViewFold.SafeEvidence;
    RunKeepsWindow(settings, steps, o);
    claim, n, f :| Window(Reached(settings, steps), o, claim, n, f);
  }

  /** And it does happen: let a recheck have read the log and decided to correct; a reversal
      that a consumer then logs is kept in the log, yet the finish corrects the order. */
  lemma CorrectionOverReversal(settings: Settings, s: Sys, a: nat, e: Event, now: int, wall: int)
    requires Inv(settings, s)
    requires a in s.agents && s.agents[a].Resolving? && s.agents[a].orderId == e.orderId
    requires s.agents[a].decision.action == ApplyAutocorrect && HoldsClaim(s.db, e.orderId, s.agents[a].token)
    requires Delivers(s, e) && !Logged(s.db.audit, e.eventId)
    requires ViewFold.Accepts(ViewAt(s.db.audit, e.orderId), e) && ViewFold.ReversalId(e).Some?
    ensures var db' := Do(settings, Do(settings, Do(settings, s, Deliver(e, now)), Commit(e.orderId)),
                          Finish(a, wall)).db;
            && e.orderId in db'.orders && db'.orders[e.orderId].status == ResolvedAutocorrected
            && ReversalAt(db'.audit, e.orderId, |s.db.audit|)
  {
    var o := e.orderId;
    var read := Do(settings, s, Deliver(e, now));
    var logged := Do(settings, read, Commit(o));
    DeliveredState(settings, s, e, now);
    DeliverKeeps(settings, s, e, now);
    CommitKeeps(settings, read, o);
    LoggedUnderClaim(settings, read, o);
    hide Inv, Do, ReversalAt;
    FinishCorrects(settings, logged, a, wall);
    NewReversal(s.db.audit, Do(settings, logged, Finish(a, wall)).db.audit, e);
  }

  lemma DeliveredState(settings: Settings, s: Sys, e: Event, now: int)
    requires Delivers(s, e)
    ensures var read := Do(settings, s, Deliver(e, now));
            && read.db == s.db && read.agents == s.agents
            && e.orderId in read.consumers && read.consumers[e.orderId].Evaluated?
            && read.consumers[e.orderId].event == e
  {
    hide Engine.EvaluateAgainst;
  }

  lemma FinishCorrects(settings: Settings, s: Sys, a: nat, wall: int)
    requires Inv(settings, s)
    requires a in s.agents && s.agents[a].Resolving? && s.agents[a].decision.action == ApplyAutocorrect
    requires HoldsClaim(s.db, s.agents[a].orderId, s.agents[a].token)
    ensures var o, db' := s.agents[a].orderId, Do(settings, s, Finish(a, wall)).db;
            o in db'.orders && db'.orders[o].status == ResolvedAutocorrected && s.db.audit <= db'.audit
  {
    FinishStep(settings, s, a, wall);
    hide Inv, StoreOk, Do;
  }

  lemma NewReversal(before: seq<AuditRow>, after: seq<AuditRow>, e: Event)
    requires before <= after && |before| < |after| && after[|before|].payload == Some(e)
    requires ViewFold.Accepts(ViewAt(before, e.orderId), e) && ViewFold.ReversalId(e).Some?
    ensures ReversalAt(after, e.orderId, |before|)
  {
    assert after[..|before|] == before;
  }

  /** A consumer's write under a claim is logged and moves no pointer. */
  lemma LoggedUnderClaim(settings: Settings, s: Sys, o: string)
    requires Inv(settings, s)
    requires o in s.consumers && s.consumers[o].Evaluated? && !Logged(s.db.audit, s.consumers[o].event.eventId)
    requires o in s.db.orders && s.db.orders[o].status == Processing
    ensures var c, db' := s.consumers[o], Do(settings, s, Commit(o)).db;
            && RowOf(db', o) == RowOf(s.db, o)
            && |db'.audit| == |s.db.audit| + 1 && s.db.audit <= db'.audit
            && db'.audit[|s.db.audit|].payload == Some(c.event)
            && Do(settings, s, Commit(o)).agents == s.agents
  {
    var c := s.consumers[o];
    ApplyKeeps(settings, s.db, c.event, c.prior, c.now, c.evaluation);
    CommitIsApply(s.db, c);
    hide StoreOk, EvaluationOk, PriorOk, AgentOk, Apply, CommitInFlight;
  }
}
