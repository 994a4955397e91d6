/** The store object: every statement of worker/state.py as a method on the tables it
updates in place. */
module StateStore {
  import opened Models
  import opened Json
  import opened Tables
  import opened Recheck
  import opened Sweep
  import ViewCodec

  datatype Reclaimed = Reclaimed(orderId: string, newStatus: ReconStatus, retryCount: nat)

  class PostgresStateStore {
    var orders: map<string, Row>
    var views: map<string, Json>
    var audit: seq<AuditRow>
    var reviews: seq<ReviewItem>
    var claims: seq<Claim>
    var clock: int

    constructor ()
      ensures Contents() == EMPTY_DB
    {
      orders, views, audit, reviews, claims, clock := map[], map[], [], [], [], 0;
    }

    function Contents(): Db
      reads this
    {
      Db(orders, views, audit, reviews, claims, clock)
    }

    // ----------------------------------------------------------------
    // Read
    // ----------------------------------------------------------------

    method ReadState(orderId: string) returns (row: Option<Row>, view: Option<OrderView>)
      ensures row == RowOf(Contents(), orderId)
      ensures view == ViewOf(Contents(), orderId)
    {
      row := if orderId in orders then Some(orders[orderId]) else None;
      view := None;
      if orderId in views {
        view := ViewCodec.Deserialize(views[orderId], orderId);
      }
    }

    // ----------------------------------------------------------------
    // Write
    // ----------------------------------------------------------------

    /** False when the event id already existed. */
    method InsertAudit(entry: AuditEntry, payload: Option<Event>) returns (written: bool)
      modifies this`audit
      ensures Contents() == Tables.InsertAudit(old(Contents()), entry, payload)
      ensures written == !Logged(old(audit), entry.eventId)
    {
      written := !Logged(audit, entry.eventId);
      if written {
        audit := audit + [AuditRow(entry, payload)];
      }
    }

    method EnqueueReview(item: ReviewItem)
      modifies this`reviews
      ensures Contents() == Tables.EnqueueReview(old(Contents()), item)
    {
      if !Filed(reviews, item.eventId) {
        reviews := reviews + [item];
      }
    }

    method WriteRow(orderId: string, row: Row)
      modifies this`orders, this`clock
      ensures Contents() == Put(old(Contents()), orderId, row)
    {
      orders := orders[orderId := row.(updatedAt := clock)];
      clock := clock + 1;
    }

    method ApplyPointer(event: Event, decision: Decision, prior: Option<Row>) returns (moved: bool)
      modifies this
      ensures (Contents(), moved) == Tables.ApplyPointer(old(Contents()), event, decision, prior)
    {
      var o := event.orderId;
      moved := false;
      match decision.action {
        case ArmRecheck =>
          if o !in orders {
            WriteRow(o, Row(PendingRecheck, decision.recheckAt, 0, None, 0));
            moved := true;
          } else if orders[o].status != Processing && (prior.None? || orders[o].updatedAt <= prior.value.updatedAt) {
            WriteRow(o, orders[o].(status := PendingRecheck,
                                   recheckAt := Earliest(orders[o].recheckAt, decision.recheckAt)));
            moved := true;
          }
        case RouteDisputed =>
          if o !in orders {
            WriteRow(o, Row(Disputed, None, 0, None, 0));
            moved := true;
          } else if orders[o].status != Processing && orders[o].status != Disputed {
            WriteRow(o, orders[o].(status := Disputed, recheckAt := None));
            moved := true;
          }
        case MarkResolvedNaturally =>
          if o in orders && orders[o].status == PendingRecheck {
            WriteRow(o, orders[o].(status := ResolvedNaturally, recheckAt := None));
            moved := true;
          }
        case FlagForReview =>
          if decision.review.Some? {
            EnqueueReview(decision.review.value);
          }
        case _ =>
      }
    }

    method Apply(event: Event, decision: Decision, view: OrderView, prior: Option<Row>) returns (r: ApplyResult)
      modifies this
      ensures (Contents(), r) == Tables.Apply(old(Contents()), event, decision, view, prior)
    {
      var written := InsertAudit(decision.audit, Some(event));
      if !written {
        return ApplyResult(false, false);
      }
      views := views[event.orderId := ViewCodec.Serialize(view)];
      var moved := ApplyPointer(event, decision, prior);
      r := ApplyResult(true, moved);
    }

    // ----------------------------------------------------------------
    // Claims
    // ----------------------------------------------------------------

    method ClaimRecheck(orderId: string) returns (token: Option<nat>)
      modifies this
      ensures (Contents(), token) == Tables.ClaimRecheck(old(Contents()), orderId)
    {
      token := None;
      if orderId in orders && orders[orderId].status == PendingRecheck {
        token := Some(|claims|);
        WriteRow(orderId, orders[orderId].(status := Processing, claimToken := token));
        claims := claims + [Claim(orderId, |audit|)];
      }
    }

    method CompleteClaim(orderId: string, token: nat, newStatus: ReconStatus) returns (ok: bool)
      modifies this
      ensures (Contents(), ok) == Tables.CompleteClaim(old(Contents()), orderId, token, newStatus)
    {
      ok := orderId in orders && orders[orderId].status == Processing && orders[orderId].claimToken == Some(token);
      if ok {
        WriteRow(orderId, orders[orderId].(status := newStatus, recheckAt := None, claimToken := None));
      }
    }

    method RearmOrDeadletter(orderId: string, token: nat, freshRecheckAt: int, maxRetries: nat)
      returns (outcome: Option<(ReconStatus, nat)>)
      modifies this
      ensures (Contents(), outcome) ==
              Tables.RearmOrDeadletter(old(Contents()), orderId, token, freshRecheckAt, maxRetries)
    {
      outcome := None;
      if orderId in orders && orders[orderId].status == Processing && orders[orderId].claimToken == Some(token) {
        var retries := orders[orderId].retryCount + 1;
        var row := orders[orderId].(retryCount := retries, claimToken := None);
        if retries >= maxRetries {
          WriteRow(orderId, row.(status := DeadLetter, recheckAt := None));
          outcome := Some((DeadLetter, retries));
        } else {
          WriteRow(orderId, row.(status := PendingRecheck, recheckAt := Some(freshRecheckAt)));
          outcome := Some((PendingRecheck, retries));
        }
      }
    }

    // ----------------------------------------------------------------
    // Sweeps
    // ----------------------------------------------------------------

    /** Reclaim every stuck row in one statement; RETURNING lists them once each. */
    method ReclaimStuckProcessing(settings: Settings) returns (reclaimed: seq<Reclaimed>)
      modifies this`orders, this`clock
      ensures clock == old(clock) + 1
      ensures ListsStuck(settings, old(Contents()), OrderIds(reclaimed))
      ensures orders.Keys == old(orders).Keys
      ensures forall o | o in old(orders) ::
                orders[o] == if o in OrderIds(reclaimed) then ReclaimedRow(settings, old(orders)[o], old(clock))
                             else old(orders)[o]
      ensures forall r | r in reclaimed ::
                r.orderId in orders && r.newStatus == orders[r.orderId].status &&
                r.retryCount == orders[r.orderId].retryCount
      ensures forall o | o in old(orders) ::
                var row := old(orders)[o];
                if row.status == Processing && row.updatedAt < old(clock) - settings.timeout &&
                   row.retryCount < settings.maxRetries then
                  && o in OrderIds(reclaimed)
                  && orders[o].status == (if row.retryCount + 1 == settings.maxRetries then DeadLetter
                                          else PendingRecheck)
                  && orders[o].retryCount == row.retryCount + 1 && orders[o].claimToken.None?
                  && orders[o].recheckAt == row.recheckAt && orders[o].updatedAt == old(clock)
                else
                  o !in OrderIds(reclaimed) && orders[o] == row
    {
      reclaimed := [];
      ghost var before := Contents();
      var rest := orders.Keys;
      NothingSwept(settings, before);
      hide PartlySwept, ListsStuck;
      while rest != {}
        invariant clock == before.clock
        invariant PartlySwept(settings, before, orders, rest, reclaimed)
        decreases rest
      {
        var o :| o in rest;
        SweptOne(settings, before, orders, rest, reclaimed, o);
        var row := orders[o];
        if row.status == Processing && row.updatedAt < clock - settings.timeout &&
           row.retryCount < settings.maxRetries {
          var status := if row.retryCount + 1 >= settings.maxRetries then DeadLetter else PendingRecheck;
          orders := orders[o := row.(status := status, retryCount := row.retryCount + 1, claimToken := None,
                                     updatedAt := clock)];
          reclaimed := reclaimed + [Reclaimed(o, status, row.retryCount + 1)];
        }
        rest := rest - {o};
      }
      AllSwept(settings, before, orders, reclaimed);
      clock := clock + 1;
    }

    /** The orphans, earliest deadline first, at most `limit` of them. */
    method ListOrphanedPending(settings: Settings, limit: nat) returns (orderIds: seq<string>)
      ensures ListsOrphans(settings, Contents(), limit, orderIds)
      ensures forall o | o in orderIds ::
                && o in orders && orders[o].status == PendingRecheck && orders[o].recheckAt.Some?
                && orders[o].recheckAt.value < clock - settings.grace
      ensures forall i, j | 0 <= i < j < |orderIds| ::
                orders[orderIds[i]].recheckAt.value <= orders[orderIds[j]].recheckAt.value
      ensures forall o | o in orders && o !in orderIds ::
                orders[o].status == PendingRecheck && orders[o].recheckAt.Some? &&
                orders[o].recheckAt.value < clock - settings.grace ==>
                  && |orderIds| == limit
                  && forall p | p in orderIds :: orders[p].recheckAt.value <= orders[o].recheckAt.value
    {
      orderIds := [];
      var rest := set o | o in orders && IsOrphan(settings, Contents(), o);
      while rest != {} && |orderIds| < limit
        invariant |orderIds| <= limit
        invariant Distinct(orderIds)
        invariant forall o | o in orderIds :: IsOrphan(settings, Contents(), o) && o !in rest
        invariant forall i, j | 0 <= i < j < |orderIds| :: Due(Contents(), orderIds[i], orderIds[j])
        invariant forall o | o in rest :: IsOrphan(settings, Contents(), o)
        invariant forall o | o in orders && IsOrphan(settings, Contents(), o) :: o in rest || o in orderIds
        invariant forall p, o | p in orderIds && o in rest :: Due(Contents(), p, o)
        decreases rest
      {
        var next := EarliestOf(rest, settings);
        orderIds := orderIds + [next];
        rest := rest - {next};
      }
    }

    method EarliestOf(rest: set<string>, settings: Settings) returns (next: string)
      requires rest != {}
      requires forall o | o in rest :: IsOrphan(settings, Contents(), o)
      ensures next in rest
      ensures forall o | o in rest :: Due(Contents(), next, o)
    {
      next :| next in rest;
      var others := rest - {next};
      while others != {}
        invariant others <= rest
        invariant next in rest
        invariant forall o | o in rest && o !in others :: Due(Contents(), next, o)
        decreases others
      {
        var o :| o in others;
        if orders[o].recheckAt.value < orders[next].recheckAt.value {
          next := o;
        }
        others := others - {o};
      }
    }
  }

  function OrderIds(reclaimed: seq<Reclaimed>): (ids: seq<string>)
    ensures |ids| == |reclaimed|
    ensures forall i | 0 <= i < |ids| :: ids[i] == reclaimed[i].orderId
  {
    seq(|reclaimed|, i requires 0 <= i < |reclaimed| => reclaimed[i].orderId)
  }

  /** How far one statement's reclaim has come: the rows in `rest` are still to be seen. */
  ghost predicate PartlySwept(settings: Settings, before: Db, orders: map<string, Row>, rest: set<string>,
                              reclaimed: seq<Reclaimed>)
  {
    var ids := OrderIds(reclaimed);
    && rest <= orders.Keys == before.orders.Keys
    && Distinct(ids)
    && (forall o | o in ids :: IsStuck(settings, before, o) && o !in rest)
    && (forall o | o in before.orders && o !in rest && IsStuck(settings, before, o) :: o in ids)
    && (forall o | o in before.orders ::
          orders[o] == if o in ids then ReclaimedRow(settings, before.orders[o], before.clock) else before.orders[o])
    && (forall r | r in reclaimed ::
          r.orderId in orders && r.newStatus == orders[r.orderId].status &&
          r.retryCount == orders[r.orderId].retryCount)
  }

  lemma NothingSwept(settings: Settings, before: Db)
    ensures PartlySwept(settings, before, before.orders, before.orders.Keys, [])
  {
  }

  lemma AllSwept(settings: Settings, before: Db, orders: map<string, Row>, reclaimed: seq<Reclaimed>)
    requires PartlySwept(settings, before, orders, {}, reclaimed)
    ensures ListsStuck(settings, before, OrderIds(reclaimed))
    ensures orders.Keys == before.orders.Keys
    ensures forall o | o in before.orders ::
              orders[o] == if o in OrderIds(reclaimed) then ReclaimedRow(settings, before.orders[o], before.clock)
                           else before.orders[o]
    ensures forall r | r in reclaimed ::
              r.orderId in orders && r.newStatus == orders[r.orderId].status &&
              r.retryCount == orders[r.orderId].retryCount
    ensures forall o | o in before.orders ::
              var row := before.orders[o];
              if row.status == Processing && row.updatedAt < before.clock - settings.timeout &&
                 row.retryCount < settings.maxRetries then
                && o in OrderIds(reclaimed)
                && orders[o].status == (if row.retryCount + 1 == settings.maxRetries then DeadLetter
                                        else PendingRecheck)
                && orders[o].retryCount == row.retryCount + 1 && orders[o].claimToken.None?
                && orders[o].recheckAt == row.recheckAt && orders[o].updatedAt == before.clock
              else
                o !in OrderIds(reclaimed) && orders[o] == row
  {
  }

  /** What seeing one more row comes to, stuck or not. */
  lemma SweptOne(settings: Settings, before: Db, orders: map<string, Row>, rest: set<string>,
                 reclaimed: seq<Reclaimed>, o: string)
    requires PartlySwept(settings, before, orders, rest, reclaimed) && o in rest
    ensures o in orders && orders[o] == before.orders[o]
    ensures var row := ReclaimedRow(settings, orders[o], before.clock);
            if IsStuck(settings, before, o)
            then PartlySwept(settings, before, orders[o := row], rest - {o},
                             reclaimed + [Reclaimed(o, row.status, row.retryCount)])
            else PartlySwept(settings, before, orders, rest - {o}, reclaimed)
  {
    hide ReclaimedRow;
    var row := ReclaimedRow(settings, orders[o], before.clock);
    AppendId(reclaimed, Reclaimed(o, row.status, row.retryCount));
    assert forall r | r in reclaimed :: r.orderId in OrderIds(reclaimed);
  }

  lemma AppendId(reclaimed: seq<Reclaimed>, r: Reclaimed)
    ensures OrderIds(reclaimed + [r]) == OrderIds(reclaimed) + [r.orderId]
  {
  }
}
