/** What one order's share of the log, the claims and the review queue says. */
module LogFacts {
  import opened Models
  import opened Tables
  import AuditIds
  import Text
  import ViewFold

  /** What the normalizer guarantees of every event, and ids the provider may not use. */
  predicate EventOk(event: Event) {
    && !Text.Blank(event.orderId)
    && event.source != System
    && !AuditIds.IsSystemId(event.eventId)
    && event.currency != Some("")
  }

  /** The events of `orderId` the log records, oldest first. */
  function EventsOf(audit: seq<AuditRow>, orderId: string): seq<Event> {
    if audit == [] then []
    else
      var n := |audit| - 1;
      var before := EventsOf(audit[..n], orderId);
      if audit[n].payload.Some? && audit[n].payload.value.orderId == orderId
      then before + [audit[n].payload.value] else before
  }

  /** The view a replay of the log gives. */
  function ViewAt(audit: seq<AuditRow>, orderId: string): OrderView {
    ViewFold.Fold(EmptyView(orderId), EventsOf(audit, orderId))
  }

  function AcceptedIn(audit: seq<AuditRow>, orderId: string): seq<Event> {
    ViewFold.Accepted(EmptyView(orderId), EventsOf(audit, orderId))
  }

  /** How many rows the worker itself wrote about `orderId`: rechecks and reclaims. */
  function SystemRows(audit: seq<AuditRow>, orderId: string): nat {
    if audit == [] then 0
    else
      var n := |audit| - 1;
      SystemRows(audit[..n], orderId) +
      if audit[n].entry.orderId == orderId && audit[n].entry.source == System then 1 else 0
  }

  function ClaimsOf(claims: seq<Claim>, orderId: string): nat {
    if claims == [] then 0
    else
      var n := |claims| - 1;
      ClaimsOf(claims[..n], orderId) + if claims[n].orderId == orderId then 1 else 0
  }

  predicate IsDeadLetterOf(item: ReviewItem, orderId: string) {
    item.reason == DeadLetterReview && item.orderId == Some(orderId)
  }

  function DeadLetters(reviews: seq<ReviewItem>, orderId: string): nat {
    if reviews == [] then 0
    else
      var n := |reviews| - 1;
      DeadLetters(reviews[..n], orderId) + if IsDeadLetterOf(reviews[n], orderId) then 1 else 0
  }

  lemma AuditAppend(audit: seq<AuditRow>, row: AuditRow, orderId: string)
    ensures EventsOf(audit + [row], orderId) ==
            EventsOf(audit, orderId) +
            (if row.payload.Some? && row.payload.value.orderId == orderId then [row.payload.value] else [])
    ensures SystemRows(audit + [row], orderId) ==
            SystemRows(audit, orderId) +
            (if row.entry.orderId == orderId && row.entry.source == System then 1 else 0)
    ensures forall id :: Logged(audit + [row], id) <==> Logged(audit, id) || row.entry.eventId == id
  {
    assert (audit + [row])[..|audit|] == audit;
    forall id ensures Logged(audit + [row], id) <==> Logged(audit, id) || row.entry.eventId == id {
      if Logged(audit, id) {
        var i :| 0 <= i < |audit| && audit[i].entry.eventId == id;
        assert (audit + [row])[i].entry.eventId == id;
      }
      assert (audit + [row])[|audit|] == row;
    }
  }

  lemma ClaimsAppend(claims: seq<Claim>, claim: Claim, orderId: string)
    ensures ClaimsOf(claims + [claim], orderId) ==
            ClaimsOf(claims, orderId) + if claim.orderId == orderId then 1 else 0
  {
    assert (claims + [claim])[..|claims|] == claims;
  }

  lemma ReviewsAppend(reviews: seq<ReviewItem>, item: ReviewItem, orderId: string)
    ensures DeadLetters(reviews + [item], orderId) ==
            DeadLetters(reviews, orderId) + if IsDeadLetterOf(item, orderId) then 1 else 0
    ensures forall id :: Filed(reviews + [item], id) <==>
                         Filed(reviews, id) || (id.Some? && item.eventId == id)
  {
    assert (reviews + [item])[..|reviews|] == reviews;
    forall id ensures Filed(reviews + [item], id) <==> Filed(reviews, id) || (id.Some? && item.eventId == id) {
      if Filed(reviews, id) {
        var i :| 0 <= i < |reviews| && reviews[i].eventId == id;
        assert (reviews + [item])[i].eventId == id;
      }
      assert (reviews + [item])[|reviews|] == item;
    }
  }
}
