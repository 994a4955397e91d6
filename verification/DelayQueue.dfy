/** The delay queue for armed rechecks: a hint of when to look, never the authority. */
module DelayQueue {
  import opened Models
  import Ordering

  function Pushed(scores: map<string, int>, orderId: string, when: int, onlyIfEarlier: bool): map<string, int> {
    if onlyIfEarlier && orderId in scores && scores[orderId] <= when then scores
    else scores[orderId := when]
  }

  /** The order of `sorted((score, order_id))`. */
  predicate Before(scores: map<string, int>, a: string, b: string) {
    a in scores && b in scores &&
    (scores[a] < scores[b] || (scores[a] == scores[b] && Ordering.Less(a, b)))
  }

  predicate IsReady(scores: map<string, int>, now: int, orderId: string) {
    orderId in scores && scores[orderId] <= now
  }

  /** The first `limit` due entries, in order: nothing due is left out unless the list is
      full of earlier ones. */
  predicate IsDue(scores: map<string, int>, now: int, limit: nat, ready: seq<string>) {
    && |ready| <= limit
    && (forall i | 0 <= i < |ready| :: IsReady(scores, now, ready[i]))
    && (forall i, j | 0 <= i < j < |ready| :: Before(scores, ready[i], ready[j]))
    && (forall o | o in scores && IsReady(scores, now, o) && o !in ready ::
          |ready| == limit && forall i | 0 <= i < |ready| :: Before(scores, ready[i], o))
  }

  lemma BeforeIsStrictOrder(scores: map<string, int>, a: string, b: string, c: string)
    requires a in scores && b in scores && c in scores
    ensures !(Before(scores, a, b) && Before(scores, b, a))
    ensures a != b ==> Before(scores, a, b) || Before(scores, b, a)
    ensures Before(scores, a, b) && Before(scores, b, c) ==> Before(scores, a, c)
  {
    Ordering.LessIsTotal(a, b);
    if Ordering.Less(a, b) && Ordering.Less(b, c) { Ordering.LessIsTransitive(a, b, c); }
  }

  /** `IsDue` leaves no freedom: there is one such list. */
  lemma {:induction false} DuePrefixIsUnique(scores: map<string, int>, now: int, limit: nat, a: seq<string>,
                                             b: seq<string>, k: nat)
    requires IsDue(scores, now, limit, a) && IsDue(scores, now, limit, b)
    requires k <= |a| && k <= |b|
    ensures a[..k] == b[..k]
  {
    if k > 0 {
      DuePrefixIsUnique(scores, now, limit, a, b, k - 1);
      var n := k - 1;
      assert a[..k] == a[..n] + [a[n]] && b[..k] == b[..n] + [b[n]];
      BeforeIsStrictOrder(scores, a[n], b[n], a[n]);
      NoneEarlier(scores, now, limit, a, b, n);
      NoneEarlier(scores, now, limit, b, a, n);
    }
  }

  /** A due entry before the one at `n` stands on the list before `n`. */
  lemma EarlierIsListed(scores: map<string, int>, now: int, limit: nat, ready: seq<string>, o: string, n: nat)
    requires IsDue(scores, now, limit, ready) && n < |ready|
    requires IsReady(scores, now, o) && Before(scores, o, ready[n])
    ensures exists i :: 0 <= i < n && ready[i] == o
  {
    BeforeIsStrictOrder(scores, o, ready[n], o);
    assert o in ready;
    var i :| 0 <= i < |ready| && ready[i] == o;
    BeforeIsStrictOrder(scores, ready[n], ready[i], ready[n]);
  }

  lemma NoneEarlier(scores: map<string, int>, now: int, limit: nat, a: seq<string>, b: seq<string>, n: nat)
    requires IsDue(scores, now, limit, a) && IsDue(scores, now, limit, b)
    requires n < |a| && n < |b| && a[..n] == b[..n]
    ensures !Before(scores, a[n], b[n])
  {
    if Before(scores, a[n], b[n]) {
      EarlierIsListed(scores, now, limit, b, a[n], n);
      var i :| 0 <= i < n && b[i] == a[n];
      assert a[..n][i] == b[..n][i];
      BeforeIsStrictOrder(scores, a[i], a[n], a[i]);
    }
  }

  lemma DueIsUnique(scores: map<string, int>, now: int, limit: nat, a: seq<string>, b: seq<string>)
    requires IsDue(scores, now, limit, a) && IsDue(scores, now, limit, b)
    ensures a == b
  {
    var k := if |a| <= |b| then |a| else |b|;
    DuePrefixIsUnique(scores, now, limit, a, b, k);
    if |a| < |b| {
      NothingAfter(scores, now, limit, a, b);
    } else if |b| < |a| {
      NothingAfter(scores, now, limit, b, a);
    } else {
      assert a == a[..k] && b == b[..k];
    }
  }

  lemma NothingAfter(scores: map<string, int>, now: int, limit: nat, a: seq<string>, b: seq<string>)
    requires IsDue(scores, now, limit, a) && IsDue(scores, now, limit, b)
    requires a <= b
    ensures |a| == |b|
  {
    if |a| < |b| {
      var extra := b[|a|];
      if extra in a {
        var i :| 0 <= i < |a| && a[i] == extra;
        assert b[i] == extra;
        BeforeIsStrictOrder(scores, b[i], b[|a|], b[i]);
      }
    }
  }

  // ------------------------------------------------------------------
  // The queue over its whole history
  // ------------------------------------------------------------------

  datatype Op = Push(orderId: string, when: int, onlyIfEarlier: bool) | Remove(orderId: string)

  function After(scores: map<string, int>, op: Op): map<string, int> {
    match op
    case Push(o, when, onlyIfEarlier) => Pushed(scores, o, when, onlyIfEarlier)
    case Remove(o) => scores - {o}
  }

  function Replay(ops: seq<Op>): map<string, int> {
    if ops == [] then map[] else After(Replay(ops[..|ops| - 1]), ops[|ops| - 1])
  }

  /** The deadlines pushed for an order since it was last removed or forcibly re-armed. */
  function Window(ops: seq<Op>, orderId: string): seq<int> {
    if ops == [] then []
    else
      var before, last := Window(ops[..|ops| - 1], orderId), ops[|ops| - 1];
      if last.orderId != orderId then before
      else match last
        case Remove(_) => []
        case Push(_, when, onlyIfEarlier) => if onlyIfEarlier then before + [when] else [when]
  }

  /** Repeat detections can only pull a deadline in: an order's score is the minimum of its
      window, and it is queued exactly while the window is not empty. */
  lemma {:induction false} ScoreIsEarliest(ops: seq<Op>, orderId: string)
    ensures orderId in Replay(ops) <==> Window(ops, orderId) != []
    ensures orderId in Replay(ops) ==>
              && Replay(ops)[orderId] in Window(ops, orderId)
              && forall when | when in Window(ops, orderId) :: Replay(ops)[orderId] <= when
  {
    if ops != [] {
      ScoreIsEarliest(ops[..|ops| - 1], orderId);
    }
  }

  class InMemoryDelayQueue {
    var scores: map<string, int>

    constructor ()
      ensures scores == map[]
    {
      scores := map[];
    }

    method Push(orderId: string, when: int, onlyIfEarlier: bool)
      modifies this
      ensures scores == After(old(scores), Op.Push(orderId, when, onlyIfEarlier))
    {
      if onlyIfEarlier && orderId in scores {
        scores := scores[orderId := if scores[orderId] <= when then scores[orderId] else when];
      } else {
        scores := scores[orderId := when];
      }
    }

    method Remove(orderId: string)
      modifies this
      ensures scores == After(old(scores), Op.Remove(orderId))
    {
      scores := scores - {orderId};
    }

    /** Sort the due entries, then take the first `limit`. */
    method Due(now: int, limit: nat) returns (ready: seq<string>)
      ensures IsDue(scores, now, limit, ready)
      ensures forall o | o in ready :: o in scores && scores[o] <= now
      ensures forall o | o in scores && scores[o] <= now && o !in ready ::
                |ready| == limit && forall p | p in ready :: scores[p] <= scores[o]
      ensures forall i, j | 0 <= i < j < |ready| :: scores[ready[i]] <= scores[ready[j]]
    {
      var all: seq<string> := [];
      var rest := set o | o in scores && scores[o] <= now;
      while rest != {}
        invariant forall o | o in rest :: IsReady(scores, now, o)
        invariant forall o :: IsReady(scores, now, o) <==> o in rest || o in all
        invariant forall i | 0 <= i < |all| :: IsReady(scores, now, all[i])
        invariant forall i, j | 0 <= i < j < |all| :: Before(scores, all[i], all[j])
        decreases rest
      {
        var o :| o in rest;
        all := Insert(scores, now, all, o);
        rest := rest - {o};
      }
      ready := if |all| <= limit then all else all[..limit];
      forall o | o in scores && IsReady(scores, now, o) && o !in ready
        ensures |ready| == limit && forall i | 0 <= i < |ready| :: Before(scores, ready[i], o)
      {
        var j :| 0 <= j < |all| && all[j] == o;
        assert j >= limit;
      }
    }

    static method Insert(scores: map<string, int>, now: int, all: seq<string>, o: string)
      returns (r: seq<string>)
      requires IsReady(scores, now, o)
      requires forall i | 0 <= i < |all| :: IsReady(scores, now, all[i])
      requires forall i, j | 0 <= i < j < |all| :: Before(scores, all[i], all[j])
      ensures forall x :: x in r <==> x in all || x == o
      ensures forall i | 0 <= i < |r| :: IsReady(scores, now, r[i])
      ensures forall i, j | 0 <= i < j < |r| :: Before(scores, r[i], r[j])
    {
      if o in all { return all; }
      var k := 0;
      while k < |all| && Before(scores, all[k], o)
        invariant 0 <= k <= |all|
        invariant forall i | 0 <= i < k :: Before(scores, all[i], o)
      {
        k := k + 1;
      }
      r := all[..k] + [o] + all[k..];
      if k < |all| {
        BeforeIsStrictOrder(scores, all[k], o, o);
        forall i | k < i < |all| ensures Before(scores, o, all[i]) {
          BeforeIsStrictOrder(scores, o, all[k], all[i]);
        }
      }
      forall x ensures x in r <==> x in all || x == o {
        assert all == all[..k] + all[k..];
      }
    }
  }
}
