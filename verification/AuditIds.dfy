/** The ids of the audit rows the worker writes about its own actions. */
module AuditIds {
  import Digits

  const SYSTEM := "system:"
  const RECHECK := "system:recheck:"
  const SWEEP := "system:sweep:stuck:"

  predicate IsSystemId(id: string) { SYSTEM <= id }

  function RecheckId(orderId: string, token: nat): string {
    RECHECK + orderId + ":" + Digits.Print(token)
  }

  function SweepId(orderId: string, retryCount: nat): string {
    SWEEP + orderId + ":" + Digits.Print(retryCount)
  }

  lemma SystemIds(orderId: string, n: nat)
    ensures IsSystemId(RecheckId(orderId, n)) && IsSystemId(SweepId(orderId, n))
  {
  }

  lemma KindsDiffer(o1: string, n1: nat, o2: string, n2: nat)
    ensures RecheckId(o1, n1) != SweepId(o2, n2)
  {
    assert RecheckId(o1, n1)[7] == RECHECK[7] == 'r';
    assert SweepId(o2, n2)[7] == SWEEP[7] == 's';
  }

  /** The last colon separates the order id from the number, whatever the order id holds. */
  lemma SplitIsUnique(prefix: string, o1: string, n1: nat, o2: string, n2: nat)
    requires prefix + o1 + ":" + Digits.Print(n1) == prefix + o2 + ":" + Digits.Print(n2)
    ensures o1 == o2 && n1 == n2
  {
    var d1, d2 := Digits.Print(n1), Digits.Print(n2);
    var text := prefix + o1 + ":" + d1;
    LastColon(prefix + o1, n1);
    LastColon(prefix + o2, n2);
    assert |d1| == |d2|;
    assert d1 == text[|text| - |d1|..] == d2;
    assert o1 == text[|prefix|..|text| - |d1| - 1] == o2;
    Digits.PrintValue(n1);
    Digits.PrintValue(n2);
  }

  lemma LastColon(head: string, n: nat)
    ensures var text, d := head + ":" + Digits.Print(n), Digits.Print(n);
            && text[|text| - |d| - 1] == ':'
            && forall i | |text| - |d| <= i < |text| :: text[i] != ':'
  {
    var text, d := head + ":" + Digits.Print(n), Digits.Print(n);
    forall i | |text| - |d| <= i < |text| ensures text[i] != ':' {
      assert text[i] == d[i - (|text| - |d|)];
    }
  }

  /** Distinct (order, token) and (order, retry count) pairs get distinct ids. */
  lemma IdsAreInjective(o1: string, n1: nat, o2: string, n2: nat)
    ensures RecheckId(o1, n1) == RecheckId(o2, n2) ==> o1 == o2 && n1 == n2
    ensures SweepId(o1, n1) == SweepId(o2, n2) ==> o1 == o2 && n1 == n2
  {
    if RecheckId(o1, n1) == RecheckId(o2, n2) { SplitIsUnique(RECHECK, o1, n1, o2, n2); }
    if SweepId(o1, n1) == SweepId(o2, n2) { SplitIsUnique(SWEEP, o1, n1, o2, n2); }
  }
}
