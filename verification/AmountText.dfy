/** Which texts are amounts, and of how much: the two notations of reconcile_tool/parse.py,
spelled out in parts. */
module AmountText {
  import opened Models
  import opened Digits
  import opened Money

  /** The fraction with its point; an amount without one has no point. */
  function Fraction(frac: string): string {
    if frac == "" then "" else "." + frac
  }

  /** Digits, or digits, a point and digits. */
  predicate IsPlain(text: string, whole: string, frac: string) {
    whole != "" && AllDigits(whole) && AllDigits(frac) && text == whole + Fraction(frac)
  }

  predicate AreTriples(groups: seq<string>) {
    forall i | 0 <= i < |groups| :: |groups[i]| == 3 && AllDigits(groups[i])
  }

  function Joined(groups: seq<string>): string {
    if groups == [] then "" else "," + groups[0] + Joined(groups[1..])
  }

  function Run(groups: seq<string>): string {
    if groups == [] then "" else groups[0] + Run(groups[1..])
  }

  /** One to three digits, one or more groups of a comma and three, and perhaps a fraction. */
  predicate IsGrouped(text: string, head: string, groups: seq<string>, frac: string) {
    && 1 <= |head| <= 3 && AllDigits(head) && groups != [] && AreTriples(groups) && AllDigits(frac)
    && text == head + Joined(groups) + Fraction(frac)
  }

  // ------------------------------------------------------------------
  // Plain text
  // ------------------------------------------------------------------

  lemma PlainIsRead(text: string, whole: string, frac: string)
    requires IsPlain(text, whole, frac)
    ensures !HasThousands(text) && ParsePlain(text) == Some(Dec(false, Value(whole + frac), -|frac|))
  {
    if frac == "" {
      LeadingDigitsOf(whole, "");
      assert text == whole && whole + "" == whole && text[..|text|] == text;
      assert text[|text|..] == "";
    } else {
      assert text == whole + "." + frac;
      PlainParts(whole, frac);
    }
  }

  lemma ReadIsPlain(text: string) returns (whole: string, frac: string)
    requires ParsePlain(text).Some?
    ensures IsPlain(text, whole, frac)
  {
    var n := LeadingDigits(text);
    whole, frac := text[..n], if n == |text| then "" else text[n + 1..];
    assert n < |text| ==> text == text[..n] + "." + text[n + 1..];
    assert n == |text| ==> text[..n] == text && text + "" == text;
  }

  // ------------------------------------------------------------------
  // Grouped text
  // ------------------------------------------------------------------

  lemma OneGroup(group: string, rest: string)
    requires |group| == 3 && AllDigits(group)
    ensures CommaGroups("," + group + rest) == 1 + CommaGroups(rest)
    ensures WithoutCommas("," + group + rest) == group + WithoutCommas(rest)
  {
    var text := "," + group + rest;
    assert text[1..4] == group && text[4..] == rest;
    assert text[1..] == group + rest;
    DigitsKeepAll(group, rest);
  }

  lemma {:induction false} GroupsAreFound(groups: seq<string>, rest: string)
    requires AreTriples(groups)
    ensures CommaGroups(Joined(groups) + rest) == |groups| + CommaGroups(rest)
    ensures WithoutCommas(Joined(groups) + rest) == Run(groups) + WithoutCommas(rest)
    ensures |Joined(groups)| == 4 * |groups| && AllDigits(Run(groups))
    ensures groups != [] ==> Joined(groups)[0] == ','
  {
    hide CommaGroups, WithoutCommas;
    if groups == [] {
      assert Joined(groups) + rest == rest && Run(groups) + WithoutCommas(rest) == WithoutCommas(rest);
    } else {
      var more := Joined(groups[1..]) + rest;
      GroupsAreFound(groups[1..], rest);
      assert Joined(groups) + rest == "," + groups[0] + more;
      OneGroup(groups[0], more);
      assert Run(groups) + WithoutCommas(rest) == groups[0] + (Run(groups[1..]) + WithoutCommas(rest));
    }
  }

  lemma {:induction false} FoundAreGroups(text: string) returns (groups: seq<string>)
    ensures AreTriples(groups) && |groups| == CommaGroups(text)
    ensures text == Joined(groups) + text[4 * |groups|..]
  {
    groups := [];
    if CommaGroups(text) > 0 {
      var rest := FoundAreGroups(text[4..]);
      groups := [text[1..4]] + rest;
      assert groups[1..] == rest;
      assert text == "," + text[1..4] + text[4..];
      assert text[4..][4 * |rest|..] == text[4 * |groups|..];
      assert Joined(groups) == "," + text[1..4] + Joined(rest);
    } else {
      assert text == "" + text[0..];
    }
  }

  lemma {:induction false} DigitsKeepAll(text: string, rest: string)
    requires AllDigits(text)
    ensures WithoutCommas(text + rest) == text + WithoutCommas(rest)
  {
    if text == "" {
      assert text + rest == rest && "" + WithoutCommas(rest) == WithoutCommas(rest);
    } else {
      assert (text + rest)[1..] == text[1..] + rest;
      DigitsKeepAll(text[1..], rest);
      assert text + WithoutCommas(rest) == [text[0]] + (text[1..] + WithoutCommas(rest));
    }
  }

  lemma FractionKeepsAll(frac: string)
    requires AllDigits(frac)
    ensures WithoutCommas(Fraction(frac)) == Fraction(frac)
  {
    if frac != "" {
      DigitsKeepAll(frac, "");
      assert frac + "" == frac && ("." + frac)[1..] == frac;
    }
  }

  lemma NoGroupInFraction(frac: string)
    ensures CommaGroups(Fraction(frac)) == 0
  {
  }

  lemma GroupedHasThousands(text: string, head: string, groups: seq<string>, frac: string)
    requires IsGrouped(text, head, groups, frac)
    ensures HasThousands(text)
  {
    var tail := Joined(groups) + Fraction(frac);
    GroupsAreFound(groups, Fraction(frac));
    NoGroupInFraction(frac);
    assert text == head + tail;
    hide Joined, CommaGroups, WithoutCommas, Run, LeadingDigits;
    LeadingDigitsOf(head, tail);
    assert text[|head|..] == tail;
    assert text[|head| + 4 * |groups|..] == Fraction(frac);
    if frac != "" { assert Fraction(frac)[1..] == frac; }
  }

  lemma RestIsFraction(rest: string)
    requires rest == "" || (rest[0] == '.' && |rest| > 1 && AllDigits(rest[1..]))
    ensures var frac := if rest == "" then "" else rest[1..]; AllDigits(frac) && rest == Fraction(frac)
  {
  }

  lemma Reassemble(text: string, n: nat, middle: string, k: nat)
    requires n + k <= |text| && text[n..] == middle + text[n..][k..]
    ensures text == text[..n] + middle + text[n + k..]
  {
    assert text[n..][k..] == text[n + k..];
    assert text == text[..n] + text[n..];
  }

  lemma HasThousandsIsGrouped(text: string) returns (head: string, groups: seq<string>, frac: string)
    requires HasThousands(text)
    ensures IsGrouped(text, head, groups, frac)
  {
    hide Joined, CommaGroups, LeadingDigits, Fraction, AllDigits, AreTriples;
    var n := LeadingDigits(text);
    head := text[..n];
    groups := FoundAreGroups(text[n..]);
    var rest := text[n + 4 * |groups|..];
    RestIsFraction(rest);
    frac := if rest == "" then "" else rest[1..];
    Reassemble(text, n, Joined(groups), 4 * |groups|);
  }

  // ------------------------------------------------------------------
  // Amounts
  // ------------------------------------------------------------------

  /** A plain text is the number its digits make, shifted by the length of the fraction. */
  lemma PlainAmount(text: string, whole: string, frac: string)
    requires IsPlain(text, whole, frac)
    ensures NumberIn(Written(text)) == Some(Dec(false, Value(whole + frac), -|frac|))
  {
    PlainIsRead(text, whole, frac);
    hide ParsePlain, HasThousands;
  }

  lemma DigitsAppend(a: string, b: string)
    requires AllDigits(a) && AllDigits(b)
    ensures AllDigits(a + b)
  {
  }

  lemma CommasGo(text: string, head: string, groups: seq<string>, frac: string)
    requires IsGrouped(text, head, groups, frac)
    ensures WithoutCommas(text) == head + Run(groups) + Fraction(frac)
    ensures AllDigits(Run(groups)) && AllDigits(head + Run(groups))
  {
    hide Joined, CommaGroups, WithoutCommas, Run, Fraction, AllDigits, AreTriples;
    var rest := Fraction(frac);
    var tail := Joined(groups) + rest;
    GroupsAreFound(groups, rest);
    FractionKeepsAll(frac);
    DigitsAppend(head, Run(groups));
    DigitsKeepAll(head, tail);
    assert text == head + tail;
    assert head + (Run(groups) + rest) == head + Run(groups) + rest;
  }

  /** A grouped text is that number without its commas. */
  lemma GroupedAmount(text: string, head: string, groups: seq<string>, frac: string)
    requires IsGrouped(text, head, groups, frac)
    ensures AllDigits(Run(groups)) && AllDigits(head + Run(groups) + frac)
    ensures NumberIn(Written(text)) == Some(Dec(false, Value(head + Run(groups) + frac), -|frac|))
  {
    hide ParsePlain, HasThousands, WithoutCommas, Value, Joined, Run, AllDigits, AreTriples;
    GroupedHasThousands(text, head, groups, frac);
    CommasGo(text, head, groups, frac);
    var whole := head + Run(groups);
    DigitsAppend(whole, frac);
    assert IsPlain(whole + Fraction(frac), whole, frac);
    PlainIsRead(whole + Fraction(frac), whole, frac);
  }

  ghost predicate IsSomePlain(text: string) {
    exists whole, frac :: IsPlain(text, whole, frac)
  }

  ghost predicate IsSomeGrouped(text: string) {
    exists head, groups, frac :: IsGrouped(text, head, groups, frac)
  }

  /** No other text is an amount. */
  lemma AmountIff(text: string)
    ensures NumberIn(Written(text)).Some? <==> IsSomePlain(text) || IsSomeGrouped(text)
  {
    if HasThousands(text) {
      var head, groups, frac := HasThousandsIsGrouped(text);
      GroupedAmount(text, head, groups, frac);
    } else {
      if ParsePlain(text).Some? {
        var whole, frac := ReadIsPlain(text);
      }
      if IsSomePlain(text) {
        var whole, frac :| IsPlain(text, whole, frac);
        PlainIsRead(text, whole, frac);
      }
      if IsSomeGrouped(text) {
        var head, groups, frac :| IsGrouped(text, head, groups, frac);
        GroupedHasThousands(text, head, groups, frac);
      }
    }
    hide HasThousands, ParsePlain, WithoutCommas, IsPlain, IsGrouped;
  }

  /** What exact conversion of a number is: below nothing it is refused as that, in whole paise
      it is that many, and otherwise refused as not whole. */
  lemma ExactPaiseIff(d: Dec, unit: AmountUnit, p: nat)
    ensures ExactPaise(d, unit) == Refused(Negative) <==> d.negative && d.coef > 0
    ensures ExactPaise(d, unit) == Exactly(p) <==>
            !(d.negative && d.coef > 0) && Denotes(if unit == Rupees then 100 * d.coef else d.coef, d.exp, p)
    ensures ExactPaise(d, unit).Refused? ==> ExactPaise(d, unit).error in {Negative, NotWholePaise}
  {
    IntegralIff(Scaled(d, unit), d.exp, p);
    hide Integral, Denotes;
  }

  /** Which cells are refused as no number, and which as no finite one. */
  lemma RefusedAsNoNumber(amount: Amount, unit: AmountUnit)
    ensures ToPaise(amount, unit) == Refused(NotANumber) <==>
            amount.Flag? || (amount.Written? && !IsSomePlain(amount.text) && !IsSomeGrouped(amount.text))
    ensures ToPaise(amount, unit) == Refused(NotAFiniteNumber) <==> amount.NotFinite?
    ensures amount.Number? ==> ToPaise(amount, unit) == Convert(amount.dec, unit)
  {
    if amount.Written? { AmountIff(amount.text); }
    hide ParsePlain, HasThousands, WithoutCommas, IsSomePlain, IsSomeGrouped, RoundedIntegral, Integral;
  }
}
