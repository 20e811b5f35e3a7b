/** Refunds by the rules of a booking's cancellation policy. */
module Refunds {
  import opened Common
  import opened NightBuckets
  import opened Sorting

  datatype Rule = Rule(beforeDays: int, percent: int)

  predicate Met(days: int, r: Rule) { days >= r.beforeDays }

  function FirstMet(days: int, rules: seq<Rule>): Option<Rule> {
    if rules == [] then None else if Met(days, rules[0]) then Some(rules[0]) else FirstMet(days, rules[1..])
  }

  function PercentOf(r: Option<Rule>): int { if r.Some? then r.value.percent else 0 }

  /** Descending by days; the sort keeps the order of equal ones. */
  const DESCENDING: Order<Rule> := (a: Rule, b: Rule) => a.beforeDays >= b.beforeDays

  function Chosen(days: int, rules: seq<Rule>): Option<Rule> { FirstMet(days, Sorted(rules, DESCENDING)) }

  function Percent(days: int, rules: seq<Rule>): int { PercentOf(Chosen(days, rules)) }

  function Amount(total: int, percent: int): int { total * percent / 100 }

  // ---------- which rule applies ----------

  /** The strictest rule that is met, and the first of those with that many days. */
  ghost predicate IsStrictest(days: int, rules: seq<Rule>, i: nat) {
    && i < |rules| && Met(days, rules[i])
    && forall j :: 0 <= j < |rules| && Met(days, rules[j]) ==>
         rules[j].beforeDays < rules[i].beforeDays || (rules[j].beforeDays == rules[i].beforeDays && i <= j)
  }

  lemma DescendingTotal()
    ensures Total(DESCENDING)
  {
  }

  lemma {:induction false} FirstMetIn(days: int, rules: seq<Rule>)
    ensures FirstMet(days, rules).Some? ==>
            FirstMet(days, rules).value in rules && Met(days, FirstMet(days, rules).value)
    ensures FirstMet(days, rules).None? ==> forall r :: r in rules ==> !Met(days, r)
  {
    if rules != [] { FirstMetIn(days, rules[1..]); }
  }

  lemma {:induction false} InsertFirst(days: int, r: Rule, rules: seq<Rule>)
    requires IsSorted(rules, DESCENDING)
    ensures var f := FirstMet(days, rules);
            FirstMet(days, Insert(r, rules, DESCENDING))
            == if Met(days, r) && (f.None? || f.value.beforeDays <= r.beforeDays) then Some(r) else f
  {
    if rules != [] {
      FirstMetIn(days, rules);
      if DESCENDING(r, rules[0]) {
        assert ([r] + rules)[1..] == rules;
        var f := FirstMet(days, rules);
        if f.Some? {
          var i :| 0 <= i < |rules| && rules[i] == f.value;
          if i > 0 { assert DESCENDING(rules[0], rules[i]); }
        }
      } else {
        InsertFirst(days, r, rules[1..]);
        var rest := Insert(r, rules[1..], DESCENDING);
        assert ([rules[0]] + rest)[1..] == rest;
      }
    }
  }

  lemma ChosenOfOneMore(days: int, rules: seq<Rule>)
    requires rules != []
    ensures var f := Chosen(days, rules[1..]);
            Chosen(days, rules) == if Met(days, rules[0]) && (f.None? || f.value.beforeDays <= rules[0].beforeDays)
                                   then Some(rules[0]) else f
  {
    DescendingTotal();
    SortSorts(rules[1..], DESCENDING);
    InsertFirst(days, rules[0], Sorted(rules[1..], DESCENDING));
  }

  /** Sorting and taking the first rule that is met picks the strictest rule met, the first
      listed among equals; without any, nothing is refunded. */
  lemma {:induction false} StrictestRuleApplies(days: int, rules: seq<Rule>)
    ensures (forall r :: r in rules ==> !Met(days, r)) ==> Chosen(days, rules).None? && Percent(days, rules) == 0
    ensures forall i: nat :: IsStrictest(days, rules, i) ==> Chosen(days, rules) == Some(rules[i])
    ensures Chosen(days, rules).Some? ==> exists i: nat :: IsStrictest(days, rules, i)
  {
    if rules != [] {
      var rest := rules[1..];
      StrictestRuleApplies(days, rest);
      ChosenOfOneMore(days, rules);
      assert forall j :: 0 <= j < |rest| ==> rest[j] == rules[j + 1];
      if k: nat :| IsStrictest(days, rest, k) {
        assert Chosen(days, rest) == Some(rest[k]);
        if Met(days, rules[0]) && rest[k].beforeDays <= rules[0].beforeDays {
          assert IsStrictest(days, rules, 0);
        } else {
          assert IsStrictest(days, rules, k + 1);
        }
        StrictestUnique(days, rules);
      } else {
        if Met(days, rules[0]) {
          NoneMet(days, rest);
          assert IsStrictest(days, rules, 0);
          StrictestUnique(days, rules);
        } else {
          NoneMet(days, rest);
        }
      }
    }
  }

  lemma NoneMet(days: int, rules: seq<Rule>)
    requires forall i: nat :: !IsStrictest(days, rules, i)
    requires Chosen(days, rules).Some? ==> exists i: nat :: IsStrictest(days, rules, i)
    ensures forall r :: r in rules ==> !Met(days, r)
  {
    SortMembers(rules, DESCENDING);
    FirstMetIn(days, Sorted(rules, DESCENDING));
  }

  lemma StrictestUnique(days: int, rules: seq<Rule>)
    ensures forall i: nat, j: nat :: IsStrictest(days, rules, i) && IsStrictest(days, rules, j) ==> i == j
  {
  }

  // ---------- amounts ----------

  /** No refund is negative or more than was paid, when every rule is a percentage. */
  lemma RefundInRange(days: int, rules: seq<Rule>, total: int)
    requires total >= 0 && forall r :: r in rules ==> 0 <= r.percent <= 100
    ensures 0 <= Amount(total, Percent(days, rules)) <= total
  {
    SortMembers(rules, DESCENDING);
    FirstMetIn(days, Sorted(rules, DESCENDING));
    var p := Percent(days, rules);
    assert 0 <= p <= 100;
    ScaledInRange(total, p);
  }

  lemma ScaledInRange(total: int, p: int)
    requires total >= 0 && 0 <= p <= 100
    ensures 0 <= total * p <= total * 100
  {
  }

  /** Rules that refund more the earlier one cancels. */
  ghost predicate Generous(rules: seq<Rule>) {
    (forall r :: r in rules ==> r.percent >= 0)
    && forall a, b :: a in rules && b in rules && a.beforeDays < b.beforeDays ==> a.percent <= b.percent
  }

  /** With such rules, cancelling earlier never refunds less. */
  lemma EarlierRefundsNoLess(early: int, late: int, rules: seq<Rule>, total: int)
    requires early >= late && Generous(rules) && total >= 0
    ensures Amount(total, Percent(early, rules)) >= Amount(total, Percent(late, rules))
  {
    StrictestRuleApplies(early, rules);
    StrictestRuleApplies(late, rules);
    if Chosen(late, rules).Some? {
      var i: nat :| IsStrictest(late, rules, i);
      assert Met(early, rules[i]) && rules[i] in rules;
      if k: nat :| IsStrictest(early, rules, k) {
        assert rules[k] in rules;
        if rules[k].beforeDays == rules[i].beforeDays { assert Met(late, rules[k]); }
        ScaleGrows(total, rules[i].percent, rules[k].percent);
      } else {
        assert Chosen(early, rules).None?;
        NoneMet(early, rules);
      }
    } else {
      SortMembers(rules, DESCENDING);
      FirstMetIn(early, Sorted(rules, DESCENDING));
      ScaleGrows(total, 0, Percent(early, rules));
    }
  }

  lemma ScaleGrows(total: int, p: int, q: int)
    requires total >= 0 && p <= q
    ensures total * p <= total * q && Amount(total, p) <= Amount(total, q)
  {
    assert total * (q - p) >= 0;
  }

  // ---------- days before ----------

  /** Calendar days between the local midnights of the stay's and the cancellation's dates,
      counted on the calendar of the server. */
  function DaysBefore(z: Zone, server: Zone, checkIn: int, cancelAt: int): int {
    server.dateOf(Midnight(z, z.dateOf(checkIn))) - server.dateOf(Midnight(z, z.dateOf(cancelAt)))
  }

  /** Exactly when that is the number of days between the local dates: when the server, at a
      fixed offset, stands on the same side of both local midnights. */
  lemma DaysBeforeIff(z: Zone, serverOffset: int, checkIn: int, cancelAt: int)
    ensures var d, e := z.dateOf(checkIn), z.dateOf(cancelAt);
            DaysBefore(z, FixedZone(serverOffset), checkIn, cancelAt) == d - e
            <==> FloorDay(serverOffset - z.midnightOffset(d)) == FloorDay(serverOffset - z.midnightOffset(e))
  {
    var d, e := z.dateOf(checkIn), z.dateOf(cancelAt);
    ShiftedDay(d, serverOffset - z.midnightOffset(d));
    ShiftedDay(e, serverOffset - z.midnightOffset(e));
  }

  /** In a zone that never changes its offset the server therefore does not matter. */
  lemma ServerDoesNotMatter(off: int, serverOffset: int, checkIn: int, cancelAt: int)
    ensures var z := FixedZone(off);
            DaysBefore(z, FixedZone(serverOffset), checkIn, cancelAt) == z.dateOf(checkIn) - z.dateOf(cancelAt)
  {
    DaysBeforeIff(FixedZone(off), serverOffset, checkIn, cancelAt);
  }

  /** A stay from day 8, cancelled at noon of day 1, seven local days before; a server at UTC
      counts six, and a rule for seven days refunds nothing instead of everything. */
  lemma SpringCancellation()
    ensures var checkIn, cancelAt := Midnight(LONDON, 8), MS_PER_DAY + 12 * HOUR;
            var rules := [Rule(7, 100)];
            && LONDON.dateOf(checkIn) - LONDON.dateOf(cancelAt) == 7
            && DaysBefore(LONDON, FixedZone(0), checkIn, cancelAt) == 6
            && Percent(7, rules) == 100 && Percent(6, rules) == 0
  {
    var rules := [Rule(7, 100)];
    assert rules[1..] == [];
    assert Sorted(rules, DESCENDING) == rules;
    LondonDate(MS_PER_DAY + 12 * HOUR);
    LondonDate(Midnight(LONDON, 8));
    ShiftedDay(1, 13 * HOUR);
    ShiftedDay(8, 0);
    ShiftedDay(8, -HOUR);
    assert LONDON.dateOf(MS_PER_DAY + 12 * HOUR) == 1 && Midnight(LONDON, 1) == MS_PER_DAY;
    assert Midnight(LONDON, 8) == 8 * MS_PER_DAY - HOUR && LONDON.dateOf(Midnight(LONDON, 8)) == 8;
    assert FixedZone(0).dateOf(8 * MS_PER_DAY - HOUR) == FloorDay(8 * MS_PER_DAY - HOUR + 0) == 7;
    assert FixedZone(0).dateOf(MS_PER_DAY) == FloorDay(MS_PER_DAY + 0) == 1;
    assert FirstMet(7, rules) == Some(rules[0]) && FirstMet(6, rules) == None;
  }

  // ---------- the services ----------

  /** The loop over the sorted rules. */
  method RefundPercentByRules(daysBefore: int, rules: seq<Rule>) returns (percent: int)
    ensures percent == PercentOf(FirstMet(daysBefore, rules))
  {
    for i := 0 to |rules|
      invariant FirstMet(daysBefore, rules) == FirstMet(daysBefore, rules[i..])
    {
      if daysBefore >= rules[i].beforeDays { return rules[i].percent; }
    }
    percent := 0;
  }

  /** What a preview shows, and what a cancellation at the same moment refunds. */
  method PreviewRefund(z: Zone, server: Zone, checkIn: int, cancelAt: int, rules: seq<Rule>, totalPrice: int)
    returns (percent: int, refundAmount: int)
    ensures forall i: nat :: IsStrictest(DaysBefore(z, server, checkIn, cancelAt), rules, i) ==>
            percent == rules[i].percent
    ensures (forall r :: r in rules ==> !Met(DaysBefore(z, server, checkIn, cancelAt), r)) ==> percent == 0
    ensures refundAmount == Amount(totalPrice, percent)
    ensures 100 * refundAmount <= totalPrice * percent < 100 * refundAmount + 100
  {
    var daysBefore := DaysBefore(z, server, checkIn, cancelAt);
    StrictestRuleApplies(daysBefore, rules);
    if rules == [] { return 0, 0; }
    percent := RefundPercentByRules(daysBefore, Sorted(rules, DESCENDING));
    refundAmount := totalPrice * percent / 100;
  }
}
