/** Promotions: previewing, reserving, applying and releasing a code on a booking, the
    usage counter behind a code's limit, and the saga handlers that drive them. */
module Promotion {
  import opened Common

  type Code = string
  type BookingId = string

  datatype Kind = PERCENT | FIXED

  /** `minNights` and `minTotal` of zero mean no minimum. */
  datatype Promo = Promo(kind: Kind, value: int, validFrom: Option<int>, validTo: Option<int>,
                         minNights: int, minTotal: int, usageLimit: Option<int>, usedCount: int, active: bool)

  datatype RedStatus = RESERVED | APPLIED | RELEASED

  datatype Redemption = Redemption(code: Code, user: string, amount: int, status: RedStatus)

  /** The part of a booking promotions look at; `open` stands for HOLD or REVIEW. */
  datatype Booking = Booking(customer: string, nights: int, totalPrice: int, open: bool,
                             promoCode: Option<Code>, discount: int)

  /** `retained` is a history variable: how many applied redemptions of a code were
      released without taking their use back. */
  datatype Store = Store(promos: map<Code, Promo>, reds: map<BookingId, Redemption>,
                         bookings: map<BookingId, Booking>, retained: map<Code, int>)

  datatype Error = BookingNotFound | NotOwner | NotOpen | HasPromotion | InvalidCode | NotYetValid | Expired
                 | TooFewNights | TotalTooLow

  datatype Quote = Quote(discount: int, finalPrice: int, nights: int)

  datatype Cause = CANCELLED | EXPIRED | REFUNDED | AUTO_DECLINED | REVIEW_DECLINED

  // ---------- discounts ----------

  function Discount(p: Promo, total: int): int {
    var d := if p.kind == PERCENT then (total * p.value) / 100 else p.value;
    if d > total then total else d
  }

  function BilledNights(b: Booking): int { if b.nights < 1 then 1 else b.nights }

  /** The checks `preview` and `applyOnHold` share. */
  function Eligible(p: Promo, b: Booking, now: int): Result<Quote, Error> {
    if !p.active then Err(InvalidCode)
    else if p.validFrom.Some? && now < p.validFrom.value then Err(NotYetValid)
    else if p.validTo.Some? && now > p.validTo.value then Err(Expired)
    else if p.minNights != 0 && BilledNights(b) < p.minNights then Err(TooFewNights)
    else if p.minTotal != 0 && b.totalPrice < p.minTotal then Err(TotalTooLow)
    else var d := Discount(p, b.totalPrice); Ok(Quote(d, b.totalPrice - d, BilledNights(b)))
  }

  function Preview(s: Store, id: BookingId, code: Code, now: int): Result<Quote, Error> {
    if id !in s.bookings then Err(BookingNotFound)
    else if code !in s.promos then Err(InvalidCode)
    else Eligible(s.promos[code], s.bookings[id], now)
  }

  // ---------- transactions ----------

  function ApplyTx(s: Store, id: BookingId, user: string, code: Code, now: int): Result<(Store, Quote), Error> {
    if id !in s.bookings then Err(BookingNotFound)
    else if s.bookings[id].customer != user then Err(NotOwner)
    else if !s.bookings[id].open then Err(NotOpen)
    else if s.bookings[id].promoCode.Some? then Err(HasPromotion)
    else if code !in s.promos then Err(InvalidCode)
    else
      var q := Eligible(s.promos[code], s.bookings[id], now);
      if q.Err? then Err(q.error)
      else if id in s.reds then Err(HasPromotion)
      else Ok((s.(reds := s.reds[id := Redemption(code, user, q.value.discount, RESERVED)],
                  bookings := s.bookings[id := s.bookings[id].(promoCode := Some(code), discount := q.value.discount)]),
               q.value))
  }

  function SetRed(s: Store, id: BookingId, st: RedStatus): Store
    requires id in s.reds
  {
    s.(reds := s.reds[id := s.reds[id].(status := st)])
  }

  function AddUse(s: Store, code: Code, n: int): Store
    requires code in s.promos
  {
    s.(promos := s.promos[code := s.promos[code].(usedCount := s.promos[code].usedCount + n)])
  }

  /** Only a reservation is confirmed: it takes a use if the limit allows one more, and is
      released otherwise. */
  function ConfirmTx(s: Store, id: BookingId): Store {
    if id !in s.reds || s.reds[id].status != RESERVED || s.reds[id].code !in s.promos then s
    else
      var p := s.promos[s.reds[id].code];
      if p.usageLimit.Some? && p.usedCount >= p.usageLimit.value then SetRed(s, id, RELEASED)
      else SetRed(AddUse(s, s.reds[id].code, 1), id, APPLIED)
  }

  /** Releases a reservation or an applied redemption and clears the booking; the use is
      taken back only when asked or when the booking was refunded, and never below zero. */
  function ReleaseTx(s: Store, id: BookingId, decreaseUsage: bool, cause: Cause): Store {
    if id !in s.reds || s.reds[id].status == RELEASED || id !in s.bookings || s.reds[id].code !in s.promos then s
    else
      var red := s.reds[id];
      var due := decreaseUsage || cause == REFUNDED;
      var t := SetRed(s, id, RELEASED);
      var u := if due && red.status == APPLIED && s.promos[red.code].usedCount > 0 then AddUse(t, red.code, -1) else t;
      u.(bookings := s.bookings[id := s.bookings[id].(promoCode := None, discount := 0)],
         retained := if !due && red.status == APPLIED then s.retained[red.code := Retained(s, red.code) + 1]
           else s.retained)
  }

  function Retained(s: Store, code: Code): int { if code in s.retained then s.retained[code] else 0 }

  // ---------- the account of a code ----------

  function AppliedSet(s: Store, code: Code): set<BookingId> {
    set id | id in s.reds && s.reds[id].code == code && s.reds[id].status == APPLIED
  }

  /** The counter of every code is the number of applied redemptions plus those released
      without taking the use back, and stays within the limit. */
  ghost predicate Accounted(s: Store) { forall code :: code in s.promos ==> CodeAccounted(s, code) }

  ghost predicate CodeAccounted(s: Store, code: Code)
    requires code in s.promos
  {
    && Retained(s, code) >= 0
    && s.promos[code].usedCount == |AppliedSet(s, code)| + Retained(s, code)
    && (s.promos[code].usageLimit.Some? ==> s.promos[code].usedCount <= s.promos[code].usageLimit.value)
  }

  /** Redemptions refer to existing codes and bookings (foreign keys). */
  ghost predicate Linked(s: Store) {
    forall id :: id in s.reds ==> s.reds[id].code in s.promos && id in s.bookings
  }

  datatype Action =
    | DoApply(id: BookingId, user: string, code: Code, now: int)
    | DoConfirm(id: BookingId)
    | DoRelease(id: BookingId, decreaseUsage: bool, cause: Cause)
    | DoEdit(code: Code, p: Promo)
    | DoBook(id: BookingId, b: Booking)
    | DoClose(id: BookingId)

  /** An administrator's edit touches anything but the counter; a booking enters without a
      promotion and may later leave HOLD/REVIEW for good. */
  function Step(s: Store, a: Action): Store {
    match a
    case DoApply(id, user, code, now) => var r := ApplyTx(s, id, user, code, now); if r.Ok? then r.value.0 else s
    case DoConfirm(id) => ConfirmTx(s, id)
    case DoRelease(id, decreaseUsage, cause) => ReleaseTx(s, id, decreaseUsage, cause)
    case DoEdit(code, p) =>
      s.(promos := s.promos[code := p.(usedCount := if code in s.promos then s.promos[code].usedCount else 0)])
    case DoBook(id, b) =>
      if id in s.bookings then s else s.(bookings := s.bookings[id := b.(promoCode := None, discount := 0)])
    case DoClose(id) => if id in s.bookings then s.(bookings := s.bookings[id := s.bookings[id].(open := false)]) else s
  }

  /** An edit must leave room for the uses already made; nothing else is asked of a step. */
  predicate KeepsRoom(s: Store, a: Action) {
    a.DoEdit? ==>
      && a.p.usageLimit.Some? ==> (if a.code in s.promos then s.promos[a.code].usedCount else 0) <= a.p.usageLimit.value
  }

  lemma AppliedAfter(s: Store, id: BookingId, r: Redemption, code: Code)
    requires id in s.reds ==> s.reds[id].code == r.code
    ensures |AppliedSet(s.(reds := s.reds[id := r]), code)|
         == |AppliedSet(s, code)| + (if r.code == code then (if r.status == APPLIED then 1 else 0)
                                                         - (if id in AppliedSet(s, code) then 1 else 0) else 0)
  {
    var before, after := AppliedSet(s, code), AppliedSet(s.(reds := s.reds[id := r]), code);
    if r.code == code && r.status == APPLIED {
      assert after == before + {id};
    } else {
      assert after == before - {id};
    }
  }

  lemma ApplyAccounted(s: Store, id: BookingId, user: string, code: Code, now: int)
    requires Accounted(s)
    ensures Accounted(Step(s, DoApply(id, user, code, now)))
  {
    var r := ApplyTx(s, id, user, code, now);
    if r.Ok? {
      var red := r.value.0.reds[id];
      forall c | c in s.promos ensures CodeAccounted(r.value.0, c) {
        assert CodeAccounted(s, c);
        AppliedAfter(s, id, red, c);
        assert AppliedSet(r.value.0, c) == AppliedSet(s.(reds := s.reds[id := red]), c);
      }
    }
  }

  lemma ConfirmAccounted(s: Store, id: BookingId)
    requires Accounted(s)
    ensures Accounted(ConfirmTx(s, id))
  {
    var s' := ConfirmTx(s, id);
    if s' != s {
      var red := s'.reds[id];
      forall c | c in s'.promos ensures CodeAccounted(s', c) {
        assert CodeAccounted(s, c);
        AppliedAfter(s, id, red, c);
        assert AppliedSet(s', c) == AppliedSet(s.(reds := s.reds[id := red]), c);
      }
    }
  }

  /** A due decrement never meets the guard that protects the counter from going below
      zero: an applied redemption is itself counted. */
  lemma DecrementNeverBlocked(s: Store, id: BookingId)
    requires Accounted(s) && Linked(s) && id in s.reds && s.reds[id].status == APPLIED
    ensures s.reds[id].code in s.promos && s.promos[s.reds[id].code].usedCount > 0
  {
    var code := s.reds[id].code;
    assert CodeAccounted(s, code);
    assert id in AppliedSet(s, code);
    SmallerSet({}, AppliedSet(s, code));
  }

  lemma ReleaseAccounted(s: Store, id: BookingId, decreaseUsage: bool, cause: Cause)
    requires Accounted(s) && Linked(s)
    ensures Accounted(ReleaseTx(s, id, decreaseUsage, cause))
  {
    var s' := ReleaseTx(s, id, decreaseUsage, cause);
    if s' != s {
      var red := s'.reds[id];
      if s.reds[id].status == APPLIED { DecrementNeverBlocked(s, id); }
      forall c | c in s'.promos ensures CodeAccounted(s', c) {
        assert CodeAccounted(s, c);
        AppliedAfter(s, id, red, c);
        assert AppliedSet(s', c) == AppliedSet(s.(reds := s.reds[id := red]), c);
      }
    }
  }

  lemma OtherAccounted(s: Store, a: Action)
    requires Accounted(s) && Linked(s) && KeepsRoom(s, a) && (a.DoEdit? || a.DoBook? || a.DoClose?)
    requires a.DoEdit? ==> a.code in s.promos || Retained(s, a.code) == 0
    ensures Accounted(Step(s, a))
  {
    var s' := Step(s, a);
    if a.DoEdit? && a.code !in s.promos {
      assert forall id :: id in s.reds ==> s.reds[id].code != a.code;
      assert AppliedSet(s, a.code) == {};
    }
    forall c | c in s'.promos ensures CodeAccounted(s', c) {
      assert AppliedSet(s', c) == AppliedSet(s, c);
      if c in s.promos { assert CodeAccounted(s, c); }
    }
  }

  ghost predicate Ledger(s: Store) {
    Accounted(s) && Linked(s) && forall code :: code in s.retained ==> code in s.promos
  }

  lemma StepLinked(s: Store, a: Action)
    requires Linked(s) && forall code :: code in s.retained ==> code in s.promos
    ensures Linked(Step(s, a)) && forall code :: code in Step(s, a).retained ==> code in Step(s, a).promos
  {
    StepKeepsLinks(s, a);
  }

  lemma StepKeepsLinks(s: Store, a: Action)
    requires Linked(s)
    ensures Linked(Step(s, a)) && s.promos.Keys <= Step(s, a).promos.Keys
  {
    var s' := Step(s, a);
    assert s.promos.Keys <= s'.promos.Keys && s.bookings.Keys <= s'.bookings.Keys;
    forall id | id in s'.reds ensures s'.reds[id].code in s'.promos && id in s'.bookings {
      if id in s.reds { assert s'.reds[id].code == s.reds[id].code; }
    }
  }

  lemma StepLedger(s: Store, a: Action)
    requires Ledger(s) && KeepsRoom(s, a)
    ensures Ledger(Step(s, a))
  {
    StepLinked(s, a);
    StepAccounted(s, a);
  }

  lemma StepAccounted(s: Store, a: Action)
    requires Ledger(s) && KeepsRoom(s, a)
    ensures Accounted(Step(s, a))
  {
    match a
    case DoApply(id, user, code, now) => ApplyAccounted(s, id, user, code, now);
    case DoConfirm(id) => ConfirmAccounted(s, id);
    case DoRelease(id, decreaseUsage, cause) => ReleaseAccounted(s, id, decreaseUsage, cause);
    case _ => OtherAccounted(s, a);
  }

  function Run(s: Store, acts: seq<Action>): Store
    decreases |acts|
  {
    if acts == [] then s else Run(Step(s, acts[0]), acts[1..])
  }

  ghost predicate AllKeepRoom(s: Store, acts: seq<Action>)
    decreases |acts|
  {
    acts == [] || (KeepsRoom(s, acts[0]) && AllKeepRoom(Step(s, acts[0]), acts[1..]))
  }

  const EMPTY: Store := Store(map[], map[], map[], map[])

  /** Over every run of the service, with limits that are not cut below the uses made: the
      counter is exactly accounted for, never negative and never above the limit. */
  lemma {:induction false} RunAccounted(s: Store, acts: seq<Action>)
    requires Ledger(s) && AllKeepRoom(s, acts)
    ensures Ledger(Run(s, acts))
    decreases |acts|
  {
    if acts != [] {
      StepLedger(s, acts[0]);
      RunAccounted(Step(s, acts[0]), acts[1..]);
    }
  }

  /** Why the edit needs room: the limit itself survives a step exactly then. */
  lemma EditKeepsLimitIff(s: Store, a: Action)
    requires Ledger(s) && a.DoEdit?
    ensures Ledger(Step(s, a)) <==> KeepsRoom(s, a)
  {
    if KeepsRoom(s, a) {
      StepLedger(s, a);
    } else {
      assert a.code in Step(s, a).promos;
    }
  }

  /** RELEASED is final: no step ever changes a released redemption. */
  lemma ReleasedIsFinal(s: Store, a: Action, id: BookingId)
    requires id in s.reds && s.reds[id].status == RELEASED
    ensures id in Step(s, a).reds && Step(s, a).reds[id] == s.reds[id]
  {
  }

  /** For a value of at least zero the discount lies between nothing and the whole price;
      it never exceeds the price whatever the value, and is negative for some price
      exactly when the value is. */
  lemma DiscountInRange(p: Promo, total: int)
    requires total >= 0
    ensures Discount(p, total) <= total
    ensures p.value >= 0 ==> 0 <= Discount(p, total)
    ensures p.value < 0 ==> Discount(p, 100) < 0
  {
    if p.value >= 0 { assert total * p.value >= 0; }
  }

  /** What the discount comes to: a percentage takes that share of the price, rounded down, and a
      fixed value takes the value, neither more than the price. */
  lemma DiscountIs(p: Promo, total: int)
    requires total >= 0 && p.value >= 0
    ensures p.kind == PERCENT && p.value <= 100 ==>
              100 * Discount(p, total) <= total * p.value < 100 * (Discount(p, total) + 1)
    ensures p.kind == PERCENT && p.value >= 100 ==> Discount(p, total) == total
    ensures p.kind == FIXED && p.value <= total ==> Discount(p, total) == p.value
    ensures p.kind == FIXED && p.value >= total ==> Discount(p, total) == total
  {
    if p.value <= 100 { assert total * p.value <= total * 100; }
    if p.value >= 100 { assert total * p.value >= total * 100; }
  }

  /** Which code is accepted for which booking: an active one, within its dates, both ends
      included, for a stay and a price that reach its minimums; a minimum of zero asks nothing,
      and a stay counts for one night at least. */
  lemma PreviewAcceptsIff(s: Store, id: BookingId, code: Code, now: int)
    ensures Preview(s, id, code, now).Ok? <==>
              && id in s.bookings && code in s.promos && s.promos[code].active
              && (s.promos[code].validFrom.Some? ==> s.promos[code].validFrom.value <= now)
              && (s.promos[code].validTo.Some? ==> now <= s.promos[code].validTo.value)
              && (s.promos[code].minNights == 0 || s.promos[code].minNights <= s.bookings[id].nights
                  || s.promos[code].minNights <= 1)
              && (s.promos[code].minTotal == 0 || s.promos[code].minTotal <= s.bookings[id].totalPrice)
    ensures Preview(s, id, code, now).Ok? ==>
              && Preview(s, id, code, now).value.finalPrice
                 == s.bookings[id].totalPrice - Discount(s.promos[code], s.bookings[id].totalPrice)
              && Preview(s, id, code, now).value.nights
                 == if s.bookings[id].nights >= 1 then s.bookings[id].nights else 1
  {
  }

  /** And which refusal is given: that of the first check failed. */
  lemma PreviewRefuses(s: Store, id: BookingId, code: Code, now: int)
    requires id in s.bookings && code in s.promos
    ensures var p, r := s.promos[code], Preview(s, id, code, now);
            && (r == Err(InvalidCode) <==> !p.active)
            && (r == Err(NotYetValid) <==> p.active && p.validFrom.Some? && now < p.validFrom.value)
            && (r == Err(Expired) ==> p.validTo.Some? && p.validTo.value < now)
            && (r == Err(TooFewNights) ==> s.bookings[id].nights < p.minNights)
            && (r == Err(TotalTooLow) ==> s.bookings[id].totalPrice < p.minTotal)
  {
  }

  /** Who may not apply a code at all, whatever the code: it is not their booking, or it is no
      longer in HOLD or REVIEW, or it has a promotion already. */
  lemma ApplyRefuses(s: Store, id: BookingId, user: string, code: Code, now: int)
    ensures var r := ApplyTx(s, id, user, code, now);
            && (r == Err(BookingNotFound) <==> id !in s.bookings)
            && (r == Err(NotOwner) <==> id in s.bookings && s.bookings[id].customer != user)
            && (r == Err(NotOpen) <==> id in s.bookings && s.bookings[id].customer == user && !s.bookings[id].open)
            && (r.Ok? ==> s.bookings[id].promoCode == None && id !in s.reds)
            && (r.Ok? ==> r.value.0 == s.(reds := r.value.0.reds, bookings := r.value.0.bookings)
                          && r.value.0.reds == s.reds[id := Redemption(code, user, r.value.1.discount, RESERVED)]
                          && r.value.0.bookings.Keys == s.bookings.Keys
                          && forall x :: x in s.bookings && x != id ==> r.value.0.bookings[x] == s.bookings[x])
  {
  }

  /** What paying does to a reservation: within the limit it is applied and takes one use, at the
      limit it is released and takes none; nothing else changes, and nothing at all without a
      reservation. */
  lemma ConfirmTakesUseIff(s: Store, id: BookingId)
    requires Linked(s)
    ensures var s' := ConfirmTx(s, id);
            if id in s.reds && s.reds[id].status == RESERVED then
              var code, p := s.reds[id].code, s.promos[s.reds[id].code];
              var room := p.usageLimit == None || p.usedCount < p.usageLimit.value;
              && s'.reds == s.reds[id := Redemption(code, s.reds[id].user, s.reds[id].amount,
                                                    if room then APPLIED else RELEASED)]
              && s'.promos.Keys == s.promos.Keys && s'.bookings == s.bookings
              && s'.promos[code] == p.(usedCount := p.usedCount + if room then 1 else 0)
              && (forall c :: c in s.promos && c != code ==> s'.promos[c] == s.promos[c])
            else s' == s
  {
  }

  /** What a release does to the codes: a use taken is given back when asked or when the booking
      was refunded, and otherwise kept. */
  lemma ReleaseGivesUseBackIff(s: Store, id: BookingId, decreaseUsage: bool, cause: Cause, c: Code)
    requires Linked(s) && Ledger(s) && c in s.promos
    ensures var s' := ReleaseTx(s, id, decreaseUsage, cause);
            && s'.promos.Keys == s.promos.Keys
            && s'.promos[c] == s.promos[c].(usedCount := s.promos[c].usedCount
                 - (if id in s.reds && s.reds[id].code == c && s.reds[id].status == APPLIED
                       && (decreaseUsage || cause == REFUNDED) then 1 else 0))
  {
    hide ReleaseTx, Accounted, Linked;
    if id in s.reds && s.reds[id].status == APPLIED {
      DecrementNeverBlocked(s, id);
      ReleasedPromos(s, id, decreaseUsage, cause);
    } else {
      NothingTaken(s, id, decreaseUsage, cause);
    }
  }

  lemma NothingTaken(s: Store, id: BookingId, decreaseUsage: bool, cause: Cause)
    requires id in s.reds ==> s.reds[id].status != APPLIED
    ensures ReleaseTx(s, id, decreaseUsage, cause).promos == s.promos
  {
  }

  lemma ReleasedPromos(s: Store, id: BookingId, decreaseUsage: bool, cause: Cause)
    requires Linked(s) && id in s.reds && s.reds[id].status == APPLIED
    requires s.reds[id].code in s.promos && s.promos[s.reds[id].code].usedCount > 0
    ensures var code := s.reds[id].code;
            ReleaseTx(s, id, decreaseUsage, cause).promos
            == if decreaseUsage || cause == REFUNDED
               then s.promos[code := s.promos[code].(usedCount := s.promos[code].usedCount - 1)] else s.promos
  {
  }

  /** And to the booking: its redemption is released and it has no promotion; no other redemption
      or booking changes, and nothing at all without a redemption to release. */
  lemma ReleaseClears(s: Store, id: BookingId, decreaseUsage: bool, cause: Cause)
    requires Linked(s)
    ensures var s' := ReleaseTx(s, id, decreaseUsage, cause);
            if id in s.reds && s.reds[id].status != RELEASED then
              && s'.reds == s.reds[id := Redemption(s.reds[id].code, s.reds[id].user, s.reds[id].amount, RELEASED)]
              && s'.bookings == s.bookings[id := s.bookings[id].(promoCode := None, discount := 0)]
            else s' == s
  {
  }

  /** What is reserved is what was previewed: when the guest may apply a code at all, the
      answer (quote or refusal) is the preview's, and the booking and the redemption carry
      exactly the previewed discount. */
  lemma PreviewAgreesWithApply(s: Store, id: BookingId, user: string, code: Code, now: int)
    requires id in s.bookings && s.bookings[id].customer == user && s.bookings[id].open
    requires s.bookings[id].promoCode.None? && id !in s.reds
    ensures var r, q := ApplyTx(s, id, user, code, now), Preview(s, id, code, now);
            && (r.Ok? <==> q.Ok?)
            && (r.Err? ==> r.error == q.error)
            && (r.Ok? ==>
                  var s' := r.value.0;
                  && r.value.1 == q.value && q.value.discount + q.value.finalPrice == s.bookings[id].totalPrice
                  && s'.bookings[id].discount == q.value.discount == s'.reds[id].amount
                  && s'.bookings[id].promoCode == Some(code) && s'.reds[id].status == RESERVED)
  {
  }

  /** Reserving, paying and refunding a booking leaves every counter where it was. */
  lemma RefundUndoesUse(s: Store, id: BookingId, user: string, code: Code, now: int)
    requires Ledger(s) && ApplyTx(s, id, user, code, now).Ok?
    ensures var paid := ConfirmTx(ApplyTx(s, id, user, code, now).value.0, id);
            ReleaseTx(paid, id, false, REFUNDED).promos == s.promos
  {
    assert s.promos[code].usedCount >= 0;
    RefundAfterPaid(ApplyTx(s, id, user, code, now).value.0, id);
  }

  lemma RefundAfterPaid(s: Store, id: BookingId)
    requires id in s.reds && s.reds[id].status == RESERVED && id in s.bookings
    requires s.reds[id].code in s.promos && s.promos[s.reds[id].code].usedCount >= 0
    ensures ReleaseTx(ConfirmTx(s, id), id, false, REFUNDED).promos == s.promos
  {
  }

  // ---------- the service ----------

  class PromotionService {
    var promos: map<Code, Promo>
    var reds: map<BookingId, Redemption>
    var bookings: map<BookingId, Booking>
    ghost var retained: map<Code, int>

    constructor ()
      ensures View() == EMPTY
    {
      promos, reds, bookings, retained := map[], map[], map[], map[];
    }

    ghost function View(): Store
      reads this
    {
      Store(promos, reds, bookings, retained)
    }

    /** The preview, with checks of its own that have to come to what applying checks. */
    method ShowPreview(id: BookingId, code: Code, now: int) returns (r: Result<Quote, Error>)
      ensures r == Preview(View(), id, code, now)
    {
      if id !in bookings { return Err(BookingNotFound); }
      if code !in promos || !promos[code].active { return Err(InvalidCode); }
      var b, p := bookings[id], promos[code];
      if p.validFrom.Some? && now < p.validFrom.value { return Err(NotYetValid); }
      if p.validTo.Some? && now > p.validTo.value { return Err(Expired); }
      var nights := if b.nights < 1 then 1 else b.nights;
      if p.minNights != 0 && nights < p.minNights { return Err(TooFewNights); }
      if p.minTotal != 0 && b.totalPrice < p.minTotal { return Err(TotalTooLow); }
      var discount := if p.kind == PERCENT then (b.totalPrice * p.value) / 100 else p.value;
      if discount > b.totalPrice { discount := b.totalPrice; }
      r := Ok(Quote(discount, b.totalPrice - discount, nights));
    }

    /** Preview, then apply, by the guest and at the same moment: the quote shown is the quote
        reserved, and a refusal shown is the refusal met. */
    method PreviewThenApply(id: BookingId, user: string, code: Code, now: int)
      returns (shown: Result<Quote, Error>, met: Result<Quote, Error>)
      requires id in bookings && bookings[id].customer == user && bookings[id].open
      requires bookings[id].promoCode.None? && id !in reds
      modifies this
      ensures shown == met
      ensures shown.Ok? ==> id in reds && reds[id] == Redemption(code, user, shown.value.discount, RESERVED)
      ensures shown.Err? ==> View() == old(View())
    {
      PreviewAgreesWithApply(View(), id, user, code, now);
      shown := ShowPreview(id, code, now);
      met := ApplyOnHold(id, user, code, now);
    }

    method ApplyOnHold(id: BookingId, user: string, code: Code, now: int) returns (r: Result<Quote, Error>)
      modifies this
      ensures var spec := ApplyTx(old(View()), id, user, code, now);
              && (r.Ok? <==> spec.Ok?)
              && (r.Ok? ==> View() == spec.value.0 && r.value == spec.value.1)
              && (r.Err? ==> View() == old(View()) && r.error == spec.error)
    {
      if id !in bookings { return Err(BookingNotFound); }
      var b := bookings[id];
      if b.customer != user { return Err(NotOwner); }
      if !b.open { return Err(NotOpen); }
      if b.promoCode.Some? { return Err(HasPromotion); }
      if code !in promos || !promos[code].active { return Err(InvalidCode); }
      var p := promos[code];
      if p.validFrom.Some? && now < p.validFrom.value { return Err(NotYetValid); }
      if p.validTo.Some? && now > p.validTo.value { return Err(Expired); }
      var nights := if b.nights < 1 then 1 else b.nights;
      if p.minNights != 0 && nights < p.minNights { return Err(TooFewNights); }
      if p.minTotal != 0 && b.totalPrice < p.minTotal { return Err(TotalTooLow); }
      var discount := if p.kind == PERCENT then (b.totalPrice * p.value) / 100 else p.value;
      if discount > b.totalPrice { discount := b.totalPrice; }
      if id in reds { return Err(HasPromotion); }
      reds := reds[id := Redemption(code, user, discount, RESERVED)];
      bookings := bookings[id := b.(promoCode := Some(code), discount := discount)];
      r := Ok(Quote(discount, b.totalPrice - discount, nights));
    }

    method ConfirmOnPaid(id: BookingId) returns (result: Option<RedStatus>)
      requires id in reds ==> reds[id].code in promos
      modifies this
      ensures View() == ConfirmTx(old(View()), id)
      ensures result == if old(View()) == View() then None else Some(reds[id].status)
    {
      if id !in reds || reds[id].status != RESERVED { return None; }
      var code := reds[id].code;
      var p := promos[code];
      if p.usageLimit.Some? {
        if !(p.usedCount < p.usageLimit.value) {
          reds := reds[id := reds[id].(status := RELEASED)];
          assert old(reds)[id].status != reds[id].status;
          return Some(RELEASED);
        }
        promos := promos[code := p.(usedCount := p.usedCount + 1)];
      } else {
        promos := promos[code := p.(usedCount := p.usedCount + 1)];
      }
      reds := reds[id := reds[id].(status := APPLIED)];
      assert old(reds)[id].status != reds[id].status;
      return Some(APPLIED);
    }

    method ReleaseOnCancelOrExpire(id: BookingId, decreaseUsage: bool, cause: Cause) returns (released: bool)
      requires id in reds ==> reds[id].code in promos && id in bookings
      modifies this
      ensures View() == ReleaseTx(old(View()), id, decreaseUsage, cause)
      ensures released <==> id in old(reds) && old(reds)[id].status != RELEASED
    {
      if id !in reds || reds[id].status == RELEASED { return false; }
      var red := reds[id];
      var shouldDecrease := decreaseUsage || cause == REFUNDED;
      reds := reds[id := red.(status := RELEASED)];
      if shouldDecrease && red.status == APPLIED {
        if promos[red.code].usedCount > 0 {
          promos := promos[red.code := promos[red.code].(usedCount := promos[red.code].usedCount - 1)];
        }
      } else if red.status == APPLIED {
        retained := retained[red.code := Retained(View(), red.code) + 1];
      }
      bookings := bookings[id := bookings[id].(promoCode := None, discount := 0)];
      return true;
    }
  }
}
