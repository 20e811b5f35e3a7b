/** The life of a booking, read off its tables: which call moves it, its verdict and its payment
    from where to where, for whom and until when, and which refusal is given otherwise. */
module Lifecycle {
  import opened Common
  import opened NightBuckets
  import opened Inventory

  // ---------- status ----------

  /** A booking that exists becomes CONFIRMED by a reviewer's approval of a review, or by a success
      notice that finds its payment unsettled, if notices confirm; and by nothing else. */
  lemma BecomesConfirmedIff(cfg: Config, db: Db, a: Action, id: Id)
    requires id in db.bookings && db.bookings[id].status != CONFIRMED
    ensures id in Step(cfg, db, a).bookings
    ensures Step(cfg, db, a).bookings[id].status == CONFIRMED <==>
              || (a == DoApprove(id) && db.bookings[id].status == REVIEW && id in db.verdicts)
              || (a == DoPaymentSucceeded(id, true) && id in db.payments && db.payments[id] in {Unpaid, Failed})
  {
    StatusMoves(cfg, db, a, id);
  }

  /** It becomes PAID by such a notice, if notices do not confirm. */
  lemma BecomesPaidIff(cfg: Config, db: Db, a: Action, id: Id)
    requires id in db.bookings && db.bookings[id].status != PAID
    ensures id in Step(cfg, db, a).bookings
    ensures Step(cfg, db, a).bookings[id].status == PAID <==>
              a == DoPaymentSucceeded(id, false) && id in db.payments && db.payments[id] in {Unpaid, Failed}
  {
    StatusMoves(cfg, db, a, id);
  }

  /** It becomes a plain HOLD by the approval of its pending fraud case, out of review; and no step
      sends a booking into review. */
  lemma BecomesHeldIff(cfg: Config, db: Db, a: Action, id: Id)
    requires id in db.bookings
    ensures id in Step(cfg, db, a).bookings
    ensures db.bookings[id].status != HOLD ==>
              (Step(cfg, db, a).bookings[id].status == HOLD <==>
                 a == DoFraudDecide(id, true) && db.bookings[id].status == REVIEW
                 && id in db.verdicts && db.verdicts[id] == PENDING)
    ensures db.bookings[id].status != REVIEW ==> Step(cfg, db, a).bookings[id].status != REVIEW
  {
    StatusMoves(cfg, db, a, id);
  }

  /** It becomes CANCELLED by a decline of a review, by a rejection of its pending fraud case, by its
      guest's cancellation of a hold or review, or by the expiry job after its deadline. */
  lemma BecomesCancelledIff(cfg: Config, db: Db, a: Action, id: Id)
    requires id in db.bookings && db.bookings[id].status != CANCELLED
    ensures id in Step(cfg, db, a).bookings
    ensures var b := db.bookings[id];
            Step(cfg, db, a).bookings[id].status == CANCELLED <==>
              || (a == DoDecline(id) && b.status == REVIEW && id in db.verdicts)
              || (a == DoFraudDecide(id, false) && b.status == REVIEW
                  && id in db.verdicts && db.verdicts[id] == PENDING)
              || (a == DoCancelHold(b.customer, id) && b.status in {HOLD, REVIEW})
              || (a.DoExpire? && a.id == id && b.status in {HOLD, REVIEW}
                  && b.holdExpiresAt.Some? && b.holdExpiresAt.value < a.now)
  {
    StatusMoves(cfg, db, a, id);
  }

  /** It becomes REFUNDED by its guest's cancellation once it is paid or confirmed, or by a full mock
      refund of a payment that has succeeded. */
  lemma BecomesRefundedIff(cfg: Config, db: Db, a: Action, id: Id)
    requires id in db.bookings && db.bookings[id].status != REFUNDED
    ensures id in Step(cfg, db, a).bookings
    ensures var b := db.bookings[id];
            Step(cfg, db, a).bookings[id].status == REFUNDED <==>
              || (a == DoCancelPaid(b.customer, id) && b.status in {PAID, CONFIRMED})
              || (a == DoMockRefund(b.customer, id, true) && id in db.payments && db.payments[id] == Succeeded)
  {
    StatusMoves(cfg, db, a, id);
  }

  /** Nothing but the status and the deadline of a booking ever changes, and the deadline only
      vanishes: with a reviewer's approval, or when a success notice moves the booking. */
  lemma RestStays(cfg: Config, db: Db, a: Action, id: Id)
    requires id in db.bookings
    ensures id in Step(cfg, db, a).bookings
    ensures var b, b' := db.bookings[id], Step(cfg, db, a).bookings[id];
            && b'.prop == b.prop && b'.customer == b.customer && b'.checkIn == b.checkIn && b'.checkOut == b.checkOut
            && b'.totalPrice == b.totalPrice
            && b'.holdExpiresAt ==
                 if b'.status != b.status && (a.DoApprove? || a.DoPaymentSucceeded?) then None else b.holdExpiresAt
  {
    StatusMoves(cfg, db, a, id);
  }

  /** Where one step takes one booking. */
  ghost predicate Moves(db: Db, a: Action, id: Id, b: Booking, b': Booking) {
    match a
    case DoApprove(x) =>
      b' == if x == id && b.status.REVIEW? && id in db.verdicts
            then b.(status := CONFIRMED, holdExpiresAt := None) else b
    case DoDecline(x) => b' == if x == id && b.status.REVIEW? && id in db.verdicts then b.(status := CANCELLED) else b
    case DoExpire(x, now) => b' == if x == id && Overdue(b, now) then b.(status := CANCELLED) else b
    case DoCancelHold(user, x) =>
      b' == if x == id && user == b.customer && (b.status.HOLD? || b.status.REVIEW?) then b.(status := CANCELLED) else b
    case DoCancelPaid(user, x) =>
      b' == if x == id && user == b.customer && (b.status.PAID? || b.status.CONFIRMED?)
            then b.(status := REFUNDED) else b
    case DoFraudDecide(x, approve) =>
      b' == if x == id && b.status.REVIEW? && id in db.verdicts && db.verdicts[id].PENDING?
            then b.(status := if approve then HOLD else CANCELLED) else b
    case DoPaymentSucceeded(x, auto) =>
      b' == if x == id && id in db.payments && (db.payments[id].Unpaid? || db.payments[id].Failed?)
               && b.status != (if auto then CONFIRMED else PAID)
            then b.(status := if auto then CONFIRMED else PAID, holdExpiresAt := None) else b
    case DoMockRefund(user, x, full) =>
      b' == if x == id && user == b.customer && full && id in db.payments && db.payments[id].Succeeded?
            then b.(status := REFUNDED) else b
    case _ => b' == b
  }

  lemma StatusMoves(cfg: Config, db: Db, a: Action, id: Id)
    requires id in db.bookings
    ensures id in Step(cfg, db, a).bookings && Moves(db, a, id, db.bookings[id], Step(cfg, db, a).bookings[id])
  {
    match a
    case DoFraudDecide(x, approve) => FraudMoves(cfg, db, x, approve, id);
    case DoPaymentSucceeded(x, auto) => NoticeMoves(cfg, db, x, auto, id);
    case DoMockRefund(user, x, full) => RefundMoves(cfg, db, user, x, full, id);
    case _ =>
  }

  lemma FraudMoves(cfg: Config, db: Db, x: Id, approve: bool, id: Id)
    requires id in db.bookings
    ensures var a := DoFraudDecide(x, approve);
            id in Step(cfg, db, a).bookings && Moves(db, a, id, db.bookings[id], Step(cfg, db, a).bookings[id])
  {
  }

  lemma NoticeMoves(cfg: Config, db: Db, x: Id, auto: bool, id: Id)
    requires id in db.bookings
    ensures var a := DoPaymentSucceeded(x, auto);
            id in Step(cfg, db, a).bookings && Moves(db, a, id, db.bookings[id], Step(cfg, db, a).bookings[id])
  {
    if x in db.payments && !Settled(db, x) { assert db.payments[x].Unpaid? || db.payments[x].Failed?; }
  }

  lemma RefundMoves(cfg: Config, db: Db, user: string, x: Id, full: bool, id: Id)
    requires id in db.bookings
    ensures var a := DoMockRefund(user, x, full);
            id in Step(cfg, db, a).bookings && Moves(db, a, id, db.bookings[id], Step(cfg, db, a).bookings[id])
  {
  }

  // ---------- verdicts and payments ----------

  /** A verdict is reached by a reviewer on a review, whatever it was, or by the fraud module on a
      pending case of a review; it is approved or rejected as decided, and no other step on an
      existing booking touches it. */
  lemma VerdictMovesIff(cfg: Config, db: Db, a: Action, id: Id)
    requires id in db.bookings && id in db.verdicts
    ensures var v, verdicts' := db.verdicts[id], Step(cfg, db, a).verdicts;
            var review := db.bookings[id].status == REVIEW;
            && id in verdicts'
            && verdicts'[id] ==
                 if review && (a == DoApprove(id) || (a == DoFraudDecide(id, true) && v == PENDING)) then APPROVED
                 else if review && (a == DoDecline(id) || (a == DoFraudDecide(id, false) && v == PENDING)) then REJECTED
                 else v
  {
  }

  /** A payment succeeds only by a notice that finds it unsettled, is refunded only when it has
      succeeded, by its guest's cancellation or the mock refund, and otherwise changes only when
      it is recorded anew. */
  lemma PaymentMovesIff(cfg: Config, db: Db, a: Action, id: Id)
    requires id in db.bookings && id in db.payments && !a.DoPaymentRecord?
    ensures var p, b, payments' := db.payments[id], db.bookings[id], Step(cfg, db, a).payments;
            && id in payments'
            && payments'[id] ==
                 if a.DoPaymentSucceeded? && a.id == id && p in {Unpaid, Failed} then Succeeded
                 else if p == Succeeded && ((a == DoCancelPaid(b.customer, id) && b.status in {PAID, CONFIRMED})
                                            || (a.DoMockRefund? && a.id == id && a.user == b.customer)) then Refunded
                 else p
  {
    if a.DoPaymentSucceeded? && a.id == id { PaidBy(cfg, db, id, a.autoConfirm); }
    if a.DoPaymentSucceeded? && a.id != id { PaidElsewhere(cfg, db, a.id, a.autoConfirm, id); }
  }

  lemma PaidBy(cfg: Config, db: Db, id: Id, auto: bool)
    requires id in db.bookings && id in db.payments
    ensures Step(cfg, db, DoPaymentSucceeded(id, auto)).payments
            == if db.payments[id] in {Unpaid, Failed} then db.payments[id := Succeeded] else db.payments
  {
    if !Settled(db, id) { assert db.payments[id].Unpaid? || db.payments[id].Failed?; }
  }

  lemma PaidElsewhere(cfg: Config, db: Db, x: Id, auto: bool, id: Id)
    requires id in db.payments && x != id
    ensures var payments' := Step(cfg, db, DoPaymentSucceeded(x, auto)).payments;
            id in payments' && payments'[id] == db.payments[id]
  {
  }

  // ---------- deadlines ----------

  /** Holds and reviews have a deadline, paid and confirmed bookings have none. */
  ghost predicate DeadlinesSet(db: Db) {
    forall id :: id in db.bookings ==>
      && (db.bookings[id].status in {HOLD, REVIEW} ==> db.bookings[id].holdExpiresAt.Some?)
      && (db.bookings[id].status in {PAID, CONFIRMED} ==> db.bookings[id].holdExpiresAt.None?)
  }

  lemma StepDeadlines(cfg: Config, db: Db, a: Action)
    requires DeadlinesSet(db)
    ensures DeadlinesSet(Step(cfg, db, a))
  {
    var db' := Step(cfg, db, a);
    forall id | id in db'.bookings
      ensures db'.bookings[id].status in {HOLD, REVIEW} ==> db'.bookings[id].holdExpiresAt.Some?
      ensures db'.bookings[id].status in {PAID, CONFIRMED} ==> db'.bookings[id].holdExpiresAt.None?
    {
      if id in db.bookings {
        StatusMoves(cfg, db, a, id);
      } else if a.DoHold? {
        NewDeadline(cfg, db, a, id);
      } else if a.DoUpsertDay? {
      } else if a.id in db.bookings {
        OneBookingStep(cfg, db, a);
      } else {
        NoBookingStep(cfg, db, a);
      }
    }
  }

  lemma NewDeadline(cfg: Config, db: Db, a: Action, id: Id)
    requires a.DoHold? && id !in db.bookings && id in Step(cfg, db, a).bookings
    ensures var b := Step(cfg, db, a).bookings[id];
            b.status in {HOLD, REVIEW, CANCELLED} && (b.status in {HOLD, REVIEW} ==> b.holdExpiresAt.Some?)
  {
    var rows, b := AcceptedHold(cfg, db, a.id, a.user, a.prop, a.from, a.to, a.fa, a.now);
    TakeNightsFrame(db, a.id, b);
  }

  /** In every run: the expiry job can reach every hold and review, and no paid or confirmed
      booking. */
  lemma {:induction false} RunDeadlines(cfg: Config, db: Db, acts: seq<Action>)
    requires DeadlinesSet(db)
    ensures DeadlinesSet(Run(cfg, db, acts))
    decreases |acts|
  {
    if acts != [] {
      StepDeadlines(cfg, db, acts[0]);
      RunDeadlines(cfg, Step(cfg, db, acts[0]), acts[1..]);
    }
  }

  // ---------- refusals ----------

  /** Which refusal a reviewer gets. */
  lemma ReviewRefuses(db: Db, id: Id)
    ensures ReviewApproveTx(db, id).Err? <==> ReviewDeclineTx(db, id).Err?
    ensures ReviewApproveTx(db, id).Err? ==> ReviewApproveTx(db, id) == ReviewDeclineTx(db, id)
    ensures ReviewApproveTx(db, id) == Err(WrongStatus) <==> id in db.bookings && db.bookings[id].status != REVIEW
    ensures ReviewApproveTx(db, id) == Err(NotFound) <==>
              id !in db.bookings || (db.bookings[id].status == REVIEW && id !in db.verdicts)
    ensures ReviewApproveTx(db, id).Ok? <==> id in db.bookings && db.bookings[id].status == REVIEW && id in db.verdicts
  {
  }

  /** Which refusal a guest gets who cancels. */
  lemma CancelRefuses(db: Db, user: string, id: Id)
    ensures CancelHoldTx(db, user, id) == Err(NotFound) <==> id !in db.bookings
    ensures CancelPaidTx(db, user, id) == Err(NotFound) <==> id !in db.bookings
    ensures id in db.bookings ==>
              var b := db.bookings[id];
              && (CancelHoldTx(db, user, id) == Err(Forbidden) <==> b.customer != user)
              && (CancelPaidTx(db, user, id) == Err(Forbidden) <==> b.customer != user)
              && (CancelHoldTx(db, user, id) == Err(WrongStatus) <==>
                    b.customer == user && b.status !in {HOLD, REVIEW})
              && (CancelPaidTx(db, user, id) == Err(WrongStatus) <==>
                    b.customer == user && b.status !in {PAID, CONFIRMED})
              && (CancelHoldTx(db, user, id).Ok? <==> b.customer == user && b.status in {HOLD, REVIEW})
              && (CancelPaidTx(db, user, id).Ok? <==> b.customer == user && b.status in {PAID, CONFIRMED})
  {
  }

  /** Which refusal the mock refund and the fraud decision give; a case decided already is left as
      it is without one. */
  lemma RefundRefuses(cfg: Config, db: Db, user: string, id: Id, full: bool, approve: bool)
    ensures MockRefundTx(db, user, id, full) == Err(NotFound) <==> id !in db.payments || id !in db.bookings
    ensures MockRefundTx(db, user, id, full) == Err(Forbidden) <==>
              id in db.payments && id in db.bookings && db.bookings[id].customer != user
    ensures MockRefundTx(db, user, id, full) == Err(NotSettled) <==>
              id in db.payments && id in db.bookings && db.bookings[id].customer == user && db.payments[id] != Succeeded
    ensures id in db.verdicts && db.verdicts[id] != PENDING ==> FraudDecideTx(cfg, db, id, approve) == Ok(db)
    ensures id !in db.verdicts ==> FraudDecideTx(cfg, db, id, approve) == Err(NotFound)
    ensures id in db.verdicts && db.verdicts[id] == PENDING && id in db.bookings && db.bookings[id].status != REVIEW ==>
              FraudDecideTx(cfg, db, id, approve) == Err(WrongStatus)
  {
  }

  // ---------- the calendar ----------

  /** What one calendar item makes of its row: a blocked day has nothing left, what is not given
      stays as it was, and on a new day it is nothing left and not blocked; a new day needs a
      price, and numbers below zero are refused. */
  lemma UpsertMakes(db: Db, s: Slot, price: Option<int>, remaining: Option<int>, blocked: Option<bool>)
    ensures var r := UpsertDayTx(db, s, price, remaining, blocked);
            var negative := (price.Some? && price.value < 0) || (remaining.Some? && remaining.value < 0);
            && (r == Err(BadNumber) <==> negative)
            && (r == Err(PriceRequired) <==> !negative && s !in db.days && price == None)
            && (r.Err? ==> r.error == BadNumber || r.error == PriceRequired)
            && (r.Ok? ==>
                  && r.value.bookings == db.bookings && r.value.payments == db.payments
                  && r.value.verdicts == db.verdicts
                  && s in r.value.days && r.value.days == db.days[s := r.value.days[s]]
                  && var row := r.value.days[s];
                     && (price.Some? ==> row.price == price.value) && (price.None? ==> row.price == db.days[s].price)
                     && (blocked == Some(true) ==> row.remaining == 0 && row.blocked)
                     && (blocked != Some(true) && remaining.Some? ==> row.remaining == remaining.value)
                     && (blocked != Some(true) && remaining.None? ==>
                           row.remaining == if s in db.days then db.days[s].remaining else 0)
                     && (blocked == Some(false) ==> !row.blocked)
                     && (blocked == None ==> row.blocked == (s in db.days && db.days[s].blocked)))
  {
  }
}
