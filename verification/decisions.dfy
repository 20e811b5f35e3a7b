/** Decisions taken outside the bookings service: a fraud reviewer's verdict, a payment
    provider's notices and the mock refund, over the same tables. */
module Decisions {
  import opened Common
  import opened NightBuckets
  import opened Inventory
  import Bookings
  import InventoryCases

  /** The rows dated at one of the given instants. */
  function DatedAt(days: map<Slot, Row>, prop: string, dates: seq<int>): set<Slot> {
    set s | s in days && s.prop == prop && s.day * MS_PER_DAY in dates
  }

  lemma OneMoreDate(days: map<Slot, Row>, prop: string, dates: seq<int>, k: nat)
    requires k < |dates|
    ensures DatedAt(days, prop, dates[..k + 1])
            == DatedAt(days, prop, dates[..k])
               + (set s | s in days && s == Slot(prop, dates[k] / MS_PER_DAY) && dates[k] % MS_PER_DAY == 0)
  {
    assert dates[..k + 1] == dates[..k] + [dates[k]];
  }

  lemma ShiftOneMore(days: map<Slot, Row>, rows: set<Slot>, s: Slot)
    requires s in days && s !in rows
    ensures Shift(days, rows + {s}, 1) == Shift(days, rows, 1)[s := days[s].(remaining := days[s].remaining + 1)]
  {
  }

  class FraudService {
    const tables: Bookings.BookingsService

    constructor (tables: Bookings.BookingsService)
      ensures this.tables == tables
    {
      this.tables := tables;
    }

    /** One update per server-local midnight of the stay, by equality of the row's date. */
    method ReturnByEquality(b: Booking)
      modifies tables`days
      ensures tables.days == Shift(old(tables.days), EqualitySet(tables.cfg, old(tables.days), b), 1)
    {
      ghost var days0 := tables.days;
      var dates := EachDayOfInterval(tables.cfg.serverOffset, b.checkIn, b.checkOut - MS_PER_DAY);
      assert Shift(days0, {}, 1) == days0;
      for k := 0 to |dates|
        invariant tables.days == Shift(days0, DatedAt(days0, b.prop, dates[..k]), 1)
      {
        OneMoreDate(days0, b.prop, dates, k);
        var s := Slot(b.prop, dates[k] / MS_PER_DAY);
        if dates[k] % MS_PER_DAY == 0 && s in tables.days {
          assert s.day * MS_PER_DAY == dates[k] && dates[k] !in dates[..k];
          ShiftOneMore(days0, DatedAt(days0, b.prop, dates[..k]), s);
          tables.days := tables.days[s := tables.days[s].(remaining := tables.days[s].remaining + 1)];
          assert DatedAt(days0, b.prop, dates[..k + 1]) == DatedAt(days0, b.prop, dates[..k]) + {s};
        } else {
          assert DatedAt(days0, b.prop, dates[..k + 1]) == DatedAt(days0, b.prop, dates[..k]);
        }
      }
      assert dates[..|dates|] == dates;
      assert DatedAt(days0, b.prop, dates) == EqualitySet(tables.cfg, days0, b);
    }

    /** A reviewer's decision; a case already decided is left as it is. */
    method Decide(id: Id, approve: bool) returns (r: Result<(), Error>)
      modifies tables
      ensures tables.View() == Commit(old(tables.View()), FraudDecideTx(tables.cfg, old(tables.View()), id, approve))
      ensures r.Ok? <==> FraudDecideTx(tables.cfg, old(tables.View()), id, approve).Ok?
      ensures tables.stock == old(tables.stock) && tables.payments == old(tables.payments)
    {
      if id !in tables.verdicts { return Err(NotFound); }
      if tables.verdicts[id] != PENDING { return Ok(()); }
      if id !in tables.bookings { return Err(NotFound); }
      var b := tables.bookings[id];
      if b.status != REVIEW { return Err(WrongStatus); }
      tables.verdicts := tables.verdicts[id := if approve then APPROVED else REJECTED];
      if approve {
        tables.bookings := tables.bookings[id := b.(status := HOLD)];
        assert Shift(tables.days, {}, 0) == tables.days;
      } else {
        ReturnByEquality(b);
        tables.bookings := tables.bookings[id := b.(status := CANCELLED)];
        SameStayRows(tables.cfg, old(tables.days), b, b.(status := CANCELLED));
      }
      r := Ok(());
    }
  }

  // ---------- payments ----------

  datatype Notice = Success | Failure | RefundDone | RefundFailed

  /** A notice about the payment of booking `id`. */
  function NoticeTx(db: Db, id: Id, n: Notice, autoConfirm: bool): Result<Db, Error> {
    if id !in db.payments then Err(NotFound)
    else
      match n
      case Success => PaymentSucceededTx(db, id, autoConfirm)
      case Failure => Ok(if db.payments[id] == Unpaid then db.(payments := db.payments[id := Failed]) else db)
      case RefundDone => Ok(db.(payments := db.payments[id := Refunded]))
      case RefundFailed => Ok(db)
  }

  /** A payment intent: the one payment of a booking is created, or reset, to unpaid; neither
      its status nor the booking's is looked at. */
  function IntentTx(db: Db, user: string, id: Id): Result<Db, Error> {
    if id !in db.bookings then Err(NotFound)
    else if db.bookings[id].customer != user then Err(Forbidden)
    else if db.bookings[id].totalPrice <= 0 then Err(BadNumber)
    else Ok(db.(payments := db.payments[id := Unpaid]))
  }

  /** A delivery: the provider's event id, and what it reports. */
  datatype Delivery = Delivery(event: string, id: Id, n: Notice)

  /** `looking` holds the deliveries past their duplicate lookup and before their transaction. */
  datatype Hook = Hook(db: Db, processed: set<string>, looking: map<nat, Delivery>)

  datatype Turn =
    | Look(c: nat, d: Delivery)
    | Apply(c: nat)
    | Drop(c: nat)
    | Intent(user: string, id: Id)

  /** The lookup stands before the transaction, so two deliveries of one event may both pass
      it; the mark is written with the effect, and a mark that is there already is no error. */
  function Advance(h: Hook, autoConfirm: bool, turn: Turn): Hook {
    match turn
    case Look(c, d) =>
      if c in h.looking || d.event in h.processed then h else h.(looking := h.looking[c := d])
    case Apply(c) => if c in h.looking then Applied(h, autoConfirm, c, h.looking[c]) else h
    case Drop(c) => h.(looking := h.looking - {c})
    case Intent(user, id) => h.(db := Commit(h.db, IntentTx(h.db, user, id)))
  }

  function Applied(h: Hook, autoConfirm: bool, c: nat, d: Delivery): Hook {
    var r := NoticeTx(h.db, d.id, d.n, autoConfirm);
    if r.Err? then h.(looking := h.looking - {c}) else Hook(r.value, h.processed + {d.event}, h.looking - {c})
  }

  function Schedule(h: Hook, autoConfirm: bool, turns: seq<Turn>): Hook
    decreases |turns|
  {
    if turns == [] then h else Schedule(Advance(h, autoConfirm, turns[0]), autoConfirm, turns[1..])
  }

  /** An intent that is accepted for booking `id`. */
  predicate Resets(h: Hook, turn: Turn, id: Id) {
    turn.Intent? && turn.id == id && IntentTx(h.db, turn.user, id).Ok?
  }

  ghost predicate NeverResets(h: Hook, autoConfirm: bool, turns: seq<Turn>, id: Id)
    decreases |turns|
  {
    turns == [] ||
    (!Resets(h, turns[0], id) && NeverResets(Advance(h, autoConfirm, turns[0]), autoConfirm, turns[1..], id))
  }

  /** Payments only move forward: settled ones stay settled, refunded ones refunded. */
  predicate PaymentForward(a: PayStatus, b: PayStatus) {
    (a in {Succeeded, Refunded} ==> b in {Succeeded, Refunded}) && (a == Refunded ==> b == Refunded)
  }

  predicate SameBooking(db: Db, db': Db, id: Id) {
    id in db.bookings && id in db'.bookings && db'.bookings[id] == db.bookings[id]
  }

  lemma NoticeSettled(db: Db, at: Id, n: Notice, autoConfirm: bool, id: Id)
    requires Settled(db, id) && id in db.bookings
    ensures var db' := Commit(db, NoticeTx(db, at, n, autoConfirm));
            Settled(db', id) && PaymentForward(db.payments[id], db'.payments[id]) && SameBooking(db, db', id)
  {
  }

  lemma AdvanceSettled(h: Hook, autoConfirm: bool, turn: Turn, id: Id)
    requires Settled(h.db, id) && id in h.db.bookings && !Resets(h, turn, id)
    ensures var db' := Advance(h, autoConfirm, turn).db;
            Settled(db', id) && PaymentForward(h.db.payments[id], db'.payments[id]) && SameBooking(h.db, db', id)
  {
    if turn.Apply? && turn.c in h.looking {
      var d := h.looking[turn.c];
      NoticeSettled(h.db, d.id, d.n, autoConfirm, id);
    }
  }

  /** The state a success notice takes a booking to. */
  function Target(autoConfirm: bool): Status { if autoConfirm then CONFIRMED else PAID }

  /** What the turn hears about booking `id`. */
  function Heard(h: Hook, turn: Turn, id: Id): Option<Notice> {
    if turn.Apply? && turn.c in h.looking && h.looking[turn.c].id == id then Some(h.looking[turn.c].n) else None
  }

  lemma NoticePayment(db: Db, at: Id, n: Notice, autoConfirm: bool, id: Id)
    requires id in db.payments
    ensures var payments' := Commit(db, NoticeTx(db, at, n, autoConfirm)).payments;
            && id in payments'
            && payments'[id] ==
                 if at != id then db.payments[id]
                 else if n == Success && db.payments[id] in {Unpaid, Failed} && id in db.bookings then Succeeded
                 else if n == Failure && db.payments[id] == Unpaid then Failed
                 else if n == RefundDone then Refunded
                 else db.payments[id]
  {
  }

  lemma NoticeBooking(db: Db, at: Id, n: Notice, autoConfirm: bool, id: Id)
    requires id in db.bookings
    ensures var db', b := Commit(db, NoticeTx(db, at, n, autoConfirm)), db.bookings[id];
            && id in db'.bookings && db'.days == db.days && db'.verdicts == db.verdicts
            && db'.bookings[id] ==
                 if at == id && n == Success && id in db.payments && db.payments[id] in {Unpaid, Failed}
                    && b.status != Target(autoConfirm)
                 then b.(status := Target(autoConfirm), holdExpiresAt := None)
                 else b
  {
    assert Shift(db.days, {}, 0) == db.days;
    match n
    case Success => SuccessBooking(db, at, autoConfirm, id);
    case _ =>
  }

  lemma SuccessBooking(db: Db, at: Id, autoConfirm: bool, id: Id)
    requires id in db.bookings
    ensures var db' := Commit(db, PaymentSucceededTx(db, at, autoConfirm));
            && id in db'.bookings
            && db'.bookings[id] ==
                 if at == id && id in db.payments && db.payments[id] in {Unpaid, Failed}
                    && db.bookings[id].status != Target(autoConfirm)
                 then db.bookings[id].(status := Target(autoConfirm), holdExpiresAt := None)
                 else db.bookings[id]
  {
    var db' := Commit(db, PaymentSucceededTx(db, at, autoConfirm));
    if at in db.payments && at in db.bookings && !Settled(db, at) && db.bookings[at].status != Target(autoConfirm) {
      assert db.payments[at].Unpaid? || db.payments[at].Failed?;
      assert db'.bookings == db.bookings[at := db.bookings[at].(status := Target(autoConfirm), holdExpiresAt := None)];
    } else {
      assert db'.bookings == db.bookings;
    }
  }

  /** Which turn moves a payment where: it succeeds only on a Success notice for it, from unpaid
      or failed; it fails only on a Failure notice, from unpaid; it is refunded only on a
      RefundDone notice; and only an accepted intent takes it back to unpaid. */
  lemma PaymentMovesIff(h: Hook, autoConfirm: bool, turn: Turn, id: Id)
    requires id in h.db.payments
    ensures var p, heard, payments' := h.db.payments[id], Heard(h, turn, id), Advance(h, autoConfirm, turn).db.payments;
            && id in payments'
            && (p != Succeeded ==> (payments'[id] == Succeeded <==>
                  heard == Some(Success) && p in {Unpaid, Failed} && id in h.db.bookings))
            && (p != Failed ==> (payments'[id] == Failed <==> heard == Some(Failure) && p == Unpaid))
            && (p != Refunded ==> (payments'[id] == Refunded <==> heard == Some(RefundDone)))
            && (p != Unpaid ==> (payments'[id] == Unpaid <==>
                  && turn.Intent? && turn.id == id && id in h.db.bookings
                  && h.db.bookings[id].customer == turn.user && h.db.bookings[id].totalPrice > 0))
  {
    if turn.Apply? && turn.c in h.looking {
      NoticePayment(h.db, h.looking[turn.c].id, h.looking[turn.c].n, autoConfirm, id);
    }
  }

  /** Which turn touches a booking: only a Success notice that finds its payment unsettled, and it
      takes the booking to its target, whatever its state. */
  lemma BookingMovesIff(h: Hook, autoConfirm: bool, turn: Turn, id: Id)
    requires id in h.db.bookings
    ensures var b, db' := h.db.bookings[id], Advance(h, autoConfirm, turn).db;
            && id in db'.bookings && db'.days == h.db.days && db'.verdicts == h.db.verdicts
            && db'.bookings[id] ==
                 if Heard(h, turn, id) == Some(Success) && id in h.db.payments && h.db.payments[id] in {Unpaid, Failed}
                    && b.status != Target(autoConfirm)
                 then b.(status := Target(autoConfirm), holdExpiresAt := None)
                 else b
  {
    if turn.Apply? && turn.c in h.looking {
      NoticeBooking(h.db, h.looking[turn.c].id, h.looking[turn.c].n, autoConfirm, id);
    }
  }

  /** Which refusal an intent and a notice get; and a refused notice is not marked. */
  lemma IntentRefuses(db: Db, user: string, id: Id)
    ensures IntentTx(db, user, id) == Err(NotFound) <==> id !in db.bookings
    ensures IntentTx(db, user, id) == Err(Forbidden) <==> id in db.bookings && db.bookings[id].customer != user
    ensures IntentTx(db, user, id) == Err(BadNumber) <==>
              id in db.bookings && db.bookings[id].customer == user && db.bookings[id].totalPrice <= 0
    ensures IntentTx(db, user, id).Ok? ==> IntentTx(db, user, id).value == db.(payments := db.payments[id := Unpaid])
  {
  }

  lemma NoticeRefuses(db: Db, id: Id, n: Notice, autoConfirm: bool)
    ensures NoticeTx(db, id, n, autoConfirm).Err? <==>
              id !in db.payments || (n == Success && db.payments[id] in {Unpaid, Failed} && id !in db.bookings)
    ensures NoticeTx(db, id, n, autoConfirm).Err? ==> NoticeTx(db, id, n, autoConfirm).error == NotFound
  {
    if id in db.payments && !Settled(db, id) { assert db.payments[id].Unpaid? || db.payments[id].Failed?; }
  }

  /** An event is marked by the turn that applies it, and a refused one is not. */
  lemma AppliedIsMarkedIff(h: Hook, autoConfirm: bool, turn: Turn, event: string)
    requires event !in h.processed
    ensures event in Advance(h, autoConfirm, turn).processed <==>
              && turn.Apply? && turn.c in h.looking && h.looking[turn.c].event == event
              && NoticeTx(h.db, h.looking[turn.c].id, h.looking[turn.c].n, autoConfirm).Ok?
  {
  }

  /** A marked event stays marked, and none of its deliveries passes the lookup any more. */
  lemma {:induction false} MarkedPassesNoMore(h: Hook, autoConfirm: bool, turns: seq<Turn>, event: string, c: nat)
    requires event in h.processed
    ensures var h' := Schedule(h, autoConfirm, turns);
            && event in h'.processed
            && (c in h'.looking && h'.looking[c].event == event ==> c in h.looking && h.looking[c].event == event)
    decreases |turns|
  {
    if turns != [] { MarkedPassesNoMore(Advance(h, autoConfirm, turns[0]), autoConfirm, turns[1..], event, c); }
  }

  /** A failed charge is not the end: after its notice the payment is not settled and no booking
      has changed, and the notice of a later success settles it and takes the booking to its
      target. */
  lemma FailureThenSuccess(h: Hook, autoConfirm: bool, c: nat, c': nat, id: Id)
    requires c in h.looking && c' in h.looking && c != c' && id in h.db.bookings && id in h.db.payments
    requires h.looking[c].id == id && h.looking[c].n == Failure
    requires h.looking[c'].id == id && h.looking[c'].n == Success
    requires h.db.payments[id] == Unpaid
    ensures var h1 := Advance(h, autoConfirm, Apply(c));
            !Settled(h1.db, id) && h1.db.bookings == h.db.bookings && h1.db.days == h.db.days
    ensures var h2 := Schedule(h, autoConfirm, [Apply(c)] + [Apply(c')]);
            && id in h2.db.payments && h2.db.payments[id] == Succeeded
            && id in h2.db.bookings && h2.db.bookings[id].status == (if autoConfirm then CONFIRMED else PAID)
  {
    var h1 := Advance(h, autoConfirm, Apply(c));
    assert ([Apply(c)] + [Apply(c')])[1..] == [Apply(c')] && [Apply(c')][1..] == [];
    assert Schedule(h, autoConfirm, [Apply(c)] + [Apply(c')]) == Schedule(h1, autoConfirm, [Apply(c')])
      == Advance(h1, autoConfirm, Apply(c'));
  }

  /** Over any deliveries, overlapping, in any order and with any repetition, and any intents
      on other bookings: once a payment is settled and not reset, no notice touches its booking
      again. */
  lemma {:induction false} SettledBookingUntouched(h: Hook, autoConfirm: bool, turns: seq<Turn>, id: Id)
    requires Settled(h.db, id) && id in h.db.bookings && NeverResets(h, autoConfirm, turns, id)
    ensures var db' := Schedule(h, autoConfirm, turns).db;
            Settled(db', id) && PaymentForward(h.db.payments[id], db'.payments[id]) && SameBooking(h.db, db', id)
    decreases |turns|
  {
    if turns != [] {
      AdvanceSettled(h, autoConfirm, turns[0], id);
      SettledBookingUntouched(Advance(h, autoConfirm, turns[0]), autoConfirm, turns[1..], id);
    }
  }

  /** A booking already there is not written again, whatever happens to its payment. */
  lemma {:induction false} TargetUntouched(h: Hook, autoConfirm: bool, turns: seq<Turn>, id: Id)
    requires id in h.db.bookings && h.db.bookings[id].status == Target(autoConfirm)
    ensures SameBooking(h.db, Schedule(h, autoConfirm, turns).db, id)
    decreases |turns|
  {
    if turns != [] { TargetUntouched(Advance(h, autoConfirm, turns[0]), autoConfirm, turns[1..], id); }
  }

  lemma {:induction false} UnusedNumber(s: set<nat>) returns (n: nat)
    ensures forall x :: x in s ==> x < n
    decreases |s|
  {
    n := 0;
    if s != {} {
      var x :| x in s;
      var m := UnusedNumber(s - {x});
      n := if x < m then m else x + 1;
      assert forall y :: y in s ==> y == x || y in s - {x};
    }
  }

  lemma UnusedEvent(s: set<string>) returns (e: string)
    ensures e !in s
  {
    var lengths := set x | x in s :: |x|;
    var n := UnusedNumber(lengths);
    e := seq(n, i => 'x');
    assert e in s ==> |e| in lengths;
  }

  /** After a reset a new success notice takes the booking to its target. */
  lemma ResetTouches(h: Hook, autoConfirm: bool, x: Turn, id: Id) returns (turns: seq<Turn>)
    requires id in h.db.bookings && Resets(h, x, id) && h.db.bookings[id].status != Target(autoConfirm)
    ensures NeverResets(Advance(h, autoConfirm, x), autoConfirm, turns, id)
    ensures !SameBooking(h.db, Schedule(Advance(h, autoConfirm, x), autoConfirm, turns).db, id)
  {
    var c := UnusedNumber(h.looking.Keys);
    var e := UnusedEvent(h.processed);
    var h1 := Advance(h, autoConfirm, x);
    var d := Delivery(e, id, Success);
    var h2 := Advance(h1, autoConfirm, Look(c, d));
    var h3 := Advance(h2, autoConfirm, Apply(c));
    turns := [Look(c, d), Apply(c)];
    assert turns[1..] == [Apply(c)] && [Apply(c)][1..] == [];
    assert NeverResets(h2, autoConfirm, [Apply(c)], id);
    assert Schedule(h1, autoConfirm, turns) == Schedule(h2, autoConfirm, [Apply(c)]) == h3;
    assert h3.db.bookings[id].status == Target(autoConfirm);
  }

  ghost predicate UntouchedAfter(h: Hook, autoConfirm: bool, x: Turn, id: Id) {
    forall turns: seq<Turn> :: NeverResets(Advance(h, autoConfirm, x), autoConfirm, turns, id) ==>
      SameBooking(h.db, Schedule(Advance(h, autoConfirm, x), autoConfirm, turns).db, id)
  }

  /** Exactly when: of all turns on a booking with a settled payment, it is an accepted intent
      that lets later notices touch the booking (unless it stands where they would take it). */
  lemma UntouchedIff(h: Hook, autoConfirm: bool, x: Turn, id: Id)
    requires Settled(h.db, id) && id in h.db.bookings
    ensures UntouchedAfter(h, autoConfirm, x, id)
            <==> !Resets(h, x, id) || h.db.bookings[id].status == Target(autoConfirm)
  {
    var h1 := Advance(h, autoConfirm, x);
    if !Resets(h, x, id) {
      AdvanceSettled(h, autoConfirm, x, id);
      forall turns | NeverResets(h1, autoConfirm, turns, id)
        ensures SameBooking(h.db, Schedule(h1, autoConfirm, turns).db, id)
      {
        SettledBookingUntouched(h1, autoConfirm, turns, id);
      }
    } else if h.db.bookings[id].status == Target(autoConfirm) {
      forall turns ensures SameBooking(h.db, Schedule(h1, autoConfirm, turns).db, id) {
        TargetUntouched(h1, autoConfirm, turns, id);
      }
    } else {
      var turns := ResetTouches(h, autoConfirm, x, id);
    }
  }

  /** What that comes to: a booking that was paid, cancelled and refunded is confirmed again by
      an intent and the notice of its payment, while its night is free for others. */
  lemma IntentRevivesRefunded(serverOffset: int)
    ensures var cfg := InventoryCases.Default(serverOffset);
            var acts := InventoryCases.Paid([DoCancelPaid("u", "b")] + []);
            var db := Run(cfg, Run(cfg, EMPTY, InventoryCases.Open(InventoryCases.NO_RISK)), acts);
            var turns := [Intent("u", "b"), Look(0, Delivery("e", "b", Success)), Apply(0)];
            && db == InventoryCases.Tables(1, InventoryCases.Guest(REFUNDED, None), map[], map["b" := Refunded])
            && Schedule(Hook(db, {}, map[]), true, turns).db
               == InventoryCases.Tables(1, InventoryCases.Guest(CONFIRMED, None), map[], map["b" := Succeeded])
  {
    InventoryCases.PaidThenCancelled(serverOffset);
    var b := InventoryCases.Guest(REFUNDED, None);
    var h := Hook(InventoryCases.Tables(1, b, map[], map["b" := Refunded]), {}, map[]);
    var d := Delivery("e", "b", Success);
    var t := [Intent("u", "b"), Look(0, d), Apply(0)];
    assert t[1..] == [Look(0, d), Apply(0)] && t[1..][1..] == [Apply(0)] && [Apply(0)][1..] == [];
    var h1 := Advance(h, true, t[0]);
    var h2 := Advance(h1, true, t[1]);
    assert Schedule(h, true, t) == Schedule(h1, true, t[1..]) == Schedule(h2, true, [Apply(0)])
      == Advance(h2, true, Apply(0));
    assert h2.db == InventoryCases.Tables(1, b, map[], map["b" := Unpaid]);
    var paid := map["b" := Unpaid]["b" := Succeeded];
    assert paid == map["b" := Succeeded];
    InventoryCases.NothingShifted(1, b, map[], paid, b.(status := CONFIRMED, holdExpiresAt := None));
  }

  // ---------- redelivery ----------

  /** A notice that would change nothing. */
  predicate Spent(db: Db, d: Delivery, autoConfirm: bool) { NoticeTx(db, d.id, d.n, autoConfirm) == Ok(db) }

  /** What a notice leaves behind, as a condition on the payment. */
  predicate SpentStatus(n: Notice, st: PayStatus) {
    match n
    case Success => st in {Succeeded, Refunded}
    case Failure => st != Unpaid
    case RefundDone => st == Refunded
    case RefundFailed => true
  }

  lemma SpentIff(db: Db, d: Delivery, autoConfirm: bool)
    requires d.id in db.payments
    ensures SpentStatus(d.n, db.payments[d.id]) ==> Spent(db, d, autoConfirm)
    ensures Spent(db, d, autoConfirm) && d.n != Success ==> SpentStatus(d.n, db.payments[d.id])
  {
    assert d.n.RefundDone? && db.payments[d.id] == Refunded ==> db.payments[d.id := Refunded] == db.payments;
  }

  lemma ApplyingSpends(db: Db, d: Delivery, autoConfirm: bool)
    requires NoticeTx(db, d.id, d.n, autoConfirm).Ok?
    ensures var db' := NoticeTx(db, d.id, d.n, autoConfirm).value;
            d.id in db'.payments && SpentStatus(d.n, db'.payments[d.id])
  {
  }

  lemma StaysSpent(h: Hook, autoConfirm: bool, turn: Turn, id: Id, n: Notice)
    requires id in h.db.payments && SpentStatus(n, h.db.payments[id]) && !Resets(h, turn, id)
    ensures var db' := Advance(h, autoConfirm, turn).db; id in db'.payments && SpentStatus(n, db'.payments[id])
  {
    if turn.Apply? && turn.c in h.looking {
      NoticeStaysSpent(h.db, h.looking[turn.c].id, h.looking[turn.c].n, autoConfirm, id, n);
    }
  }

  lemma NoticeStaysSpent(db: Db, at: Id, m: Notice, autoConfirm: bool, id: Id, n: Notice)
    requires id in db.payments && SpentStatus(n, db.payments[id])
    ensures var db' := Commit(db, NoticeTx(db, at, m, autoConfirm));
            id in db'.payments && SpentStatus(n, db'.payments[id])
  {
  }

  lemma {:induction false} ScheduleStaysSpent(h: Hook, autoConfirm: bool, turns: seq<Turn>, id: Id, n: Notice)
    requires id in h.db.payments && SpentStatus(n, h.db.payments[id]) && NeverResets(h, autoConfirm, turns, id)
    ensures var db' := Schedule(h, autoConfirm, turns).db; id in db'.payments && SpentStatus(n, db'.payments[id])
    decreases |turns|
  {
    if turns != [] {
      StaysSpent(h, autoConfirm, turns[0], id, n);
      ScheduleStaysSpent(Advance(h, autoConfirm, turns[0]), autoConfirm, turns[1..], id, n);
    }
  }

  /** A notice that was accepted once may be applied again anywhere later, even by a delivery
      that passed the lookup before the first one was marked: as long as its payment was not
      reset in between, the tables stay as they are. */
  lemma RedeliveredNoticeInvisible(h: Hook, autoConfirm: bool, c: nat, mid: seq<Turn>, c': nat)
    requires c in h.looking && NoticeTx(h.db, h.looking[c].id, h.looking[c].n, autoConfirm).Ok?
    requires NeverResets(Advance(h, autoConfirm, Apply(c)), autoConfirm, mid, h.looking[c].id)
    requires var w := Schedule(Advance(h, autoConfirm, Apply(c)), autoConfirm, mid);
             c' in w.looking && w.looking[c'] == h.looking[c]
    ensures var w := Schedule(Advance(h, autoConfirm, Apply(c)), autoConfirm, mid);
            Advance(w, autoConfirm, Apply(c')).db == w.db
  {
    var d, h1 := h.looking[c], Advance(h, autoConfirm, Apply(c));
    ApplyingSpends(h.db, d, autoConfirm);
    ScheduleStaysSpent(h1, autoConfirm, mid, d.id, d.n);
    SpentIff(Schedule(h1, autoConfirm, mid).db, d, autoConfirm);
  }

  class PaymentService {
    const tables: Bookings.BookingsService
    const autoConfirm: bool
    var processed: set<string>

    constructor (tables: Bookings.BookingsService, autoConfirm: bool)
      ensures this.tables == tables && this.autoConfirm == autoConfirm && processed == {}
    {
      this.tables, this.autoConfirm, processed := tables, autoConfirm, {};
    }

    ghost function View(): Hook
      reads this, tables
    {
      Hook(tables.View(), processed, map[])
    }

    /** The payment of a booking is created or reset. */
    method CreateIntent(user: string, id: Id) returns (r: Result<(), Error>)
      modifies tables`payments
      ensures View() == Advance(old(View()), autoConfirm, Intent(user, id))
      ensures r.Ok? <==> IntentTx(old(tables.View()), user, id).Ok?
    {
      if id !in tables.bookings { return Err(NotFound); }
      if tables.bookings[id].customer != user { return Err(Forbidden); }
      if tables.bookings[id].totalPrice <= 0 { return Err(BadNumber); }
      tables.payments := tables.payments[id := Unpaid];
      r := Ok(());
    }

    /** One delivery alone: the lookup, then the transaction. */
    method HandleWebhook(d: Delivery) returns (r: Result<(), Error>)
      modifies this`processed, tables`payments, tables`bookings
      ensures View() == Advance(Advance(old(View()), autoConfirm, Look(0, d)), autoConfirm, Apply(0))
      ensures r.Ok? <==> old(d.event in processed || NoticeTx(tables.View(), d.id, d.n, autoConfirm).Ok?)
    {
      assert map[0 := d] - {0} == map[];
      if d.event in processed { return Ok(()); }
      if d.id !in tables.payments { return Err(NotFound); }
      match d.n {
        case Success =>
          if tables.payments[d.id] != Succeeded && tables.payments[d.id] != Refunded {
            if d.id !in tables.bookings { return Err(NotFound); }
            tables.payments := tables.payments[d.id := Succeeded];
            var b := tables.bookings[d.id];
            if autoConfirm && b.status != CONFIRMED {
              tables.bookings := tables.bookings[d.id := b.(status := CONFIRMED, holdExpiresAt := None)];
            }
            if !autoConfirm && b.status != PAID {
              tables.bookings := tables.bookings[d.id := b.(status := PAID, holdExpiresAt := None)];
            }
          }
        case Failure =>
          if tables.payments[d.id] == Unpaid { tables.payments := tables.payments[d.id := Failed]; }
        case RefundDone => tables.payments := tables.payments[d.id := Refunded];
        case RefundFailed =>
      }
      assert Shift(tables.days, {}, 0) == tables.days;
      processed := processed + {d.event};
      r := Ok(());
    }

    /** The mock provider's refund. */
    method Refund(user: string, id: Id, full: bool) returns (r: Result<(), Error>)
      modifies tables`payments, tables`bookings
      ensures tables.View() == Commit(old(tables.View()), MockRefundTx(old(tables.View()), user, id, full))
      ensures r.Ok? <==> MockRefundTx(old(tables.View()), user, id, full).Ok?
    {
      if id !in tables.payments || id !in tables.bookings { return Err(NotFound); }
      if tables.bookings[id].customer != user { return Err(Forbidden); }
      if tables.payments[id] != Succeeded { return Err(NotSettled); }
      tables.payments := tables.payments[id := Refunded];
      if full { tables.bookings := tables.bookings[id := tables.bookings[id].(status := REFUNDED)]; }
      assert Shift(tables.days, {}, 0) == tables.days;
      r := Ok(());
    }
  }
}
