/** Concrete runs of the inventory, from empty tables, in which a property fails that holds
    under the conditions proved in the inventory model. */
module InventoryCases {
  import opened Common
  import opened NightBuckets
  import opened Inventory

  lemma Unfold(cfg: Config, db: Db, a: Action, acts: seq<Action>)
    ensures Run(cfg, db, [a] + acts) == Run(cfg, Step(cfg, db, a), acts)
  {
    assert ([a] + acts)[1..] == acts;
  }

  // ---------- a stay across a change of the clocks ----------

  const SPRING: Config := Config(LONDON, 0, false, 0, 0)

  const FREE: Row := Row(1, 1, false)

  const NO_RISK: Assessment := Assessment(false, LOW)

  /** A calendar with these rows and nothing else. */
  function Calendar(days: map<Slot, Row>): Db { Db(days, map[], map[], map[], map s | s in days :: days[s].remaining) }

  function TwoNights(db: Db): Result<Db, Error> {
    HoldOp(SPRING, db, "b", "u", "p", DateOnly(0), DateOnly(2), NO_RISK, 0)
  }

  lemma WindowOfTwo(days: map<Slot, Row>)
    ensures var rows := Window(days, "p", 0, 2 * MS_PER_DAY - HOUR);
            rows == (if Slot("p", 0) in days then [Slot("p", 0)] else [])
                    + (if Slot("p", 1) in days then [Slot("p", 1)] else [])
  {
    assert CeilDay(2 * MS_PER_DAY - HOUR) == 2 && CeilDay(0) == 0;
    assert Rows(days, "p", 2, 2) == [];
    assert Rows(days, "p", 1, 2) == (if Slot("p", 1) in days then [Slot("p", 1)] else []) + [];
  }

  /** On a server at UTC the two nights count as one day.  With only the first row in the
      calendar the stay is accepted, and one night of it is missing; with both rows free it is
      refused. */
  lemma LondonStay()
    ensures EastZone(LONDON) && Nights(Midnight(LONDON, 0), Midnight(LONDON, 2)) == 2
    ensures ServerDays(0, Midnight(LONDON, 0), Midnight(LONDON, 2)) == 1
    ensures TwoNights(Calendar(map[Slot("p", 0) := FREE])).Ok?
    ensures TwoNights(Calendar(map[Slot("p", 0) := FREE, Slot("p", 1) := FREE])) == Err(NotAvailable)
  {
    var one, two := map[Slot("p", 0) := FREE], map[Slot("p", 0) := FREE, Slot("p", 1) := FREE];
    WindowOfTwo(one);
    WindowOfTwo(two);
    assert Midnight(LONDON, 0) == 0 && Midnight(LONDON, 2) == 2 * MS_PER_DAY - HOUR;
  }

  // ---------- one night at the default zone ----------

  /** The default zone is seven hours ahead; the server stands anywhere. */
  function Default(serverOffset: int): Config { Config(FixedZone(7 * HOUR), serverOffset, false, 0, 0) }

  const NIGHT: Slot := Slot("p", 1)

  function Guest(st: Status, expires: Option<int>): Booking {
    Booking("p", "u", MS_PER_DAY - 7 * HOUR, 2 * MS_PER_DAY - 7 * HOUR, st, expires, 1)
  }

  /** Tables with one night and one booking of it. */
  function Tables(remaining: int, b: Booking, verdicts: map<Id, Verdict>, payments: map<Id, PayStatus>): Db {
    Db(map[NIGHT := Row(1, remaining, false)], map["b" := b], verdicts, payments, map[NIGHT := 1])
  }

  function Open(fa: Assessment): seq<Action> {
    [DoUpsertDay(NIGHT, Some(1), Some(1), None)] + ([DoHold("b", "u", "p", DateOnly(1), DateOnly(2), fa, 0)] + [])
  }

  lemma CoversNight(st: Status, expires: Option<int>)
    ensures forall s: Slot :: Covers(Guest(st, expires), s) <==> s == NIGHT
  {
    forall s: Slot ensures Covers(Guest(st, expires), s) <==> s == NIGHT {
      WindowBounds(MS_PER_DAY - 7 * HOUR, 2 * MS_PER_DAY - 7 * HOUR, s.day);
    }
  }

  /** The tables of one booking keep the law exactly if the night is counted once. */
  lemma LawOfOne(remaining: int, b: Booking, verdicts: map<Id, Verdict>, payments: map<Id, PayStatus>)
    requires b == Guest(b.status, b.holdExpiresAt)
    ensures Conserved(Tables(remaining, b, verdicts, payments)) <==> remaining == if Live(b.status) then 0 else 1
  {
    var db := Tables(remaining, b, verdicts, payments);
    CoversNight(b.status, b.holdExpiresAt);
    assert LiveSet(db.bookings, NIGHT) == if Live(b.status) then {"b"} else {};
    if remaining == if Live(b.status) then 0 else 1 { assert RowConserved(db, NIGHT); }
    if Conserved(db) { assert RowConserved(db, NIGHT); }
  }

  lemma OpenTables(serverOffset: int, fa: Assessment)
    requires !fa.skipped && fa.level != HIGH
    ensures Run(Default(serverOffset), EMPTY, Open(fa))
            == Tables(0, Guest(if fa.level == LOW then HOLD else REVIEW, Some(0)),
                      if fa.level == LOW then map[] else map["b" := PENDING], map[])
  {
    var cfg := Default(serverOffset);
    var hold := DoHold("b", "u", "p", DateOnly(1), DateOnly(2), fa, 0);
    Unfold(cfg, EMPTY, DoUpsertDay(NIGHT, Some(1), Some(1), None), [hold] + []);
    var db := Step(cfg, EMPTY, DoUpsertDay(NIGHT, Some(1), Some(1), None));
    assert LiveSet(EMPTY.bookings, NIGHT) == {};
    assert db == Db(map[NIGHT := FREE], map[], map[], map[], map[NIGHT := 1]);
    Unfold(cfg, db, hold, []);
    FixedZoneCounts(7 * HOUR, serverOffset, 1, 2);
    var checkIn, checkOut := MS_PER_DAY - 7 * HOUR, 2 * MS_PER_DAY - 7 * HOUR;
    assert CeilDay(checkIn) == 1 && CeilDay(checkOut) == 2;
    assert Rows(db.days, "p", 2, 2) == [];
    assert Window(db.days, "p", checkIn, checkOut) == [NIGHT];
    assert Price(db.days, []) == 0 && [NIGHT][..0] == [];
    var b := Guest(if fa.level == LOW then HOLD else REVIEW, Some(0));
    CoversNight(b.status, b.holdExpiresAt);
    assert WindowSet(db.days, b) == {NIGHT};
    assert Shift(db.days, {NIGHT}, -1) == map[NIGHT := Row(1, 0, false)];
  }

  lemma ReleasedTables(r: int, b: Booking, st: Status, v: map<Id, Verdict>, p: map<Id, PayStatus>)
    requires b == Guest(b.status, b.holdExpiresAt)
    ensures Release(Tables(r, b, v, p), "b", st) == Tables(r + 1, b.(status := st), v, p)
  {
    CoversNight(st, b.holdExpiresAt);
    var db := Tables(r, b, v, p);
    assert WindowSet(db.days, b.(status := st)) == {NIGHT};
    assert Shift(db.days, {NIGHT}, 1) == map[NIGHT := Row(1, r + 1, false)];
  }

  lemma NothingShifted(r: int, b: Booking, v: map<Id, Verdict>, p: map<Id, PayStatus>, b': Booking)
    ensures Move(Tables(r, b, v, p), "b", b', {}, 0) == Tables(r, b', v, p)
  {
    assert Shift(Tables(r, b, v, p).days, {}, 0) == Tables(r, b, v, p).days;
  }

  lemma CancelStep(cfg: Config, p: map<Id, PayStatus>)
    ensures Step(cfg, Tables(0, Guest(HOLD, Some(0)), map[], p), DoCancelHold("u", "b"))
            == Tables(1, Guest(CANCELLED, Some(0)), map[], p)
  {
    ReleasedTables(0, Guest(HOLD, Some(0)), CANCELLED, map[], p);
  }

  lemma RecordStep(cfg: Config, r: int, b: Booking)
    ensures Step(cfg, Tables(r, b, map[], map[]), DoPaymentRecord("b", Unpaid))
            == Tables(r, b, map[], map["b" := Unpaid])
  {
  }

  lemma NoticeStep(cfg: Config, r: int, b: Booking)
    requires b.status != CONFIRMED
    ensures Step(cfg, Tables(r, b, map[], map["b" := Unpaid]), DoPaymentSucceeded("b", true))
            == Tables(r, b.(status := CONFIRMED, holdExpiresAt := None), map[], map["b" := Succeeded])
  {
    var paid := map["b" := Unpaid]["b" := Succeeded];
    assert paid == map["b" := Succeeded];
    NothingShifted(r, b, map[], paid, b.(status := CONFIRMED, holdExpiresAt := None));
  }

  lemma CancelPaidStep(cfg: Config, r: int)
    ensures Step(cfg, Tables(r, Guest(CONFIRMED, None), map[], map["b" := Succeeded]), DoCancelPaid("u", "b"))
            == Tables(r + 1, Guest(REFUNDED, None), map[], map["b" := Refunded])
  {
    ReleasedTables(r, Guest(CONFIRMED, None), REFUNDED, map[], map["b" := Succeeded]);
  }

  /** The ordinary course: held, paid, cancelled and refunded, with the night free again. */
  lemma PaidThenCancelled(serverOffset: int)
    ensures var cfg := Default(serverOffset);
            Run(cfg, Run(cfg, EMPTY, Open(NO_RISK)), Paid([DoCancelPaid("u", "b")] + []))
            == Tables(1, Guest(REFUNDED, None), map[], map["b" := Refunded])
  {
    var cfg, cancel := Default(serverOffset), [DoCancelPaid("u", "b")] + [];
    var held := Guest(HOLD, Some(0));
    OpenTables(serverOffset, NO_RISK);
    RecordStep(cfg, 0, held);
    NoticeStep(cfg, 0, held);
    CancelPaidStep(cfg, 0);
    Unfold(cfg, Tables(0, held, map[], map[]), DoPaymentRecord("b", Unpaid), [DoPaymentSucceeded("b", true)] + cancel);
    Unfold(cfg, Tables(0, held, map[], map["b" := Unpaid]), DoPaymentSucceeded("b", true), cancel);
    Unfold(cfg, Tables(0, Guest(CONFIRMED, None), map[], map["b" := Succeeded]), DoCancelPaid("u", "b"), []);
  }

  /** A notice that comes after the guest has cancelled. */
  lemma Revived(serverOffset: int)
    ensures Run(Default(serverOffset), EMPTY, Open(NO_RISK)) == Tables(0, Guest(HOLD, Some(0)), map[], map[])
    ensures forall rest :: Run(Default(serverOffset), Tables(0, Guest(HOLD, Some(0)), map[], map[]), Revival(rest))
                           == Run(Default(serverOffset),
                                  Tables(1, Guest(CONFIRMED, None), map[], map["b" := Succeeded]), rest)
  {
    var cfg := Default(serverOffset);
    OpenTables(serverOffset, NO_RISK);
    CancelStep(cfg, map[]);
    RecordStep(cfg, 1, Guest(CANCELLED, Some(0)));
    NoticeStep(cfg, 1, Guest(CANCELLED, Some(0)));
    forall rest
      ensures Run(cfg, Tables(0, Guest(HOLD, Some(0)), map[], map[]), Revival(rest))
              == Run(cfg, Tables(1, Guest(CONFIRMED, None), map[], map["b" := Succeeded]), rest)
    {
      Unfold(cfg, Tables(0, Guest(HOLD, Some(0)), map[], map[]), DoCancelHold("u", "b"), Paid(rest));
      Unfold(cfg, Tables(1, Guest(CANCELLED, Some(0)), map[], map[]), DoPaymentRecord("b", Unpaid),
             [DoPaymentSucceeded("b", true)] + rest);
      Unfold(cfg, Tables(1, Guest(CANCELLED, Some(0)), map[], map["b" := Unpaid]), DoPaymentSucceeded("b", true), rest);
    }
  }

  function Paid(rest: seq<Action>): seq<Action> {
    [DoPaymentRecord("b", Unpaid)] + ([DoPaymentSucceeded("b", true)] + rest)
  }

  function Revival(rest: seq<Action>): seq<Action> { [DoCancelHold("u", "b")] + Paid(rest) }

  /** A success notice on a cancelled booking: it is confirmed, and its night is still free
      for others. */
  lemma LateNoticeBreaksLaw(serverOffset: int)
    ensures var db := Run(Default(serverOffset), Run(Default(serverOffset), EMPTY, Open(NO_RISK)), Revival([]));
            db == Tables(1, Guest(CONFIRMED, None), map[], map["b" := Succeeded]) && !Conserved(db)
  {
    Revived(serverOffset);
    LawOfOne(1, Guest(CONFIRMED, None), map[], map["b" := Succeeded]);
  }

  lemma ReturnedUnfold(cfg: Config, db: Db, a: Action, acts: seq<Action>)
    requires OnBooking(a, "b")
    ensures Returned(cfg, db, [a] + acts, "b", NIGHT)
            == Raised(db, Step(cfg, db, a), NIGHT) + Returned(cfg, Step(cfg, db, a), acts, "b", NIGHT)
  {
    assert ([a] + acts)[1..] == acts;
  }

  /** Cancelled once more after that, the booking has given its one night back twice. */
  lemma ReopenedReturnsTwice(serverOffset: int)
    ensures Returned(Default(serverOffset), Run(Default(serverOffset), EMPTY, Open(NO_RISK)),
                     Revival([DoCancelPaid("u", "b")] + []), "b", NIGHT) == 2
  {
    var cfg := Default(serverOffset);
    Revived(serverOffset);
    CancelStep(cfg, map[]);
    RecordStep(cfg, 1, Guest(CANCELLED, Some(0)));
    NoticeStep(cfg, 1, Guest(CANCELLED, Some(0)));
    CancelPaidStep(cfg, 1);
    var again := [DoCancelPaid("u", "b")] + [];
    ReturnedUnfold(cfg, Tables(0, Guest(HOLD, Some(0)), map[], map[]), DoCancelHold("u", "b"), Paid(again));
    ReturnedUnfold(cfg, Tables(1, Guest(CANCELLED, Some(0)), map[], map[]), DoPaymentRecord("b", Unpaid),
                   [DoPaymentSucceeded("b", true)] + again);
    ReturnedUnfold(cfg, Tables(1, Guest(CANCELLED, Some(0)), map[], map["b" := Unpaid]),
                   DoPaymentSucceeded("b", true), again);
    ReturnedUnfold(cfg, Tables(1, Guest(CONFIRMED, None), map[], map["b" := Succeeded]), DoCancelPaid("u", "b"), []);
  }

  lemma FullRefundStep(cfg: Config)
    ensures Step(cfg, Tables(0, Guest(CONFIRMED, None), map[], map["b" := Succeeded]), DoMockRefund("u", "b", true))
            == Tables(0, Guest(REFUNDED, None), map[], map["b" := Refunded])
  {
    var refunded := map["b" := Succeeded]["b" := Refunded];
    assert refunded == map["b" := Refunded];
    NothingShifted(0, Guest(CONFIRMED, None), map[], refunded, Guest(REFUNDED, None));
  }

  /** A full mock refund of a live booking: it is closed and its night stays taken. */
  lemma FullRefundBreaksLaw(serverOffset: int)
    ensures var cfg := Default(serverOffset);
            var db := Run(cfg, Run(cfg, EMPTY, Open(NO_RISK)), Paid([DoMockRefund("u", "b", true)] + []));
            db == Tables(0, Guest(REFUNDED, None), map[], map["b" := Refunded]) && !Conserved(db)
  {
    var cfg, refund := Default(serverOffset), [DoMockRefund("u", "b", true)] + [];
    var held := Guest(HOLD, Some(0));
    OpenTables(serverOffset, NO_RISK);
    RecordStep(cfg, 0, held);
    NoticeStep(cfg, 0, held);
    FullRefundStep(cfg);
    Unfold(cfg, Tables(0, held, map[], map[]), DoPaymentRecord("b", Unpaid), [DoPaymentSucceeded("b", true)] + refund);
    Unfold(cfg, Tables(0, held, map[], map["b" := Unpaid]), DoPaymentSucceeded("b", true), refund);
    Unfold(cfg, Tables(0, Guest(CONFIRMED, None), map[], map["b" := Succeeded]), DoMockRefund("u", "b", true), []);
    LawOfOne(0, Guest(REFUNDED, None), map[], map["b" := Refunded]);
  }

  lemma RejectStep(serverOffset: int)
    requires serverOffset in {0, 7 * HOUR}
    ensures Step(Default(serverOffset), Tables(0, Guest(REVIEW, Some(0)), map["b" := PENDING], map[]),
                 DoFraudDecide("b", false))
            == Tables(0, Guest(CANCELLED, Some(0)), map["b" := REJECTED], map[])
  {
    var b, db := Guest(CANCELLED, Some(0)), Tables(0, Guest(REVIEW, Some(0)), map["b" := PENDING], map[]);
    assert !ServerMidnight(serverOffset, b.checkIn, b.checkOut, MS_PER_DAY);
    assert EqualitySet(Default(serverOffset), db.days, b) == {};
    assert Shift(db.days, {}, 1) == db.days;
  }

  /** A fraud rejection at the default zone, with the server at UTC or in that zone: no row is
      dated at a midnight it looks for, and the night is lost. */
  lemma DefaultRejectionLosesNight(serverOffset: int)
    requires serverOffset in {0, 7 * HOUR}
    ensures var cfg := Default(serverOffset);
            var db := Run(cfg, Run(cfg, EMPTY, Open(Assessment(false, MEDIUM))), [DoFraudDecide("b", false)] + []);
            db == Tables(0, Guest(CANCELLED, Some(0)), map["b" := REJECTED], map[]) && !Conserved(db)
  {
    OpenTables(serverOffset, Assessment(false, MEDIUM));
    RejectStep(serverOffset);
    Unfold(Default(serverOffset), Tables(0, Guest(REVIEW, Some(0)), map["b" := PENDING], map[]),
           DoFraudDecide("b", false), []);
    LawOfOne(0, Guest(CANCELLED, Some(0)), map["b" := REJECTED], map[]);
  }

  lemma FixedMidnights(off: int, d: int, e: int)
    requires 0 < off < MS_PER_DAY
    ensures var checkIn, checkOut := Midnight(FixedZone(off), d), Midnight(FixedZone(off), e);
            (checkIn - checkOut) % MS_PER_DAY == 0 && checkIn % MS_PER_DAY != 0
  {
    MultiplePlus(d - e, 0);
    MultiplePlus(d, -off);
  }

  /** Nor is any other stay there ever given its rows back right: at a fixed offset inside a
      day, wherever the server stands. */
  lemma FixedZoneRejectionWrong(off: int, cfg: Config, db: Db, id: Id, d: int, e: int)
    requires 0 < off < MS_PER_DAY && cfg.zone == FixedZone(off)
    requires Booked(cfg, db) && id in db.bookings && d < e
    requires db.bookings[id].checkIn == Midnight(cfg.zone, d) && db.bookings[id].checkOut == Midnight(cfg.zone, e)
    ensures EqualitySet(cfg, db.days, db.bookings[id]) != WindowSet(db.days, db.bookings[id])
  {
    FixedZoneCounts(off, cfg.serverOffset, d, e);
    assert WellHeld(cfg, db.days.Keys, db.bookings[id]);
    FixedMidnights(off, d, e);
    EqualityNeedsUtc(cfg, db, id);
  }
}
