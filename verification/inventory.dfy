/** Booking inventory: the tables behind holds, cancellations, expiry, fraud decisions,
    payments and the calendar, one function per database transaction, and the
    conservation law that ties the calendar to the bookings. */
module Inventory {
  import opened Common
  import opened NightBuckets

  type Id = string

  datatype Status = HOLD | REVIEW | CANCELLED | PAID | CONFIRMED | REFUNDED
  datatype Risk = LOW | MEDIUM | HIGH
  datatype Verdict = PENDING | APPROVED | REJECTED | AUTO_DECLINED
  datatype PayStatus = Unpaid | Succeeded | Failed | Refunded

  /** Key of a calendar row: a property and the UTC midnight starting a day. */
  datatype Slot = Slot(prop: string, day: int)

  datatype Row = Row(price: int, remaining: int, blocked: bool)

  datatype Booking = Booking(prop: string, customer: string, checkIn: int, checkOut: int,
                             status: Status, holdExpiresAt: Option<int>, totalPrice: int)

  /** `stock` is a history variable: what the calendar has last set for a row, counted
      with the nights already taken from it. */
  datatype Db = Db(days: map<Slot, Row>, bookings: map<Id, Booking>, verdicts: map<Id, Verdict>,
                   payments: map<Id, PayStatus>, stock: map<Slot, int>)

  datatype Config = Config(zone: Zone, serverOffset: int, autoDeclineHigh: bool, holdMs: int, reviewMs: int)

  datatype Assessment = Assessment(skipped: bool, level: Risk)

  datatype Error = InvalidDate | InvalidRange | TooManyNights | NotAvailable | NotFound | Forbidden
                 | WrongStatus | PriceRequired | BadNumber | NotSettled

  // ---------- rows of a window ----------

  predicate Covers(b: Booking, s: Slot) { s.prop == b.prop && InWindow(b.checkIn, b.checkOut, s.day) }

  function WindowSet(days: map<Slot, Row>, b: Booking): set<Slot> { set s | s in days && Covers(b, s) }

  /** The rows of a property whose day lies in `[lo, hi)`, in date order. */
  function Rows(days: map<Slot, Row>, prop: string, lo: int, hi: int): (rows: seq<Slot>)
    ensures forall s :: s in rows ==> s in days
    decreases hi - lo
  {
    if lo >= hi then []
    else (if Slot(prop, lo) in days then [Slot(prop, lo)] else []) + Rows(days, prop, lo + 1, hi)
  }

  function Window(days: map<Slot, Row>, prop: string, checkIn: int, checkOut: int): (rows: seq<Slot>)
    ensures forall s :: s in rows ==> s in days
  {
    Rows(days, prop, CeilDay(checkIn), CeilDay(checkOut))
  }

  lemma {:induction false} RowsExact(days: map<Slot, Row>, prop: string, lo: int, hi: int)
    ensures var rows := Rows(days, prop, lo, hi);
            && (forall s :: s in rows <==> s in days && s.prop == prop && lo <= s.day < hi)
            && (forall i, j :: 0 <= i < j < |rows| ==> rows[i].day < rows[j].day)
            && (lo <= hi ==> |rows| <= hi - lo)
            && (lo <= hi ==> (|rows| == hi - lo <==> forall d :: lo <= d < hi ==> Slot(prop, d) in days))
    decreases hi - lo
  {
    if lo < hi {
      RowsExact(days, prop, lo + 1, hi);
      var head := if Slot(prop, lo) in days then [Slot(prop, lo)] else [];
      var rest := Rows(days, prop, lo + 1, hi);
      assert Rows(days, prop, lo, hi) == head + rest;
      forall s ensures s in head + rest <==> s in days && s.prop == prop && lo <= s.day < hi {
        assert s in head + rest <==> s in head || s in rest;
        assert s.day == lo && s.prop == prop ==> s == Slot(prop, lo);
      }
    }
  }

  /** The query of every transaction finds exactly the rows the stay covers. */
  lemma WindowIsWindowSet(days: map<Slot, Row>, b: Booking)
    ensures Elems(Window(days, b.prop, b.checkIn, b.checkOut)) == WindowSet(days, b)
  {
    RowsExact(days, b.prop, CeilDay(b.checkIn), CeilDay(b.checkOut));
    forall s: Slot
      ensures InWindow(b.checkIn, b.checkOut, s.day) <==> CeilDay(b.checkIn) <= s.day < CeilDay(b.checkOut)
    {
      WindowBounds(b.checkIn, b.checkOut, s.day);
    }
  }

  function Price(days: map<Slot, Row>, rows: seq<Slot>): int
    requires forall s :: s in rows ==> s in days
  {
    if rows == [] then 0 else Price(days, rows[..|rows| - 1]) + days[rows[|rows| - 1]].price
  }

  /** A price is the sum over the rows: of one row its price, of two lists both prices. */
  lemma {:induction false} PriceAdds(days: map<Slot, Row>, a: seq<Slot>, b: seq<Slot>, s: Slot)
    requires forall x :: x in a || x in b || x == s ==> x in days
    ensures Price(days, a + b) == Price(days, a) + Price(days, b) && Price(days, [s]) == days[s].price
    decreases |b|
  {
    assert [s][..0] == [];
    if b == [] {
      assert a + b == a;
    } else {
      var n := |b| - 1;
      PriceAdds(days, a, b[..n], s);
      assert (a + b)[..|a + b| - 1] == a + b[..n];
    }
  }

  lemma {:induction false} FlatPrice(days: map<Slot, Row>, rows: seq<Slot>, p: int)
    requires forall s :: s in rows ==> s in days && days[s].price == p
    ensures Price(days, rows) == |rows| * p
  {
    if rows != [] { FlatPrice(days, rows[..|rows| - 1], p); }
  }

  lemma {:induction false} PriceRises(days: map<Slot, Row>, rows: seq<Slot>, s: Slot, price: int)
    requires s in days && (forall x :: x in rows ==> x in days)
    requires forall i, j :: 0 <= i < j < |rows| ==> rows[i] != rows[j]
    ensures Price(days[s := days[s].(price := price)], rows)
            == Price(days, rows) + if s in rows then price - days[s].price else 0
  {
    if rows != [] {
      var n := |rows| - 1;
      PriceRises(days, rows[..n], s, price);
      assert rows == rows[..n] + [rows[n]];
    }
  }

  /** Adds `delta` to the remaining count of the given rows. */
  function Shift(days: map<Slot, Row>, rows: set<Slot>, delta: int): map<Slot, Row> {
    map s | s in days :: if s in rows then days[s].(remaining := days[s].remaining + delta) else days[s]
  }

  // ---------- the law ----------

  /** Bookings in these states keep their nights. */
  predicate Live(st: Status) { st in {HOLD, REVIEW, PAID, CONFIRMED} }

  function LiveSet(bookings: map<Id, Booking>, s: Slot): set<Id> {
    set id | id in bookings && Live(bookings[id].status) && Covers(bookings[id], s)
  }

  /** Every row: what remains is not negative, and together with the live bookings
      covering the row it makes up the stock the calendar has set. */
  ghost predicate Conserved(db: Db) {
    db.stock.Keys == db.days.Keys && forall s :: s in db.days ==> RowConserved(db, s)
  }

  ghost predicate RowConserved(db: Db, s: Slot)
    requires s in db.days && s in db.stock
  {
    db.days[s].remaining >= 0 && db.days[s].remaining + |LiveSet(db.bookings, s)| == db.stock[s]
  }

  /** What a booking takes from each row it covers. */
  function Taken(bookings: map<Id, Booking>, id: Id): int {
    if id in bookings && Live(bookings[id].status) then 1 else 0
  }

  /** All transitions of one booking have this shape: write the booking, shift some rows. */
  function Move(db: Db, id: Id, b: Booking, rows: set<Slot>, delta: int): Db {
    db.(bookings := db.bookings[id := b], days := Shift(db.days, rows, delta))
  }

  lemma LiveSetAfter(bookings: map<Id, Booking>, id: Id, b: Booking, s: Slot)
    requires id in bookings ==> (Covers(bookings[id], s) <==> Covers(b, s))
    ensures |LiveSet(bookings[id := b], s)| == |LiveSet(bookings, s)|
              + (if Covers(b, s) then (if Live(b.status) then 1 else 0) - Taken(bookings, id) else 0)
  {
    var before, after := LiveSet(bookings, s), LiveSet(bookings[id := b], s);
    if Live(b.status) && Covers(b, s) {
      assert after == before + {id};
    } else {
      assert after == before - {id};
    }
  }

  ghost predicate SameWindow(bookings: map<Id, Booking>, id: Id, b: Booking) {
    id in bookings ==>
      bookings[id].prop == b.prop && bookings[id].checkIn == b.checkIn && bookings[id].checkOut == b.checkOut
  }

  /** The rows are shifted by what the booking no longer takes, nowhere else, and by
      nothing that is not there. */
  ghost predicate Balanced(db: Db, id: Id, b: Booking, rows: set<Slot>, delta: int) {
    forall s :: s in db.days ==> BalancedAt(db, id, b, rows, delta, s)
  }

  ghost predicate BalancedAt(db: Db, id: Id, b: Booking, rows: set<Slot>, delta: int, s: Slot)
    requires s in db.days
  {
    && (if s in rows then delta else 0)
       == (if Covers(b, s) then Taken(db.bookings, id) - (if Live(b.status) then 1 else 0) else 0)
    && db.days[s].remaining + (if s in rows then delta else 0) >= 0
  }

  lemma MoveConservesAt(db: Db, id: Id, b: Booking, rows: set<Slot>, delta: int, s: Slot)
    requires Conserved(db) && SameWindow(db.bookings, id, b) && s in db.days
    ensures s in Move(db, id, b, rows, delta).days
    ensures RowConserved(Move(db, id, b, rows, delta), s) <==> BalancedAt(db, id, b, rows, delta, s)
  {
    assert RowConserved(db, s);
    LiveSetAfter(db.bookings, id, b, s);
  }

  /** A transition keeps the law exactly when it is balanced on every row. */
  lemma MoveConservesIff(db: Db, id: Id, b: Booking, rows: set<Slot>, delta: int)
    requires Conserved(db) && SameWindow(db.bookings, id, b)
    ensures Conserved(Move(db, id, b, rows, delta)) <==> Balanced(db, id, b, rows, delta)
  {
    var db' := Move(db, id, b, rows, delta);
    assert db'.days.Keys == db.days.Keys;
    forall s | s in db.days ensures RowConserved(db', s) <==> BalancedAt(db, id, b, rows, delta, s) {
      MoveConservesAt(db, id, b, rows, delta, s);
    }
    if Conserved(db') {
      forall s | s in db.days ensures BalancedAt(db, id, b, rows, delta, s) { assert RowConserved(db', s); }
    }
  }

  // ---------- transactions ----------

  predicate Free(days: map<Slot, Row>, rows: seq<Slot>)
    requires forall s :: s in rows ==> s in days
  {
    forall i :: 0 <= i < |rows| ==> !days[rows[i]].blocked && days[rows[i]].remaining > 0
  }

  /** The booking a hold writes: cancelled at once when high risk is declined outright, in
      review for medium or high risk, otherwise a plain hold. */
  function HeldBooking(cfg: Config, user: string, prop: string, checkIn: int, checkOut: int,
                       total: int, fa: Assessment, now: int): Booking
  {
    if fa.level == HIGH && cfg.autoDeclineHigh then Booking(prop, user, checkIn, checkOut, CANCELLED, None, total)
    else if !fa.skipped && fa.level != LOW then
      Booking(prop, user, checkIn, checkOut, REVIEW, Some(now + cfg.reviewMs), total)
    else Booking(prop, user, checkIn, checkOut, HOLD, Some(now + cfg.holdMs), total)
  }

  /** The transaction of `hold`: as many rows as the server counts days, all free, then one
      night taken from each row unless the booking was declined. */
  function HoldTx(cfg: Config, db: Db, id: Id, user: string, prop: string,
                  checkIn: int, checkOut: int, fa: Assessment, now: int): Result<Db, Error>
  {
    var rows := Window(db.days, prop, checkIn, checkOut);
    if |rows| != ServerDays(cfg.serverOffset, checkIn, checkOut) || !Free(db.days, rows) then Err(NotAvailable)
    else
      Ok(TakeNights(db, id, HeldBooking(cfg, user, prop, checkIn, checkOut, Price(db.days, rows), fa, now)))
  }

  /** Records a new booking and, if it is live, takes its nights. */
  function TakeNights(db: Db, id: Id, b: Booking): Db {
    if b.status == CANCELLED then Move(db, id, b, {}, 0).(verdicts := db.verdicts[id := AUTO_DECLINED])
    else
      Move(db, id, b, WindowSet(db.days, b), -1)
      .(verdicts := if b.status == REVIEW then db.verdicts[id := PENDING] else db.verdicts)
  }

  /** `hold` up to its transaction: dates to local midnights, one to thirty nights. */
  function HoldOp(cfg: Config, db: Db, id: Id, user: string, prop: string,
                  from: DateInput, to: DateInput, fa: Assessment, now: int): Result<Db, Error>
  {
    var checkIn, checkOut := ToUtcBucket(cfg.zone, from), ToUtcBucket(cfg.zone, to);
    if checkIn.None? || checkOut.None? then Err(InvalidDate)
    else if Nights(checkIn.value, checkOut.value) <= 0 then Err(InvalidRange)
    else if Nights(checkIn.value, checkOut.value) > MAX_NIGHTS then Err(TooManyNights)
    else HoldTx(cfg, db, id, user, prop, checkIn.value, checkOut.value, fa, now)
  }

  /** Closes a booking and gives its nights back, by the range of its stay. */
  function Release(db: Db, id: Id, st: Status): Db
    requires id in db.bookings
  {
    var b := db.bookings[id].(status := st);
    Move(db, id, b, WindowSet(db.days, b), 1)
  }

  function ReviewApproveTx(db: Db, id: Id): Result<Db, Error> {
    if id !in db.bookings then Err(NotFound)
    else if db.bookings[id].status != REVIEW then Err(WrongStatus)
    else if id !in db.verdicts then Err(NotFound)
    else Ok(Move(db, id, db.bookings[id].(status := CONFIRMED, holdExpiresAt := None), {}, 0)
            .(verdicts := db.verdicts[id := APPROVED]))
  }

  function ReviewDeclineTx(db: Db, id: Id): Result<Db, Error> {
    if id !in db.bookings then Err(NotFound)
    else if db.bookings[id].status != REVIEW then Err(WrongStatus)
    else if id !in db.verdicts then Err(NotFound)
    else Ok(Release(db, id, CANCELLED).(verdicts := db.verdicts[id := REJECTED]))
  }

  predicate Overdue(b: Booking, now: int) {
    b.status in {HOLD, REVIEW} && b.holdExpiresAt.Some? && b.holdExpiresAt.value < now
  }

  /** One booking of the expiry job; a booking that is no longer overdue is left alone. */
  function ExpireTx(db: Db, id: Id, now: int): Db {
    if id in db.bookings && Overdue(db.bookings[id], now) then Release(db, id, CANCELLED) else db
  }

  function CancelHoldTx(db: Db, user: string, id: Id): Result<Db, Error> {
    if id !in db.bookings then Err(NotFound)
    else if db.bookings[id].customer != user then Err(Forbidden)
    else if db.bookings[id].status !in {HOLD, REVIEW} then Err(WrongStatus)
    else Ok(Release(db, id, CANCELLED))
  }

  function CancelPaidTx(db: Db, user: string, id: Id): Result<Db, Error> {
    if id !in db.bookings then Err(NotFound)
    else if db.bookings[id].customer != user then Err(Forbidden)
    else if db.bookings[id].status !in {PAID, CONFIRMED} then Err(WrongStatus)
    else Ok(Release(db, id, REFUNDED).(payments :=
              if id in db.payments && db.payments[id] == Succeeded then db.payments[id := Refunded] else db.payments))
  }

  /** A reviewer's decision in the fraud module; only pending cases are decided.  Approval
      sends the booking back to HOLD.  Rejection returns the nights row by row, by equality
      of the row's date with the server-local midnights of the stay. */
  function FraudDecideTx(cfg: Config, db: Db, id: Id, approve: bool): Result<Db, Error> {
    if id !in db.verdicts then Err(NotFound)
    else if db.verdicts[id] != PENDING then Ok(db)
    else if id !in db.bookings then Err(NotFound)
    else if db.bookings[id].status != REVIEW then Err(WrongStatus)
    else if approve then
      Ok(Move(db, id, db.bookings[id].(status := HOLD), {}, 0).(verdicts := db.verdicts[id := APPROVED]))
    else
      var b := db.bookings[id].(status := CANCELLED);
      Ok(Move(db, id, b, EqualitySet(cfg, db.days, b), 1).(verdicts := db.verdicts[id := REJECTED]))
  }

  /** Rows whose date equals one of the server-local midnights of the stay. */
  function EqualitySet(cfg: Config, days: map<Slot, Row>, b: Booking): set<Slot> {
    set s | s in days && s.prop == b.prop
            && ServerMidnight(cfg.serverOffset, b.checkIn, b.checkOut, s.day * MS_PER_DAY)
  }

  predicate Settled(db: Db, id: Id) { id in db.payments && db.payments[id] in {Succeeded, Refunded} }

  /** A provider's success notice: settles the payment and confirms (or marks paid) the
      booking, whatever state the booking is in. */
  function PaymentSucceededTx(db: Db, id: Id, autoConfirm: bool): Result<Db, Error> {
    if id !in db.payments then Err(NotFound)
    else if Settled(db, id) then Ok(db)
    else if id !in db.bookings then Err(NotFound)
    else
      var b := db.bookings[id];
      var paid := db.(payments := db.payments[id := Succeeded]);
      if autoConfirm && b.status != CONFIRMED then
        Ok(Move(paid, id, b.(status := CONFIRMED, holdExpiresAt := None), {}, 0))
      else if !autoConfirm && b.status != PAID then Ok(Move(paid, id, b.(status := PAID, holdExpiresAt := None), {}, 0))
      else Ok(paid)
  }

  /** The mock provider's refund; a full one marks the booking refunded. */
  function MockRefundTx(db: Db, user: string, id: Id, full: bool): Result<Db, Error> {
    if id !in db.payments || id !in db.bookings then Err(NotFound)
    else if db.bookings[id].customer != user then Err(Forbidden)
    else if db.payments[id] != Succeeded then Err(NotSettled)
    else
      var refunded := db.(payments := db.payments[id := Refunded]);
      if full then Ok(Move(refunded, id, db.bookings[id].(status := REFUNDED), {}, 0)) else Ok(refunded)
  }

  /** One calendar item: creation needs a price, a blocked day has nothing remaining, and
      setting the remaining count resets the stock of the row. */
  function UpsertDayTx(db: Db, s: Slot, price: Option<int>, remaining: Option<int>, blocked: Option<bool>)
    : Result<Db, Error>
  {
    if (price.Some? && price.value < 0) || (remaining.Some? && remaining.value < 0) then Err(BadNumber)
    else
      var rem := if blocked == Some(true) then Some(0) else remaining;
      if s !in db.days then
        if price.None? then Err(PriceRequired)
        else
          var left := if rem.Some? then rem.value else 0;
          Ok(db.(days := db.days[s := Row(price.value, left, blocked == Some(true))],
                 stock := db.stock[s := left + |LiveSet(db.bookings, s)|]))
      else
        var row := db.days[s];
        var left := if rem.Some? then rem.value else row.remaining;
        Ok(db.(days := db.days[s := Row(if price.Some? then price.value else row.price, left,
                                        if blocked.Some? then blocked.value else row.blocked)],
               stock := if rem.Some? then db.stock[s := left + |LiveSet(db.bookings, s)|] else db.stock))
  }

  // ---------- runs ----------

  datatype Action =
    | DoHold(id: Id, user: string, prop: string, from: DateInput, to: DateInput, fa: Assessment, now: int)
    | DoApprove(id: Id)
    | DoDecline(id: Id)
    | DoExpire(id: Id, now: int)
    | DoCancelHold(user: string, id: Id)
    | DoCancelPaid(user: string, id: Id)
    | DoFraudDecide(id: Id, approve: bool)
    | DoPaymentSucceeded(id: Id, autoConfirm: bool)
    | DoMockRefund(user: string, id: Id, full: bool)
    | DoPaymentRecord(id: Id, st: PayStatus)
    | DoUpsertDay(s: Slot, price: Option<int>, remaining: Option<int>, blocked: Option<bool>)

  /** An aborted transaction leaves the tables as they were. */
  function Commit(db: Db, r: Result<Db, Error>): Db { if r.Ok? then r.value else db }

  function Step(cfg: Config, db: Db, a: Action): Db {
    match a
    case DoHold(id, user, prop, from, to, fa, now) =>
      if id in db.bookings then db else Commit(db, HoldOp(cfg, db, id, user, prop, from, to, fa, now))
    case DoApprove(id) => Commit(db, ReviewApproveTx(db, id))
    case DoDecline(id) => Commit(db, ReviewDeclineTx(db, id))
    case DoExpire(id, now) => ExpireTx(db, id, now)
    case DoCancelHold(user, id) => Commit(db, CancelHoldTx(db, user, id))
    case DoCancelPaid(user, id) => Commit(db, CancelPaidTx(db, user, id))
    case DoFraudDecide(id, approve) => Commit(db, FraudDecideTx(cfg, db, id, approve))
    case DoPaymentSucceeded(id, auto) => Commit(db, PaymentSucceededTx(db, id, auto))
    case DoMockRefund(user, id, full) => Commit(db, MockRefundTx(db, user, id, full))
    case DoPaymentRecord(id, st) => db.(payments := db.payments[id := st])
    case DoUpsertDay(s, price, remaining, blocked) => Commit(db, UpsertDayTx(db, s, price, remaining, blocked))
  }

  function Run(cfg: Config, db: Db, acts: seq<Action>): Db
    decreases |acts|
  {
    if acts == [] then db else Run(cfg, Step(cfg, db, acts[0]), acts[1..])
  }

  const EMPTY: Db := Db(map[], map[], map[], map[], map[])

  /** The three paths that do not keep the law on every booking, each with the condition
      under which it does: a success notice must find the booking live, a full mock refund
      must find it closed, and a fraud rejection must hit exactly the rows of the stay.
      (A booking that covers no row at all is out of the law's reach.) */
  ghost predicate Conforms(cfg: Config, db: Db, a: Action) {
    match a
    case DoPaymentSucceeded(id, auto) =>
      id in db.payments && !Settled(db, id) && id in db.bookings ==>
        Live(db.bookings[id].status) || WindowSet(db.days, db.bookings[id]) == {}
    case DoMockRefund(user, id, full) =>
      full && MockRefundTx(db, user, id, full).Ok? ==>
        !Live(db.bookings[id].status) || WindowSet(db.days, db.bookings[id]) == {}
    case DoFraudDecide(id, approve) =>
      !approve && id in db.verdicts && db.verdicts[id] == PENDING && FraudDecideTx(cfg, db, id, approve).Ok? ==>
        EqualitySet(cfg, db.days, db.bookings[id]) == WindowSet(db.days, db.bookings[id])
    case _ => true
  }

  lemma ReleaseConserves(db: Db, id: Id, st: Status)
    requires Conserved(db) && id in db.bookings && Live(db.bookings[id].status) && !Live(st)
    ensures Conserved(Release(db, id, st))
  {
    var b := db.bookings[id].(status := st);
    ReturnBalancedIff(db, id, b, WindowSet(db.days, b));
  }

  lemma FreeRowsHaveNights(days: map<Slot, Row>, b: Booking)
    requires Free(days, Window(days, b.prop, b.checkIn, b.checkOut))
    ensures forall s :: s in days && Covers(b, s) ==> days[s].remaining > 0
  {
    var rows := Window(days, b.prop, b.checkIn, b.checkOut);
    WindowIsWindowSet(days, b);
    forall s | s in days && Covers(b, s) ensures days[s].remaining > 0 {
      assert s in Elems(rows);
      var i :| 0 <= i < |rows| && rows[i] == s;
    }
  }

  lemma TakeNightsConserves(db: Db, id: Id, b: Booking)
    requires Conserved(db) && id !in db.bookings && (Live(b.status) || b.status == CANCELLED)
    requires forall s :: s in db.days && Covers(b, s) ==> db.days[s].remaining > 0
    ensures Conserved(TakeNights(db, id, b))
  {
    if b.status == CANCELLED {
      forall s | s in db.days ensures BalancedAt(db, id, b, {}, 0, s) { assert RowConserved(db, s); }
      MoveConservesIff(db, id, b, {}, 0);
      SameLaw(Move(db, id, b, {}, 0), TakeNights(db, id, b));
    } else {
      forall s | s in db.days ensures BalancedAt(db, id, b, WindowSet(db.days, b), -1, s) { }
      MoveConservesIff(db, id, b, WindowSet(db.days, b), -1);
      SameLaw(Move(db, id, b, WindowSet(db.days, b), -1), TakeNights(db, id, b));
    }
  }

  lemma HoldConserves(cfg: Config, db: Db, id: Id, user: string, prop: string,
                      checkIn: int, checkOut: int, fa: Assessment, now: int)
    requires Conserved(db) && id !in db.bookings
    ensures var r := HoldTx(cfg, db, id, user, prop, checkIn, checkOut, fa, now);
            r.Ok? ==> Conserved(r.value)
  {
    var rows := Window(db.days, prop, checkIn, checkOut);
    if |rows| == ServerDays(cfg.serverOffset, checkIn, checkOut) && Free(db.days, rows) {
      var b := HeldBooking(cfg, user, prop, checkIn, checkOut, Price(db.days, rows), fa, now);
      FreeRowsHaveNights(db.days, b);
      TakeNightsConserves(db, id, b);
    }
  }

  lemma ReturnBalancedIff(db: Db, id: Id, b: Booking, rows: set<Slot>)
    requires Conserved(db) && SameWindow(db.bookings, id, b) && rows <= db.days.Keys
    requires id in db.bookings && Live(db.bookings[id].status) && !Live(b.status)
    ensures Conserved(Move(db, id, b, rows, 1)) <==> rows == WindowSet(db.days, b)
  {
    MoveConservesIff(db, id, b, rows, 1);
    if Balanced(db, id, b, rows, 1) {
      forall s ensures s in rows <==> s in WindowSet(db.days, b) {
        if s in db.days { assert BalancedAt(db, id, b, rows, 1, s); }
      }
    }
    if rows == WindowSet(db.days, b) {
      forall s | s in db.days ensures BalancedAt(db, id, b, rows, 1, s) { assert RowConserved(db, s); }
    }
  }

  lemma FraudRejectConservesIff(cfg: Config, db: Db, id: Id)
    requires Conserved(db) && id in db.bookings && db.bookings[id].status == REVIEW
    requires id in db.verdicts && db.verdicts[id] == PENDING
    ensures Conserved(FraudDecideTx(cfg, db, id, false).value)
            <==> EqualitySet(cfg, db.days, db.bookings[id]) == WindowSet(db.days, db.bookings[id])
  {
    var b := db.bookings[id].(status := CANCELLED);
    var rows := EqualitySet(cfg, db.days, b);
    SameStayRows(cfg, db.days, db.bookings[id], b);
    ReturnBalancedIff(db, id, b, rows);
    var moved := Move(db, id, b, rows, 1);
    assert FraudDecideTx(cfg, db, id, false).value == moved.(verdicts := db.verdicts[id := REJECTED]);
    SameLaw(moved, moved.(verdicts := db.verdicts[id := REJECTED]));
  }

  lemma SameStayRows(cfg: Config, days: map<Slot, Row>, a: Booking, b: Booking)
    requires a.prop == b.prop && a.checkIn == b.checkIn && a.checkOut == b.checkOut
    ensures EqualitySet(cfg, days, a) == EqualitySet(cfg, days, b) && WindowSet(days, a) == WindowSet(days, b)
  {
    forall s ensures Covers(a, s) == Covers(b, s) { }
  }

  /** The law does not look at verdicts or payments. */
  lemma SameLaw(db: Db, db': Db)
    requires db.days == db'.days && db.bookings == db'.bookings && db.stock == db'.stock
    ensures Conserved(db) <==> Conserved(db')
  {
    if db.stock.Keys == db.days.Keys {
      forall s | s in db.days ensures RowConserved(db, s) <==> RowConserved(db', s) { }
    }
  }

  lemma StatusOnlyConservesIff(db: Db, id: Id, b: Booking)
    requires Conserved(db) && id in db.bookings && SameWindow(db.bookings, id, b)
    ensures Conserved(Move(db, id, b, {}, 0))
            <==> Live(db.bookings[id].status) == Live(b.status) || WindowSet(db.days, db.bookings[id]) == {}
  {
    MoveConservesIff(db, id, b, {}, 0);
    if Live(db.bookings[id].status) == Live(b.status) || WindowSet(db.days, db.bookings[id]) == {} {
      forall s | s in db.days ensures BalancedAt(db, id, b, {}, 0, s) {
        assert RowConserved(db, s);
        assert s !in WindowSet(db.days, db.bookings[id]) ==> !Covers(b, s);
      }
    } else {
      var s :| s in WindowSet(db.days, db.bookings[id]);
      assert Covers(b, s) && !BalancedAt(db, id, b, {}, 0, s);
    }
  }

  lemma UpsertConserves(db: Db, s: Slot, price: Option<int>, remaining: Option<int>, blocked: Option<bool>)
    requires Conserved(db)
    ensures Conserved(Commit(db, UpsertDayTx(db, s, price, remaining, blocked)))
  {
    var r := UpsertDayTx(db, s, price, remaining, blocked);
    if r.Ok? {
      var row := r.value.days[s];
      RestockConserves(db, s, row);
      if s in db.days && row.remaining == db.days[s].remaining { RelabelConserves(db, s, row); }
    }
  }

  lemma RestockConserves(db: Db, s: Slot, row: Row)
    requires Conserved(db) && row.remaining >= 0
    ensures Conserved(db.(days := db.days[s := row], stock := db.stock[s := row.remaining + |LiveSet(db.bookings, s)|]))
  {
    var db' := db.(days := db.days[s := row], stock := db.stock[s := row.remaining + |LiveSet(db.bookings, s)|]);
    assert db'.stock.Keys == db'.days.Keys;
    forall t | t in db'.days ensures RowConserved(db', t) { if t != s { assert RowConserved(db, t); } }
  }

  lemma RelabelConserves(db: Db, s: Slot, row: Row)
    requires Conserved(db) && s in db.days && row.remaining == db.days[s].remaining
    ensures Conserved(db.(days := db.days[s := row]))
  {
    var db' := db.(days := db.days[s := row]);
    assert db'.stock.Keys == db'.days.Keys;
    forall t | t in db'.days ensures RowConserved(db', t) { assert RowConserved(db, t); }
  }

  /** The service's own transactions keep the law unconditionally. */
  lemma OwnStepConserves(cfg: Config, db: Db, a: Action)
    requires Conserved(db)
    requires a.DoApprove? || a.DoDecline? || a.DoExpire? || a.DoCancelHold? || a.DoCancelPaid?
    ensures Conserved(Step(cfg, db, a))
  {
    var id, db' := a.id, Step(cfg, db, a);
    if db' != db {
      var b := db.bookings[id];
      if a.DoApprove? {
        var b' := b.(status := CONFIRMED, holdExpiresAt := None);
        StatusOnlyConservesIff(db, id, b');
        SameLaw(Move(db, id, b', {}, 0), db');
      } else {
        var st := if a.DoCancelPaid? then REFUNDED else CANCELLED;
        ReleaseConserves(db, id, st);
        SameLaw(Release(db, id, st), db');
      }
    }
  }

  lemma HoldStepConserves(cfg: Config, db: Db, a: Action)
    requires Conserved(db) && a.DoHold?
    ensures Conserved(Step(cfg, db, a))
  {
    var checkIn, checkOut := ToUtcBucket(cfg.zone, a.from), ToUtcBucket(cfg.zone, a.to);
    if a.id !in db.bookings && checkIn.Some? && checkOut.Some? {
      HoldConserves(cfg, db, a.id, a.user, a.prop, checkIn.value, checkOut.value, a.fa, a.now);
    }
  }

  lemma FraudStepConservesIff(cfg: Config, db: Db, id: Id, approve: bool)
    requires Conserved(db)
    ensures Conserved(Step(cfg, db, DoFraudDecide(id, approve))) <==> Conforms(cfg, db, DoFraudDecide(id, approve))
  {
    if FraudDecideTx(cfg, db, id, approve).Ok? && db.verdicts[id] == PENDING {
      if approve {
        var b := db.bookings[id].(status := HOLD);
        StatusOnlyConservesIff(db, id, b);
        SameLaw(Move(db, id, b, {}, 0), Step(cfg, db, DoFraudDecide(id, approve)));
      } else {
        FraudRejectConservesIff(cfg, db, id);
      }
    }
  }

  /** Per step, for all eleven kinds of transaction at once: from a state that keeps the
      law, the step keeps it if and only if it conforms. */
  lemma StepConservesIff(cfg: Config, db: Db, a: Action)
    requires Conserved(db)
    ensures Conserved(Step(cfg, db, a)) <==> Conforms(cfg, db, a)
  {
    match a
    case DoHold(_, _, _, _, _, _, _) => HoldStepConserves(cfg, db, a);
    case DoFraudDecide(id, approve) => FraudStepConservesIff(cfg, db, id, approve);
    case DoPaymentSucceeded(id, auto) => PaymentConservesIff(cfg, db, id, auto);
    case DoMockRefund(user, id, full) => RefundConservesIff(cfg, db, user, id, full);
    case DoPaymentRecord(id, st) => SameLaw(db, Step(cfg, db, a));
    case DoUpsertDay(s, price, remaining, blocked) => UpsertConserves(db, s, price, remaining, blocked);
    case _ => OwnStepConserves(cfg, db, a);
  }

  lemma PaymentConservesIff(cfg: Config, db: Db, id: Id, auto: bool)
    requires Conserved(db)
    ensures Conserved(Step(cfg, db, DoPaymentSucceeded(id, auto))) <==> Conforms(cfg, db, DoPaymentSucceeded(id, auto))
  {
    if id in db.payments && !Settled(db, id) && id in db.bookings {
      var paid := db.(payments := db.payments[id := Succeeded]);
      SameLaw(db, paid);
      var b := db.bookings[id];
      StatusOnlyConservesIff(paid, id, b.(status := CONFIRMED, holdExpiresAt := None));
      StatusOnlyConservesIff(paid, id, b.(status := PAID, holdExpiresAt := None));
    }
  }

  lemma RefundConservesIff(cfg: Config, db: Db, user: string, id: Id, full: bool)
    requires Conserved(db)
    ensures Conserved(Step(cfg, db, DoMockRefund(user, id, full))) <==> Conforms(cfg, db, DoMockRefund(user, id, full))
  {
    if MockRefundTx(db, user, id, full).Ok? {
      var b, db' := db.bookings[id].(status := REFUNDED), Step(cfg, db, DoMockRefund(user, id, full));
      StatusOnlyConservesIff(db, id, b);
      SameLaw(if full then Move(db, id, b, {}, 0) else db, db');
    }
  }

  ghost predicate Conforming(cfg: Config, db: Db, acts: seq<Action>)
    decreases |acts|
  {
    acts == [] || (Conforms(cfg, db, acts[0]) && Conforming(cfg, Step(cfg, db, acts[0]), acts[1..]))
  }

  /** Conservation over every run of any number of bookings, properties and days. */
  lemma {:induction false} RunConserves(cfg: Config, db: Db, acts: seq<Action>)
    requires Conserved(db) && Conforming(cfg, db, acts)
    ensures Conserved(Run(cfg, db, acts))
    decreases |acts|
  {
    if acts != [] {
      StepConservesIff(cfg, db, acts[0]);
      RunConserves(cfg, Step(cfg, db, acts[0]), acts[1..]);
    }
  }

  // ---------- what stays as it is ----------

  /** Every booking covers at least one night and at least one row; and when the server counts
      its days as it has nights, all rows of its stay are in the calendar.  Rows are never
      deleted, so each release finds the rows the hold took. */
  ghost predicate Booked(cfg: Config, db: Db) {
    forall id :: id in db.bookings ==> WellHeld(cfg, db.days.Keys, db.bookings[id])
  }

  ghost predicate WellHeld(cfg: Config, rows: set<Slot>, b: Booking) {
    && Nights(b.checkIn, b.checkOut) == CeilDay(b.checkOut) - CeilDay(b.checkIn) > 0
    && (exists s :: s in rows && Covers(b, s))
    && (Counted(cfg, b) ==> AllNights(rows, b))
  }

  ghost predicate AllNights(rows: set<Slot>, b: Booking) {
    forall day :: CeilDay(b.checkIn) <= day < CeilDay(b.checkOut) ==> Slot(b.prop, day) in rows
  }

  /** The server counts as many days as the stay has nights. */
  predicate Counted(cfg: Config, b: Booking) {
    ServerDays(cfg.serverOffset, b.checkIn, b.checkOut) == Nights(b.checkIn, b.checkOut)
  }

  lemma MoveBooked(cfg: Config, db: Db, id: Id, b: Booking, rows: set<Slot>, delta: int)
    requires Booked(cfg, db) && WellHeld(cfg, db.days.Keys, b)
    ensures Booked(cfg, Move(db, id, b, rows, delta))
  {
    assert Shift(db.days, rows, delta).Keys == db.days.Keys;
  }

  lemma HoldIsBooked(cfg: Config, db: Db, id: Id, user: string, prop: string,
                     from: DateInput, to: DateInput, fa: Assessment, now: int)
    requires EastZone(cfg.zone) && Booked(cfg, db) && id !in db.bookings
    ensures Booked(cfg, Step(cfg, db, DoHold(id, user, prop, from, to, fa, now)))
  {
    var r := HoldOp(cfg, db, id, user, prop, from, to, fa, now);
    if r.Ok? {
      var checkIn, checkOut := ToUtcBucket(cfg.zone, from).value, ToUtcBucket(cfg.zone, to).value;
      var rows := Window(db.days, prop, checkIn, checkOut);
      var b := HeldBooking(cfg, user, prop, checkIn, checkOut, Price(db.days, rows), fa, now);
      HeldStayIsThere(cfg, db, b, LabelOf(cfg.zone, from).value, LabelOf(cfg.zone, to).value);
      MoveBooked(cfg, db, id, b, {}, 0);
      MoveBooked(cfg, db, id, b, WindowSet(db.days, b), -1);
    }
  }

  /** The row count of a hold, read as a statement about the rows. */
  lemma HeldStayIsThere(cfg: Config, db: Db, b: Booking, d: int, e: int)
    requires EastZone(cfg.zone) && b.checkIn == Midnight(cfg.zone, d) && b.checkOut == Midnight(cfg.zone, e)
    requires Nights(b.checkIn, b.checkOut) > 0
    requires |Window(db.days, b.prop, b.checkIn, b.checkOut)| == ServerDays(cfg.serverOffset, b.checkIn, b.checkOut)
    ensures WellHeld(cfg, db.days.Keys, b) && (AllNights(db.days.Keys, b) <==> Counted(cfg, b))
  {
    var rows := Window(db.days, b.prop, b.checkIn, b.checkOut);
    WindowIsTheStay(cfg.zone, d, e, d);
    MidnightCeil(cfg.zone, d);
    MidnightCeil(cfg.zone, e);
    RowsExact(db.days, b.prop, d, e);
    assert rows[0] in rows && rows[0] in db.days;
    WindowBounds(b.checkIn, b.checkOut, rows[0].day);
  }

  /** An accepted hold has found every night of the stay if and only if the server counts as
      many days as there are nights. */
  lemma HoldFindsEveryNightIff(cfg: Config, db: Db, id: Id, user: string, prop: string,
                               from: DateInput, to: DateInput, fa: Assessment, now: int)
    requires EastZone(cfg.zone) && HoldOp(cfg, db, id, user, prop, from, to, fa, now).Ok?
    ensures var b := HoldOp(cfg, db, id, user, prop, from, to, fa, now).value.bookings[id];
            AllNights(db.days.Keys, b) <==> Counted(cfg, b)
  {
    var checkIn, checkOut := ToUtcBucket(cfg.zone, from).value, ToUtcBucket(cfg.zone, to).value;
    var rows := Window(db.days, prop, checkIn, checkOut);
    var b := HeldBooking(cfg, user, prop, checkIn, checkOut, Price(db.days, rows), fa, now);
    assert HoldOp(cfg, db, id, user, prop, from, to, fa, now).value == TakeNights(db, id, b);
    HeldStayIsThere(cfg, db, b, LabelOf(cfg.zone, from).value, LabelOf(cfg.zone, to).value);
  }

  /** A stay of one to thirty nights, all of them in the calendar and free, is accepted under
      the same condition, put in offsets: the server stands in the same day at both ends. */
  lemma FreeStayAcceptedIff(cfg: Config, db: Db, id: Id, user: string, prop: string, d: int, e: int, fa: Assessment,
        now: int)
    requires EastZone(cfg.zone) && 1 <= e - d <= MAX_NIGHTS
    requires forall day :: d <= day < e ==>
               && Slot(prop, day) in db.days
               && !db.days[Slot(prop, day)].blocked
               && db.days[Slot(prop, day)].remaining > 0
    ensures HoldOp(cfg, db, id, user, prop, DateOnly(d), DateOnly(e), fa, now).Ok?
            <==>
            FloorDay(cfg.serverOffset - cfg.zone.midnightOffset(d))
            == FloorDay(cfg.serverOffset - cfg.zone.midnightOffset(e))
  {
    var rows := Window(db.days, prop, Midnight(cfg.zone, d), Midnight(cfg.zone, e));
    WindowIsTheStay(cfg.zone, d, e, d);
    MidnightCeil(cfg.zone, d);
    MidnightCeil(cfg.zone, e);
    RowsExact(db.days, prop, d, e);
    ServerDaysIff(cfg.zone, cfg.serverOffset, d, e);
    forall i | 0 <= i < |rows| ensures !db.days[rows[i]].blocked && db.days[rows[i]].remaining > 0 {
      assert rows[i] in rows && rows[i] == Slot(prop, rows[i].day);
    }
  }

  lemma MidnightCeil(z: Zone, d: int)
    requires EastZone(z)
    ensures CeilDay(Midnight(z, d)) == d
  {
    assert 0 <= z.midnightOffset(d) < MS_PER_DAY;
  }

  lemma StepBooked(cfg: Config, db: Db, a: Action)
    requires EastZone(cfg.zone) && Booked(cfg, db)
    ensures Booked(cfg, Step(cfg, db, a))
  {
    if a.DoHold? {
      if a.id !in db.bookings { HoldIsBooked(cfg, db, a.id, a.user, a.prop, a.from, a.to, a.fa, a.now); }
    } else if a.DoUpsertDay? {
      UpsertKeepsRows(cfg, db, a);
      MoreRowsBooked(cfg, db, Step(cfg, db, a));
    } else if a.id in db.bookings {
      OneBookingStep(cfg, db, a);
      BookedByFrame(cfg, db, Step(cfg, db, a), a.id);
    } else {
      NoBookingStep(cfg, db, a);
    }
  }

  lemma MoreRowsBooked(cfg: Config, db: Db, db': Db)
    requires Booked(cfg, db) && db'.bookings == db.bookings && db.days.Keys <= db'.days.Keys
    ensures Booked(cfg, db')
  {
    forall id | id in db'.bookings ensures WellHeld(cfg, db'.days.Keys, db'.bookings[id]) {
      assert WellHeld(cfg, db.days.Keys, db.bookings[id]);
      var s :| s in db.days.Keys && Covers(db.bookings[id], s);
      assert s in db'.days.Keys;
    }
  }

  lemma UpsertKeepsRows(cfg: Config, db: Db, a: Action)
    requires a.DoUpsertDay?
    ensures Step(cfg, db, a).bookings == db.bookings && Step(cfg, db, a).days.Keys >= db.days.Keys
  {
  }

  /** One booking written, its stay kept, no row dropped. */
  ghost predicate Framed(db: Db, db': Db, id: Id) {
    && id in db.bookings && id in db'.bookings
    && db'.bookings == db.bookings[id := db'.bookings[id]]
    && SameWindow(db.bookings, id, db'.bookings[id])
    && db'.days.Keys == db.days.Keys
  }

  lemma MoveFramed(db: Db, id: Id, b: Booking, rows: set<Slot>, delta: int)
    requires id in db.bookings && SameWindow(db.bookings, id, b)
    ensures Framed(db, Move(db, id, b, rows, delta), id)
  {
  }

  lemma OneBookingStep(cfg: Config, db: Db, a: Action)
    requires !a.DoHold? && !a.DoUpsertDay? && a.id in db.bookings
    ensures Framed(db, Step(cfg, db, a), a.id)
  {
    var id := a.id;
    var b := db.bookings[id];
    assert db.bookings == db.bookings[id := b];
    match a
    case DoApprove(_) => MoveFramed(db, id, b.(status := CONFIRMED, holdExpiresAt := None), {}, 0);
    case DoFraudDecide(_, approve) =>
      MoveFramed(db, id, b.(status := HOLD), {}, 0);
      MoveFramed(db, id, b.(status := CANCELLED), EqualitySet(cfg, db.days, b.(status := CANCELLED)), 1);
    case DoPaymentSucceeded(_, auto) =>
      var paid := db.(payments := db.payments[id := Succeeded]);
      MoveFramed(paid, id, b.(status := CONFIRMED, holdExpiresAt := None), {}, 0);
      MoveFramed(paid, id, b.(status := PAID, holdExpiresAt := None), {}, 0);
    case DoMockRefund(_, _, full) =>
      MoveFramed(db.(payments := db.payments[id := Refunded]), id, b.(status := REFUNDED), {}, 0);
    case DoPaymentRecord(_, st) =>
    case _ =>
      MoveFramed(db, id, b.(status := CANCELLED), WindowSet(db.days, b.(status := CANCELLED)), 1);
      MoveFramed(db, id, b.(status := REFUNDED), WindowSet(db.days, b.(status := REFUNDED)), 1);
  }

  lemma NoBookingStep(cfg: Config, db: Db, a: Action)
    requires !a.DoHold? && !a.DoUpsertDay? && a.id !in db.bookings
    ensures Step(cfg, db, a).bookings == db.bookings && Step(cfg, db, a).days == db.days
  {
  }

  lemma BookedByFrame(cfg: Config, db: Db, db': Db, id: Id)
    requires Booked(cfg, db) && Framed(db, db', id)
    ensures Booked(cfg, db')
  {
    var b, b' := db.bookings[id], db'.bookings[id];
    assert WellHeld(cfg, db.days.Keys, b);
    var s :| s in db.days.Keys && Covers(b, s);
    assert Covers(b', s);
  }

  lemma {:induction false} RunBooked(cfg: Config, db: Db, acts: seq<Action>)
    requires EastZone(cfg.zone) && Booked(cfg, db)
    ensures Booked(cfg, Run(cfg, db, acts))
    decreases |acts|
  {
    if acts != [] {
      StepBooked(cfg, db, acts[0]);
      RunBooked(cfg, Step(cfg, db, acts[0]), acts[1..]);
    }
  }

  function Stay(prop: string, lo: int, hi: int): set<Slot> { set k: int | lo <= k < hi :: Slot(prop, k) }

  /** After any run, in a zone east of Greenwich: a booking has at least one night and at least
      one row; and if the server counts its days as it has nights, the rows a release returns
      are one per night of the stay, and none is missing. */
  lemma ReleaseReturnsEveryNight(cfg: Config, acts: seq<Action>, id: Id)
    requires EastZone(cfg.zone) && id in Run(cfg, EMPTY, acts).bookings
    ensures var db := Run(cfg, EMPTY, acts);
            var b := db.bookings[id];
            && WindowSet(db.days, b) != {}
            && CeilDay(b.checkOut) - CeilDay(b.checkIn) == Nights(b.checkIn, b.checkOut) > 0
            && (Counted(cfg, b) ==> WindowSet(db.days, b) == Stay(b.prop, CeilDay(b.checkIn), CeilDay(b.checkOut)))
  {
    RunBooked(cfg, EMPTY, acts);
    StayIsWindow(cfg, Run(cfg, EMPTY, acts), id);
  }

  lemma StayIsWindow(cfg: Config, db: Db, id: Id)
    requires Booked(cfg, db) && id in db.bookings
    ensures var b := db.bookings[id];
            Counted(cfg, b) ==> WindowSet(db.days, b) == Stay(b.prop, CeilDay(b.checkIn), CeilDay(b.checkOut))
    ensures WindowSet(db.days, db.bookings[id]) != {}
  {
    var b := db.bookings[id];
    assert WellHeld(cfg, db.days.Keys, b);
    var at :| at in db.days.Keys && Covers(b, at);
    assert at in WindowSet(db.days, b);
    if Counted(cfg, b) {
      forall s ensures s in WindowSet(db.days, b) <==> s in Stay(b.prop, CeilDay(b.checkIn), CeilDay(b.checkOut)) {
        WindowBounds(b.checkIn, b.checkOut, s.day);
      }
    }
  }

  /** With one fixed offset, like that of the zone in force by default, every stay is counted
      right, wherever the server stands. */
  lemma FixedZoneCounts(off: int, serverOffset: int, d: int, e: int)
    requires 0 <= off < MS_PER_DAY && d < e
    ensures var z := FixedZone(off);
            ServerDays(serverOffset, Midnight(z, d), Midnight(z, e)) == Nights(Midnight(z, d), Midnight(z, e)) == e - d
  {
    ServerDaysIff(FixedZone(off), serverOffset, d, e);
    WindowIsTheStay(FixedZone(off), d, e, d);
  }

  /** On booked tables the conditions on the payment paths need no escape clause. */
  lemma ConformsOnBooked(cfg: Config, db: Db, id: Id, auto: bool)
    requires Booked(cfg, db) && id in db.bookings && id in db.payments && !Settled(db, id)
    ensures Conforms(cfg, db, DoPaymentSucceeded(id, auto)) <==> Live(db.bookings[id].status)
  {
    StayIsWindow(cfg, db, id);
  }

  lemma RefundConformsOnBooked(cfg: Config, db: Db, user: string, id: Id)
    requires Booked(cfg, db) && MockRefundTx(db, user, id, true).Ok?
    ensures Conforms(cfg, db, DoMockRefund(user, id, true)) <==> !Live(db.bookings[id].status)
  {
    StayIsWindow(cfg, db, id);
  }

  // ---------- when a fraud rejection returns the right rows ----------

  /** The days a rejection looks for, on a server at UTC midnights. */
  function FirstSought(b: Booking): int { FloorDay(SpanStart(b.checkIn, b.checkOut)) }

  function LastSought(b: Booking): int { FloorDay(SpanEnd(b.checkIn, b.checkOut)) }

  lemma SoughtDays(cfg: Config, b: Booking, day: int)
    requires cfg.serverOffset % MS_PER_DAY == 0
    ensures ServerMidnight(cfg.serverOffset, b.checkIn, b.checkOut, day * MS_PER_DAY)
            <==> FirstSought(b) <= day <= LastSought(b)
  {
    var o := cfg.serverOffset / MS_PER_DAY;
    var first := FirstSought(b);
    assert cfg.serverOffset == o * MS_PER_DAY;
    MultiplePlus(day, cfg.serverOffset);
    ShiftedDay(o, SpanStart(b.checkIn, b.checkOut));
    assert FloorDay(SpanStart(b.checkIn, b.checkOut) + cfg.serverOffset) * MS_PER_DAY - cfg.serverOffset
      == first * MS_PER_DAY;
    assert first * MS_PER_DAY <= day * MS_PER_DAY <==> first <= day;
  }

  /** The days sought are those of the stay, except that one may be sought before its first
      night and its last night may not be sought. */
  lemma SoughtAroundStay(b: Booking)
    requires Nights(b.checkIn, b.checkOut) == CeilDay(b.checkOut) - CeilDay(b.checkIn) > 0
    ensures CeilDay(b.checkIn) - 1 <= FirstSought(b) <= CeilDay(b.checkIn)
    ensures CeilDay(b.checkOut) - 2 <= LastSought(b) <= CeilDay(b.checkOut) - 1
  {
  }

  /** When a fraud rejection returns the right rows, for every booked stay: the server must be
      on UTC days, the day before the stay must not be sought or have no row, and the last
      night must be sought or have no row. */
  lemma EqualityReturnsTheStayIff(cfg: Config, db: Db, id: Id)
    requires Booked(cfg, db) && id in db.bookings
    ensures var b := db.bookings[id];
            var first, last := CeilDay(b.checkIn), CeilDay(b.checkOut) - 1;
            EqualitySet(cfg, db.days, b) == WindowSet(db.days, b)
            <==> && cfg.serverOffset % MS_PER_DAY == 0
                 && (FirstSought(b) == first || Slot(b.prop, FirstSought(b)) !in db.days)
                 && (LastSought(b) == last || Slot(b.prop, last) !in db.days)
  {
    var b := db.bookings[id];
    StayIsWindow(cfg, db, id);
    assert WellHeld(cfg, db.days.Keys, b);
    if cfg.serverOffset % MS_PER_DAY == 0 {
      SoughtAroundStay(b);
      AlignedEqualityIff(cfg, db.days, b);
    } else {
      forall s | s in EqualitySet(cfg, db.days, b) ensures false { MultiplePlus(s.day, cfg.serverOffset); }
    }
  }

  lemma AlignedEqualityIff(cfg: Config, days: map<Slot, Row>, b: Booking)
    requires cfg.serverOffset % MS_PER_DAY == 0
    requires CeilDay(b.checkIn) - 1 <= FirstSought(b) <= CeilDay(b.checkIn) < CeilDay(b.checkOut)
    requires CeilDay(b.checkOut) - 2 <= LastSought(b) <= CeilDay(b.checkOut) - 1
    ensures var first, last := CeilDay(b.checkIn), CeilDay(b.checkOut) - 1;
            EqualitySet(cfg, days, b) == WindowSet(days, b)
            <==> && (FirstSought(b) == first || Slot(b.prop, FirstSought(b)) !in days)
                 && (LastSought(b) == last || Slot(b.prop, last) !in days)
  {
    var first, last := CeilDay(b.checkIn), CeilDay(b.checkOut) - 1;
    forall s | s in days && s.prop == b.prop
      ensures s in EqualitySet(cfg, days, b) <==> FirstSought(b) <= s.day <= LastSought(b)
      ensures s in WindowSet(days, b) <==> first <= s.day <= last
    {
      SoughtDays(cfg, b, s.day);
      WindowBounds(b.checkIn, b.checkOut, s.day);
    }
    if EqualitySet(cfg, days, b) == WindowSet(days, b) {
      var before, end := Slot(b.prop, FirstSought(b)), Slot(b.prop, last);
      assert before in days ==> (before in EqualitySet(cfg, days, b) <==> before in WindowSet(days, b));
      assert end in days ==> (end in EqualitySet(cfg, days, b) <==> end in WindowSet(days, b));
    }
  }

  /** For a stay with all its rows whose midnights have the same offset, that comes down to
      this: the server runs on UTC days and so does the inventory. */
  lemma EqualityNeedsUtc(cfg: Config, db: Db, id: Id)
    requires Booked(cfg, db) && id in db.bookings && AllNights(db.days.Keys, db.bookings[id])
    requires (db.bookings[id].checkIn - db.bookings[id].checkOut) % MS_PER_DAY == 0
    ensures EqualitySet(cfg, db.days, db.bookings[id]) == WindowSet(db.days, db.bookings[id])
            <==> cfg.serverOffset % MS_PER_DAY == 0 && db.bookings[id].checkIn % MS_PER_DAY == 0
  {
    var b := db.bookings[id];
    assert WellHeld(cfg, db.days.Keys, b);
    EqualityReturnsTheStayIff(cfg, db, id);
    SameOffsetSought(b);
  }

  lemma SameOffsetSought(b: Booking)
    requires Nights(b.checkIn, b.checkOut) == CeilDay(b.checkOut) - CeilDay(b.checkIn) > 0
    requires (b.checkIn - b.checkOut) % MS_PER_DAY == 0
    ensures LastSought(b) == CeilDay(b.checkOut) - 1 <==> b.checkIn % MS_PER_DAY == 0
    ensures b.checkIn % MS_PER_DAY == 0 ==> FirstSought(b) == CeilDay(b.checkIn)
  {
    var n := (b.checkOut - b.checkIn) / MS_PER_DAY;
    MultiplePlus(n, b.checkIn);
    assert b.checkOut == n * MS_PER_DAY + b.checkIn && b.checkOut % MS_PER_DAY == b.checkIn % MS_PER_DAY;
  }

  lemma MultiplePlus(k: int, r: int)
    ensures (k * MS_PER_DAY + r) % MS_PER_DAY == r % MS_PER_DAY
  {
    assert k * MS_PER_DAY + r == (k + r / MS_PER_DAY) * MS_PER_DAY + r % MS_PER_DAY;
  }

  // ---------- closing is final ----------

  predicate Closed(db: Db, id: Id) { id in db.bookings && !Live(db.bookings[id].status) }

  /** A success notice for a payment that is not settled brings its booking back. */
  predicate Reopens(db: Db, a: Action, id: Id) {
    a.DoPaymentSucceeded? && a.id == id && id in db.payments && !Settled(db, id)
  }

  /** A closed booking stays closed in a step if and only if the step is not such a notice. */
  lemma StaysClosedIff(cfg: Config, db: Db, a: Action, id: Id)
    requires Closed(db, id)
    ensures Closed(Step(cfg, db, a), id) <==> !Reopens(db, a, id)
    ensures !a.DoMockRefund? && !Reopens(db, a, id) ==> Step(cfg, db, a).bookings[id] == db.bookings[id]
  {
    if !a.DoHold? && !a.DoUpsertDay? {
      if a.id in db.bookings { OneBookingStep(cfg, db, a); } else { NoBookingStep(cfg, db, a); }
    }
  }

  ghost predicate NeverReopens(cfg: Config, db: Db, acts: seq<Action>, id: Id)
    decreases |acts|
  {
    acts == [] ||
    ((Closed(db, id) ==> !Reopens(db, acts[0], id)) && NeverReopens(cfg, Step(cfg, db, acts[0]), acts[1..], id))
  }

  ghost predicate ClosedThroughout(cfg: Config, db: Db, acts: seq<Action>, id: Id)
    decreases |acts|
  {
    Closed(db, id) && (acts == [] || ClosedThroughout(cfg, Step(cfg, db, acts[0]), acts[1..], id))
  }

  /** Over every run: a closed booking is closed in every state of it if and only if no notice
      reopens it. */
  lemma {:induction false} ClosedThroughoutIff(cfg: Config, db: Db, acts: seq<Action>, id: Id)
    requires Closed(db, id)
    ensures ClosedThroughout(cfg, db, acts, id) <==> NeverReopens(cfg, db, acts, id)
    decreases |acts|
  {
    if acts != [] {
      StaysClosedIff(cfg, db, acts[0], id);
      if !Reopens(db, acts[0], id) { ClosedThroughoutIff(cfg, Step(cfg, db, acts[0]), acts[1..], id); }
    }
  }

  // ---------- nights given back ----------

  /** By how much a step raises the remaining count of a row. */
  function Raised(db: Db, db': Db, s: Slot): nat {
    if s in db.days && s in db'.days && db'.days[s].remaining > db.days[s].remaining
    then db'.days[s].remaining - db.days[s].remaining else 0
  }

  /** A step on an existing booking, as opposed to a hold or a change of the calendar. */
  predicate OnBooking(a: Action, id: Id) { !a.DoHold? && !a.DoUpsertDay? && a.id == id }

  /** A step on a booking raises a row by one night at most, and only when it closes it. */
  lemma RaiseCloses(cfg: Config, db: Db, a: Action, s: Slot)
    requires !a.DoHold? && !a.DoUpsertDay?
    ensures Raised(db, Step(cfg, db, a), s) <= 1
    ensures Raised(db, Step(cfg, db, a), s) == 1 ==>
              a.id in db.bookings && Live(db.bookings[a.id].status) && Closed(Step(cfg, db, a), a.id)
  {
    if a.id !in db.bookings { NoBookingStep(cfg, db, a); }
  }

  /** What a release of the bookings service does to every row: the covered ones get a night
      back and the others stay. */
  lemma ReleaseRaises(cfg: Config, db: Db, a: Action, s: Slot)
    requires a.DoDecline? || a.DoExpire? || a.DoCancelHold? || a.DoCancelPaid?
    requires s in db.days && a.id in db.bookings
    ensures var db' := Step(cfg, db, a);
            && s in db'.days
            && db'.days[s].remaining == db.days[s].remaining
                 + (if Live(db.bookings[a.id].status) && Closed(db', a.id) && Covers(db.bookings[a.id], s)
                    then 1 else 0)
  {
  }

  /** Nights of row `s` given back by the steps of a run on booking `id`. */
  function Returned(cfg: Config, db: Db, acts: seq<Action>, id: Id, s: Slot): nat
    decreases |acts|
  {
    if acts == [] then 0
    else
      var db' := Step(cfg, db, acts[0]);
      (if OnBooking(acts[0], id) then Raised(db, db', s) else 0) + Returned(cfg, db', acts[1..], id, s)
  }

  /** Over every run in which no notice reopens the booking: each row gets at most one night
      back for it, and none once it is closed. */
  lemma {:induction false} GivenBackAtMostOnce(cfg: Config, db: Db, acts: seq<Action>, id: Id, s: Slot)
    requires NeverReopens(cfg, db, acts, id)
    ensures Returned(cfg, db, acts, id, s) <= 1
    ensures Closed(db, id) ==> Returned(cfg, db, acts, id, s) == 0
    decreases |acts|
  {
    if acts != [] {
      var db' := Step(cfg, db, acts[0]);
      GivenBackAtMostOnce(cfg, db', acts[1..], id, s);
      if OnBooking(acts[0], id) { RaiseCloses(cfg, db, acts[0], s); }
      if Closed(db, id) { StaysClosedIff(cfg, db, acts[0], id); }
    }
  }

  /** What closing means for the guest: a booking closes as REFUNDED exactly when it was
      paid for or confirmed, and as CANCELLED otherwise. */
  lemma ClosesByState(cfg: Config, db: Db, a: Action, id: Id)
    requires !a.DoMockRefund? && !a.DoHold?
    requires id in db.bookings && Live(db.bookings[id].status) && Closed(Step(cfg, db, a), id)
    ensures Step(cfg, db, a).bookings[id].status
              == if db.bookings[id].status in {PAID, CONFIRMED} then REFUNDED else CANCELLED
  {
  }

  /** An accepted hold, taken apart. */
  lemma AcceptedHold(cfg: Config, db: Db, id: Id, user: string, prop: string,
                     from: DateInput, to: DateInput, fa: Assessment, now: int) returns (rows: seq<Slot>, b: Booking)
    requires HoldOp(cfg, db, id, user, prop, from, to, fa, now).Ok?
    ensures ToUtcBucket(cfg.zone, from).Some? && ToUtcBucket(cfg.zone, to).Some?
    ensures var checkIn, checkOut := ToUtcBucket(cfg.zone, from).value, ToUtcBucket(cfg.zone, to).value;
            && rows == Window(db.days, prop, checkIn, checkOut) && Free(db.days, rows)
            && b == HeldBooking(cfg, user, prop, checkIn, checkOut, Price(db.days, rows), fa, now)
    ensures HoldOp(cfg, db, id, user, prop, from, to, fa, now) == Ok(TakeNights(db, id, b))
    ensures Elems(rows) == WindowSet(db.days, b)
  {
    var checkIn, checkOut := ToUtcBucket(cfg.zone, from).value, ToUtcBucket(cfg.zone, to).value;
    rows := Window(db.days, prop, checkIn, checkOut);
    b := HeldBooking(cfg, user, prop, checkIn, checkOut, Price(db.days, rows), fa, now);
    WindowIsWindowSet(db.days, b);
  }

  lemma TakeNightsFrame(db: Db, id: Id, b: Booking)
    ensures TakeNights(db, id, b).bookings == db.bookings[id := b] && TakeNights(db, id, b).payments == db.payments
    ensures TakeNights(db, id, b).verdicts
            == if b.status == CANCELLED then db.verdicts[id := AUTO_DECLINED]
               else if b.status == REVIEW then db.verdicts[id := PENDING] else db.verdicts
  {
  }

  /** What an accepted hold records: the stay at its local midnights; for high risk that is
      declined outright a cancelled booking without a deadline, for other risk of at least medium
      level a review with its own deadline, and otherwise a hold.  No other booking, verdict or
      payment changes. */
  lemma HoldRecords(cfg: Config, db: Db, id: Id, user: string, prop: string, d: int, e: int, fa: Assessment, now: int)
    requires HoldOp(cfg, db, id, user, prop, DateOnly(d), DateOnly(e), fa, now).Ok?
    ensures var db' := HoldOp(cfg, db, id, user, prop, DateOnly(d), DateOnly(e), fa, now).value;
            var declined := fa.level == HIGH && cfg.autoDeclineHigh;
            var risky := !declined && !fa.skipped && (fa.level == MEDIUM || fa.level == HIGH);
            && id in db'.bookings && db'.bookings == db.bookings[id := db'.bookings[id]] && db'.payments == db.payments
            && db'.verdicts == (if declined then db.verdicts[id := AUTO_DECLINED]
                                else if risky then db.verdicts[id := PENDING] else db.verdicts)
            && var b := db'.bookings[id];
               && b.prop == prop && b.customer == user
               && b.checkIn == d * MS_PER_DAY - cfg.zone.midnightOffset(d)
               && b.checkOut == e * MS_PER_DAY - cfg.zone.midnightOffset(e)
               && b.status == (if declined then CANCELLED else if risky then REVIEW else HOLD)
               && b.holdExpiresAt == (if declined then None
                                      else if risky then Some(now + cfg.reviewMs) else Some(now + cfg.holdMs))
  {
    var rows, b := AcceptedHold(cfg, db, id, user, prop, DateOnly(d), DateOnly(e), fa, now);
    TakeNightsFrame(db, id, b);
  }

  /** What it takes: every row found was open and had a night left; a live booking takes one from
      each of them, and from no other row. */
  lemma HoldTakes(cfg: Config, db: Db, id: Id, user: string, prop: string,
                  from: DateInput, to: DateInput, fa: Assessment, now: int, s: Slot)
    requires HoldOp(cfg, db, id, user, prop, from, to, fa, now).Ok? && s in db.days
    ensures var db' := HoldOp(cfg, db, id, user, prop, from, to, fa, now).value;
            && s in db'.days
            && var b, row := db'.bookings[id], db.days[s];
               if Covers(b, s) then
                 && !row.blocked && row.remaining > 0
                 && db'.days[s] == Row(row.price, row.remaining - (if b.status == CANCELLED then 0 else 1), false)
               else db'.days[s] == row
  {
    var rows, b := AcceptedHold(cfg, db, id, user, prop, from, to, fa, now);
    assert s in WindowSet(db.days, b) <==> Covers(b, s);
    if Covers(b, s) { assert s in Elems(rows); }
  }

  /** What it charges: the price of each day found, added up; so at one price for all, that many
      times the price, and a day whose price was another makes that difference. */
  lemma HoldCharges(cfg: Config, db: Db, id: Id, user: string, prop: string,
                    from: DateInput, to: DateInput, fa: Assessment, now: int, s: Slot, price: int)
    requires HoldOp(cfg, db, id, user, prop, from, to, fa, now).Ok? && s in db.days
    ensures var b := HoldOp(cfg, db, id, user, prop, from, to, fa, now).value.bookings[id];
            var dearer := HoldOp(cfg, Repriced(db, s, price), id, user, prop, from, to, fa, now);
            && ((forall x :: x in db.days && Covers(b, x) ==> db.days[x].price == price) ==>
                  b.totalPrice == |WindowSet(db.days, b)| * price)
            && dearer.Ok?
            && dearer.value.bookings[id].totalPrice
               == b.totalPrice + if Covers(b, s) then price - db.days[s].price else 0
  {
    var rows, b := AcceptedHold(cfg, db, id, user, prop, from, to, fa, now);
    RepricedAccepted(cfg, db, id, user, prop, from, to, fa, now, s, price);
    var rows', b' := AcceptedHold(cfg, Repriced(db, s, price), id, user, prop, from, to, fa, now);
    SameKeysSameRows(db.days, Repriced(db, s, price).days, prop, CeilDay(b.checkIn), CeilDay(b.checkOut));
    RowsExact(db.days, prop, CeilDay(b.checkIn), CeilDay(b.checkOut));
    PriceRises(db.days, rows, s, price);
    assert s in Elems(rows) <==> Covers(b, s);
    WindowCount(db.days, b);
    if forall x :: x in db.days && Covers(b, x) ==> db.days[x].price == price {
      assert forall x :: x in rows ==> x in Elems(rows);
      FlatPrice(db.days, rows, price);
    }
  }

  function Repriced(db: Db, s: Slot, price: int): Db
    requires s in db.days
  {
    db.(days := db.days[s := db.days[s].(price := price)])
  }

  lemma RepricedAccepted(cfg: Config, db: Db, id: Id, user: string, prop: string,
                         from: DateInput, to: DateInput, fa: Assessment, now: int, s: Slot, price: int)
    requires HoldOp(cfg, db, id, user, prop, from, to, fa, now).Ok? && s in db.days
    ensures HoldOp(cfg, Repriced(db, s, price), id, user, prop, from, to, fa, now).Ok?
  {
    var checkIn, checkOut := ToUtcBucket(cfg.zone, from).value, ToUtcBucket(cfg.zone, to).value;
    SameKeysSameRows(db.days, Repriced(db, s, price).days, prop, CeilDay(checkIn), CeilDay(checkOut));
  }

  lemma {:induction false} SameKeysSameRows(days: map<Slot, Row>, days': map<Slot, Row>, prop: string, lo: int, hi: int)
    requires days.Keys == days'.Keys
    ensures Rows(days, prop, lo, hi) == Rows(days', prop, lo, hi)
    decreases hi - lo
  {
    if lo < hi { SameKeysSameRows(days, days', prop, lo + 1, hi); }
  }

  /** When the dates alone refuse a hold. */
  lemma HoldRefusesDates(cfg: Config, db: Db, id: Id, user: string, prop: string,
                         d: int, e: int, fa: Assessment, now: int)
    requires EastZone(cfg.zone)
    ensures var r := HoldOp(cfg, db, id, user, prop, DateOnly(d), DateOnly(e), fa, now);
            && (r == Err(InvalidRange) <==> e <= d) && (r == Err(TooManyNights) <==> e - d > 30)
            && (r.Err? && d < e <= d + 30 ==> r == Err(NotAvailable))
  {
    if d < e {
      WindowIsTheStay(cfg.zone, d, e, d);
    } else if e < d {
      WindowIsTheStay(cfg.zone, e, d, e);
    }
  }

  /** A successful hold: a deadline exactly when the booking is live, cancelled exactly when
      high risk is declined outright, one to thirty nights, and one row for each day the
      server counts. */
  lemma HoldHasDeadline(cfg: Config, db: Db, id: Id, user: string, prop: string,
                        from: DateInput, to: DateInput, fa: Assessment, now: int)
    requires HoldOp(cfg, db, id, user, prop, from, to, fa, now).Ok?
    ensures var b := HoldOp(cfg, db, id, user, prop, from, to, fa, now).value.bookings[id];
            && (b.holdExpiresAt.Some? <==> Live(b.status))
            && (b.status == CANCELLED <==> fa.level == HIGH && cfg.autoDeclineHigh)
            && 1 <= Nights(b.checkIn, b.checkOut) <= MAX_NIGHTS
            && |WindowSet(db.days, b)| == ServerDays(cfg.serverOffset, b.checkIn, b.checkOut)
  {
    var checkIn, checkOut := ToUtcBucket(cfg.zone, from).value, ToUtcBucket(cfg.zone, to).value;
    var rows := Window(db.days, prop, checkIn, checkOut);
    var b := HeldBooking(cfg, user, prop, checkIn, checkOut, Price(db.days, rows), fa, now);
    assert HoldOp(cfg, db, id, user, prop, from, to, fa, now).value == TakeNights(db, id, b);
    WindowCount(db.days, b);
  }

  lemma WindowCount(days: map<Slot, Row>, b: Booking)
    ensures |WindowSet(days, b)| == |Window(days, b.prop, b.checkIn, b.checkOut)|
  {
    WindowIsWindowSet(days, b);
    RowsExact(days, b.prop, CeilDay(b.checkIn), CeilDay(b.checkOut));
    DistinctCount(Window(days, b.prop, b.checkIn, b.checkOut));
  }

  lemma {:induction false} DistinctCount(rows: seq<Slot>)
    requires forall i, j :: 0 <= i < j < |rows| ==> rows[i].day < rows[j].day
    ensures |Elems(rows)| == |rows|
  {
    if rows != [] {
      var n := |rows| - 1;
      DistinctCount(rows[..n]);
      ElemsStep(rows, n);
      assert rows[n] !in rows[..n] && rows[..n + 1] == rows;
    }
  }
}
