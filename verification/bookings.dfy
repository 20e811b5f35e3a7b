/** The bookings service over its tables.  Every transaction runs its row loops as the
    service does and is proved to be the transaction of the inventory model; the expiry
    job is proved to settle everything overdue at once. */
module Bookings {
  import opened Common
  import opened NightBuckets
  import opened Inventory

  const BATCH: nat := 200

  function OverdueSet(bookings: map<Id, Booking>, now: int): set<Id> {
    set id | id in bookings && Overdue(bookings[id], now)
  }

  function CancelAll(bookings: map<Id, Booking>, ids: set<Id>): map<Id, Booking> {
    map id | id in bookings :: if id in ids then bookings[id].(status := CANCELLED) else bookings[id]
  }

  function CoveredBy(bookings: map<Id, Booking>, ids: set<Id>, s: Slot): set<Id> {
    set id | id in ids && id in bookings && Covers(bookings[id], s)
  }

  /** Each row grows by the number of the given bookings that cover it. */
  function ReturnAll(days: map<Slot, Row>, bookings: map<Id, Booking>, ids: set<Id>): map<Slot, Row> {
    map s | s in days :: days[s].(remaining := days[s].remaining + |CoveredBy(bookings, ids, s)|)
  }

  function ExpireSet(db: Db, ids: set<Id>): Db {
    db.(bookings := CancelAll(db.bookings, ids), days := ReturnAll(db.days, db.bookings, ids))
  }

  lemma ExpireSetEmpty(db: Db)
    ensures ExpireSet(db, {}) == db
  {
    assert forall s :: s in db.days ==> CoveredBy(db.bookings, {}, s) == {};
    assert ReturnAll(db.days, db.bookings, {}) == db.days;
    assert CancelAll(db.bookings, {}) == db.bookings;
  }

  lemma CoveredByAdd(bookings: map<Id, Booking>, ids: set<Id>, id: Id, s: Slot)
    requires id in bookings && id !in ids
    ensures |CoveredBy(bookings, ids + {id}, s)|
            == |CoveredBy(bookings, ids, s)| + if Covers(bookings[id], s) then 1 else 0
  {
    var grown := CoveredBy(bookings, ids + {id}, s);
    if Covers(bookings[id], s) {
      assert grown == CoveredBy(bookings, ids, s) + {id};
    } else {
      assert grown == CoveredBy(bookings, ids, s);
    }
  }

  lemma ReturnOneMore(days: map<Slot, Row>, bookings: map<Id, Booking>, ids: set<Id>, id: Id)
    requires id in bookings && id !in ids
    ensures Shift(ReturnAll(days, bookings, ids), WindowSet(days, bookings[id]), 1)
            == ReturnAll(days, bookings, ids + {id})
  {
    forall s | s in days
      ensures Shift(ReturnAll(days, bookings, ids), WindowSet(days, bookings[id]), 1)[s]
           == ReturnAll(days, bookings, ids + {id})[s]
    {
      CoveredByAdd(bookings, ids, id, s);
    }
  }

  /** Expiring one more booking. */
  lemma ExpireSetAdd(db: Db, ids: set<Id>, id: Id, now: int)
    requires id in OverdueSet(db.bookings, now) && id !in ids
    ensures ExpireTx(ExpireSet(db, ids), id, now) == ExpireSet(db, ids + {id})
  {
    var mid, b := ExpireSet(db, ids), db.bookings[id];
    assert mid.bookings[id] == b;
    assert mid.bookings[id := b.(status := CANCELLED)] == CancelAll(db.bookings, ids + {id});
    assert WindowSet(mid.days, b.(status := CANCELLED)) == WindowSet(db.days, b);
    ReturnOneMore(db.days, db.bookings, ids, id);
  }

  lemma OverdueAfter(db: Db, ids: set<Id>, now: int)
    ensures OverdueSet(ExpireSet(db, ids).bookings, now) == OverdueSet(db.bookings, now) - ids
  {
  }

  /** Expiring a set of overdue bookings one after the other, in any order, keeps the law. */
  lemma {:induction false} ExpireSetConserves(db: Db, ids: set<Id>, now: int)
    requires Conserved(db) && ids <= OverdueSet(db.bookings, now)
    ensures Conserved(ExpireSet(db, ids))
    decreases |ids|
  {
    if ids == {} {
      ExpireSetEmpty(db);
    } else {
      var id :| id in ids;
      ExpireSetConserves(db, ids - {id}, now);
      ExpireSetAdd(db, ids - {id}, id, now);
      assert ids - {id} + {id} == ids;
      OverdueAfter(db, ids - {id}, now);
      ReleaseConserves(ExpireSet(db, ids - {id}), id, CANCELLED);
    }
  }

  function Deadline(bookings: map<Id, Booking>, id: Id): int {
    if id in bookings && bookings[id].holdExpiresAt.Some? then bookings[id].holdExpiresAt.value else 0
  }

  lemma {:induction false} EarliestExists(bookings: map<Id, Booking>, ids: set<Id>)
    requires ids != {}
    ensures exists id :: id in ids && forall o :: o in ids ==> Deadline(bookings, id) <= Deadline(bookings, o)
    decreases |ids|
  {
    var id :| id in ids;
    if ids != {id} {
      EarliestExists(bookings, ids - {id});
      var best :| best in ids - {id}
        && forall o :: o in ids - {id} ==> Deadline(bookings, best) <= Deadline(bookings, o);
      var pick := if Deadline(bookings, id) <= Deadline(bookings, best) then id else best;
      assert pick in ids && forall o :: o in ids ==> Deadline(bookings, pick) <= Deadline(bookings, o);
    }
  }

  class BookingsService {
    const cfg: Config
    var days: map<Slot, Row>
    var bookings: map<Id, Booking>
    var verdicts: map<Id, Verdict>
    var payments: map<Id, PayStatus>
    ghost var stock: map<Slot, int>

    constructor (cfg: Config)
      ensures this.cfg == cfg && View() == EMPTY
    {
      this.cfg := cfg;
      days, bookings, verdicts, payments, stock := map[], map[], map[], map[], map[];
    }

    ghost function View(): Db
      reads this
    {
      Db(days, bookings, verdicts, payments, stock)
    }

    /** The locked range query: rows of the stay in date order. */
    method SelectRange(prop: string, checkIn: int, checkOut: int) returns (avs: seq<Slot>)
      ensures avs == Window(days, prop, checkIn, checkOut)
    {
      avs := [];
      var day, end := CeilDay(checkIn), CeilDay(checkOut);
      while day < end
        invariant avs + Rows(days, prop, day, end) == Window(days, prop, checkIn, checkOut)
      {
        if Slot(prop, day) in days { avs := avs + [Slot(prop, day)]; }
        day := day + 1;
      }
    }

    /** One update statement per row. */
    method UpdateEach(avs: seq<Slot>, delta: int)
      requires forall s :: s in avs ==> s in days
      requires forall i, j :: 0 <= i < j < |avs| ==> avs[i] != avs[j]
      modifies this`days
      ensures days == Shift(old(days), Elems(avs), delta)
    {
      var i := 0;
      while i < |avs|
        invariant 0 <= i <= |avs|
        invariant days == Shift(old(days), Elems(avs[..i]), delta)
      {
        var s := avs[i];
        assert s !in avs[..i];
        days := days[s := days[s].(remaining := days[s].remaining + delta)];
        ElemsStep(avs, i);
        i := i + 1;
      }
      assert avs[..i] == avs;
    }

    method ReturnNights(b: Booking)
      modifies this`days
      ensures days == Shift(old(days), WindowSet(old(days), b), 1)
    {
      var avs := SelectRange(b.prop, b.checkIn, b.checkOut);
      WindowIsWindowSet(days, b);
      RowsExact(days, b.prop, CeilDay(b.checkIn), CeilDay(b.checkOut));
      UpdateEach(avs, 1);
    }

    /** The availability check and the price of the locked rows. */
    method Quote(avs: seq<Slot>) returns (total: Option<int>)
      requires forall s :: s in avs ==> s in days
      ensures total == if Free(days, avs) then Some(Price(days, avs)) else None
    {
      var sum, i := 0, 0;
      while i < |avs|
        invariant 0 <= i <= |avs|
        invariant Free(days, avs[..i]) && sum == Price(days, avs[..i])
      {
        var row := days[avs[i]];
        if row.blocked || row.remaining <= 0 { return None; }
        sum := sum + row.price;
        i := i + 1;
        assert avs[..i][..i - 1] == avs[..i - 1];
      }
      assert avs[..i] == avs;
      return Some(sum);
    }

    method HoldInTx(id: Id, user: string, prop: string, checkIn: int, checkOut: int, fa: Assessment, now: int)
      returns (r: Result<Booking, Error>)
      requires id !in bookings
      modifies this
      ensures var spec := HoldTx(cfg, old(View()), id, user, prop, checkIn, checkOut, fa, now);
              && View() == Commit(old(View()), spec)
              && (r.Ok? <==> spec.Ok?) && (r.Err? ==> r.error == spec.error)
              && (r.Ok? ==> id in bookings && r.value == bookings[id])
    {
      var avs := SelectRange(prop, checkIn, checkOut);
      var daysRange := EachDayOfInterval(cfg.serverOffset, checkIn, checkOut - MS_PER_DAY);
      if |avs| != |daysRange| { return Err(NotAvailable); }
      var quote := Quote(avs);
      if quote.None? { return Err(NotAvailable); }
      var wantReview := !fa.skipped && (fa.level == MEDIUM || fa.level == HIGH);
      var b: Booking;
      if fa.level == HIGH && cfg.autoDeclineHigh {
        b := Booking(prop, user, checkIn, checkOut, CANCELLED, None, quote.value);
      } else {
        var expiry := now + if wantReview then cfg.reviewMs else cfg.holdMs;
        b := Booking(prop, user, checkIn, checkOut, if wantReview then REVIEW else HOLD, Some(expiry), quote.value);
      }
      Record(id, b, avs);
      r := Ok(b);
    }

    /** Inventory decrement, booking row and fraud assessment of a hold. */
    method Record(id: Id, b: Booking, avs: seq<Slot>)
      requires avs == Window(days, b.prop, b.checkIn, b.checkOut)
      modifies this
      ensures View() == TakeNights(old(View()), id, b)
    {
      if b.status == CANCELLED {
        verdicts := verdicts[id := AUTO_DECLINED];
        assert Shift(days, {}, 0) == days;
      } else {
        WindowIsWindowSet(days, b);
        RowsExact(days, b.prop, CeilDay(b.checkIn), CeilDay(b.checkOut));
        UpdateEach(avs, -1);
        if b.status == REVIEW { verdicts := verdicts[id := PENDING]; }
      }
      bookings := bookings[id := b];
    }

    method Hold(id: Id, user: string, prop: string, from: DateInput, to: DateInput, fa: Assessment, now: int)
      returns (r: Result<Booking, Error>)
      requires id !in bookings
      modifies this
      ensures var spec := HoldOp(cfg, old(View()), id, user, prop, from, to, fa, now);
              && View() == Commit(old(View()), spec)
              && (r.Ok? <==> spec.Ok?) && (r.Err? ==> r.error == spec.error)
              && (r.Ok? ==> id in bookings && r.value == bookings[id])
    {
      var checkIn, checkOut := ToUtcBucket(cfg.zone, from), ToUtcBucket(cfg.zone, to);
      if checkIn.None? || checkOut.None? { return Err(InvalidDate); }
      var nights := Nights(checkIn.value, checkOut.value);
      if nights <= 0 { return Err(InvalidRange); }
      if nights > MAX_NIGHTS { return Err(TooManyNights); }
      r := HoldInTx(id, user, prop, checkIn.value, checkOut.value, fa, now);
    }

    method ReviewApprove(id: Id) returns (r: Result<Booking, Error>)
      modifies this
      ensures View() == Commit(old(View()), ReviewApproveTx(old(View()), id))
      ensures r.Ok? <==> ReviewApproveTx(old(View()), id).Ok?
      ensures r.Ok? ==> r.value == bookings[id]
    {
      if id !in bookings { return Err(NotFound); }
      if bookings[id].status != REVIEW { return Err(WrongStatus); }
      if id !in verdicts { return Err(NotFound); }
      verdicts := verdicts[id := APPROVED];
      bookings := bookings[id := bookings[id].(status := CONFIRMED, holdExpiresAt := None)];
      assert Shift(days, {}, 0) == days;
      r := Ok(bookings[id]);
    }

    method ReviewDecline(id: Id) returns (r: Result<(), Error>)
      modifies this
      ensures View() == Commit(old(View()), ReviewDeclineTx(old(View()), id))
      ensures r.Ok? <==> ReviewDeclineTx(old(View()), id).Ok?
    {
      if id !in bookings { return Err(NotFound); }
      if bookings[id].status != REVIEW { return Err(WrongStatus); }
      if id !in verdicts { return Err(NotFound); }
      ReturnNights(bookings[id]);
      bookings := bookings[id := bookings[id].(status := CANCELLED)];
      verdicts := verdicts[id := REJECTED];
      assert WindowSet(old(days), bookings[id]) == WindowSet(old(days), old(bookings)[id]);
      r := Ok(());
    }

    method CancelHold(user: string, id: Id) returns (r: Result<Booking, Error>)
      modifies this
      ensures View() == Commit(old(View()), CancelHoldTx(old(View()), user, id))
      ensures r.Ok? <==> CancelHoldTx(old(View()), user, id).Ok?
    {
      if id !in bookings { return Err(NotFound); }
      if bookings[id].customer != user { return Err(Forbidden); }
      if bookings[id].status !in {HOLD, REVIEW} { return Err(WrongStatus); }
      bookings := bookings[id := bookings[id].(status := CANCELLED)];
      ReturnNights(bookings[id]);
      r := Ok(bookings[id]);
    }

    method CancelPaidOrConfirmed(user: string, id: Id) returns (r: Result<Booking, Error>)
      modifies this
      ensures View() == Commit(old(View()), CancelPaidTx(old(View()), user, id))
      ensures r.Ok? <==> CancelPaidTx(old(View()), user, id).Ok?
    {
      if id !in bookings { return Err(NotFound); }
      if bookings[id].customer != user { return Err(Forbidden); }
      if bookings[id].status != PAID && bookings[id].status != CONFIRMED { return Err(WrongStatus); }
      if id in payments && payments[id] == Succeeded { payments := payments[id := Refunded]; }
      ReturnNights(bookings[id]);
      bookings := bookings[id := bookings[id].(status := REFUNDED)];
      assert WindowSet(old(days), bookings[id]) == WindowSet(old(days), old(bookings)[id]);
      r := Ok(bookings[id]);
    }

    /** One transaction of the expiry job. */
    method ExpireOne(id: Id, now: int)
      modifies this
      ensures View() == ExpireTx(old(View()), id, now)
    {
      if id !in bookings || !Overdue(bookings[id], now) { return; }
      bookings := bookings[id := bookings[id].(status := CANCELLED)];
      ReturnNights(bookings[id]);
    }

    /** The job's query: the overdue bookings in order of deadline, at most `take` of them. */
    method FindOverdue(now: int, take: nat) returns (batch: seq<Id>)
      ensures forall i, j :: 0 <= i < j < |batch| ==> batch[i] != batch[j]
      ensures forall id :: id in batch ==> id in OverdueSet(bookings, now)
      ensures |batch| == if |OverdueSet(bookings, now)| < take then |OverdueSet(bookings, now)| else take
      ensures forall i, id :: 0 <= i < |batch| && id in OverdueSet(bookings, now) && id !in batch[..i]
                ==> Deadline(bookings, batch[i]) <= Deadline(bookings, id)
    {
      batch := [];
      var left := OverdueSet(bookings, now);
      while left != {} && |batch| < take
        invariant forall i, j :: 0 <= i < j < |batch| ==> batch[i] != batch[j]
        invariant forall id :: id in OverdueSet(bookings, now) <==> id in batch || id in left
        invariant forall id :: id in batch ==> id !in left
        invariant |batch| + |left| == |OverdueSet(bookings, now)| && |batch| <= take
        invariant forall i, id :: 0 <= i < |batch| && id in OverdueSet(bookings, now) && id !in batch[..i]
                    ==> Deadline(bookings, batch[i]) <= Deadline(bookings, id)
        decreases |left|
      {
        EarliestExists(bookings, left);
        var id :| id in left && forall o :: o in left ==> Deadline(bookings, id) <= Deadline(bookings, o);
        var before := batch;
        batch := batch + [id];
        left := left - {id};
        assert forall i :: 0 <= i <= |before| ==> batch[..i] == before[..i];
      }
    }

    /** The loop over one batch: each booking in its own transaction. */
    method ExpireBatch(batch: seq<Id>, now: int, ghost db: Db, ghost done: set<Id>) returns (ghost done': set<Id>)
      requires View() == ExpireSet(db, done) && done <= OverdueSet(db.bookings, now)
      requires forall i, j :: 0 <= i < j < |batch| ==> batch[i] != batch[j]
      requires forall i :: 0 <= i < |batch| ==> batch[i] in OverdueSet(db.bookings, now) && batch[i] !in done
      modifies this
      ensures done <= done' <= OverdueSet(db.bookings, now) && |done'| == |done| + |batch|
      ensures batch != [] ==> batch[0] in done'
      ensures View() == ExpireSet(db, done')
    {
      done' := done;
      for i := 0 to |batch|
        invariant done <= done' <= OverdueSet(db.bookings, now) && |done'| == |done| + i
        invariant View() == ExpireSet(db, done')
        invariant forall k :: i <= k < |batch| ==> batch[k] !in done'
        invariant i > 0 ==> batch[0] in done'
      {
        ExpireSetAdd(db, done', batch[i], now);
        ExpireOne(batch[i], now);
        done' := done' + {batch[i]};
      }
    }

    /** The expiry job run alone: batch after batch until nothing is overdue. */
    method ExpireHolds(now: int) returns (expired: nat)
      modifies this
      ensures expired == |OverdueSet(old(bookings), now)|
      ensures View() == ExpireSet(old(View()), OverdueSet(old(bookings), now))
      ensures OverdueSet(bookings, now) == {}
    {
      expired := 0;
      ghost var db, all, done: set<Id> := View(), OverdueSet(bookings, now), {};
      ExpireSetEmpty(db);
      while true
        invariant done <= all && View() == ExpireSet(db, done) && expired == |done|
        decreases |all - done|
      {
        OverdueAfter(db, done, now);
        var batch := FindOverdue(now, BATCH);
        if batch == [] { break; }
        ghost var was := done;
        assert forall i :: 0 <= i < |batch| ==> batch[i] in batch;
        done := ExpireBatch(batch, now, db, done);
        assert batch[0] in all - was && batch[0] in done;
        SmallerSet(all - done, all - was);
        expired := expired + |batch|;
      }
      assert all - done == {};
      assert done == all;
    }
  }
}
