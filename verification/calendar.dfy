/** The host's calendar upsert: items are validated, reduced to the last one of each day, and
    applied in chunks, each chunk in a transaction of its own. */
module Calendar {
  import opened Common
  import opened NightBuckets
  import opened Inventory

  const MAX_ITEMS: nat := 366
  const CHUNK: nat := 150

  /** An item as sent: an instant, and what to set. */
  datatype Item = Item(at: int, price: Option<int>, remaining: Option<int>, blocked: Option<bool>)

  datatype Refusal = ItemsRequired | TooManyItems | BadItem | MissingPrice

  function DayOf(it: Item): int { FloorDay(it.at) }

  predicate Acceptable(it: Item) {
    (it.price.Some? ==> it.price.value >= 0) && (it.remaining.Some? ==> it.remaining.value >= 0)
  }

  /** Last item of a day. */
  function LastFor(items: seq<Item>, day: int): Option<Item> {
    if items == [] then None
    else if DayOf(items[|items| - 1]) == day then Some(items[|items| - 1])
    else LastFor(items[..|items| - 1], day)
  }

  /** At most one item for each day, and for each day the last one sent. */
  ghost predicate Reduces(kept: seq<Item>, items: seq<Item>) {
    && (forall i, j :: 0 <= i < j < |kept| ==> DayOf(kept[i]) != DayOf(kept[j]))
    && (forall i :: 0 <= i < |kept| ==> LastFor(items, DayOf(kept[i])) == Some(kept[i]))
    && (forall day :: LastFor(items, day).Some? ==> HasDay(kept, day))
  }

  ghost predicate HasDay(kept: seq<Item>, day: int) { exists i :: 0 <= i < |kept| && DayOf(kept[i]) == day }

  /** Where a day stands among the items kept so far, or their number. */
  function PlaceOf(kept: seq<Item>, day: int): (at: nat)
    ensures at <= |kept| && (forall i :: 0 <= i < at ==> DayOf(kept[i]) != day)
    ensures at < |kept| ==> DayOf(kept[at]) == day
  {
    if kept == [] || DayOf(kept[0]) == day then 0 else 1 + PlaceOf(kept[1..], day)
  }

  /** What a map from days to items holds, in the order of its insertions: a day sent again
      keeps its place and takes the later item. */
  function Kept(items: seq<Item>): seq<Item> {
    if items == [] then []
    else
      var kept, it := Kept(items[..|items| - 1]), items[|items| - 1];
      var at := PlaceOf(kept, DayOf(it));
      if at < |kept| then kept[at := it] else kept + [it]
  }

  function Upsert(db: Db, prop: string, it: Item): Result<Db, Error> {
    UpsertDayTx(db, Slot(prop, DayOf(it)), it.price, it.remaining, it.blocked)
  }

  function UpsertAll(db: Db, prop: string, items: seq<Item>): Db {
    if items == [] then db
    else
      var before := UpsertAll(db, prop, items[..|items| - 1]);
      Commit(before, Upsert(before, prop, items[|items| - 1]))
  }

  /** Creating a day needs a price. */
  predicate Creatable(db: Db, prop: string, it: Item) { Slot(prop, DayOf(it)) in db.days || it.price.Some? }

  /** The first item whose day is new and lacks a price, or the number of items. */
  function FirstMissing(db: Db, prop: string, kept: seq<Item>): (k: nat)
    ensures k <= |kept| && forall i :: 0 <= i < k ==> Creatable(db, prop, kept[i])
    ensures k < |kept| ==> !Creatable(db, prop, kept[k])
  {
    if kept == [] || !Creatable(db, prop, kept[0]) then 0 else 1 + FirstMissing(db, prop, kept[1..])
  }

  /** How many items are applied: all of them, or the whole chunks before the first item that
      lacks its price. */
  function Applied(db: Db, prop: string, kept: seq<Item>): nat {
    var k := FirstMissing(db, prop, kept);
    if k == |kept| then k else k - k % CHUNK
  }

  /** A whole request: the tables afterwards and the answer. */
  function Requested(db: Db, prop: string, items: seq<Item>): (Db, Result<nat, Refusal>) {
    if items == [] then (db, Err(ItemsRequired))
    else if |items| > MAX_ITEMS then (db, Err(TooManyItems))
    else if !(forall it :: it in items ==> Acceptable(it)) then (db, Err(BadItem))
    else
      var kept := Kept(items);
      var done := Applied(db, prop, kept);
      (UpsertAll(db, prop, kept[..done]), if done == |kept| then Ok(done) else Err(MissingPrice))
  }

  lemma {:induction false} UpsertAllConserves(db: Db, prop: string, items: seq<Item>)
    requires Conserved(db)
    ensures Conserved(UpsertAll(db, prop, items)) && UpsertAll(db, prop, items).bookings == db.bookings
  {
    if items != [] {
      var init, it := items[..|items| - 1], items[|items| - 1];
      UpsertAllConserves(db, prop, init);
      UpsertConserves(UpsertAll(db, prop, init), Slot(prop, DayOf(it)), it.price, it.remaining, it.blocked);
    }
  }

  /** Whatever becomes of a request, the inventory law holds and no booking changed. */
  lemma RequestConserves(db: Db, prop: string, items: seq<Item>)
    requires Conserved(db)
    ensures Conserved(Requested(db, prop, items).0) && Requested(db, prop, items).0.bookings == db.bookings
  {
    UpsertAllConserves(db, prop, Kept(items)[..Applied(db, prop, Kept(items))]);
  }

  /** The rows after applying items of distinct days, seen from one row: the item of its day
      applied to the row as it was, or the row as it was. */
  ghost predicate RowSettled(db: Db, db': Db, prop: string, items: seq<Item>, s: Slot) {
    if s.prop == prop && LastFor(items, s.day).Some? then
      var r := Upsert(db, prop, LastFor(items, s.day).value);
      r.Ok? && s in r.value.days && s in db'.days && db'.days[s] == r.value.days[s]
    else (s in db'.days <==> s in db.days) && (s in db.days ==> db'.days[s] == db.days[s])
  }

  ghost predicate DistinctDays(items: seq<Item>) {
    forall i, j :: 0 <= i < j < |items| ==> DayOf(items[i]) != DayOf(items[j])
  }

  /** Items that can be applied one after the other. */
  ghost predicate Ready(db: Db, prop: string, items: seq<Item>) {
    && DistinctDays(items)
    && forall i :: 0 <= i < |items| ==> Acceptable(items[i]) && Creatable(db, prop, items[i])
  }

  lemma {:induction false} LastForIn(items: seq<Item>, day: int)
    ensures LastFor(items, day).Some? ==> LastFor(items, day).value in items && DayOf(LastFor(items, day).value) == day
    ensures LastFor(items, day).None? ==> forall x :: x in items ==> DayOf(x) != day
  {
    if items != [] {
      LastForIn(items[..|items| - 1], day);
      assert items == items[..|items| - 1] + [items[|items| - 1]];
    }
  }

  /** The effect of one item on its row depends on that row alone. */
  lemma UpsertIsLocal(db: Db, db1: Db, prop: string, it: Item)
    requires Acceptable(it) && Creatable(db, prop, it)
    requires var s := Slot(prop, DayOf(it));
             (s in db.days <==> s in db1.days) && (s in db.days ==> db.days[s] == db1.days[s])
    ensures var s := Slot(prop, DayOf(it));
            && Upsert(db, prop, it).Ok? && Upsert(db1, prop, it).Ok?
            && Upsert(db1, prop, it).value.days == db1.days[s := Upsert(db, prop, it).value.days[s]]
  {
  }

  lemma {:induction false} UpsertAllSettles(db: Db, prop: string, items: seq<Item>, s: Slot)
    requires Ready(db, prop, items)
    ensures RowSettled(db, UpsertAll(db, prop, items), prop, items, s)
    decreases |items|
  {
    if items != [] {
      var n := |items| - 1;
      var init, it := items[..n], items[n];
      var db1, s1 := UpsertAll(db, prop, init), Slot(prop, DayOf(it));
      UpsertAllSettles(db, prop, init, s1);
      UpsertAllSettles(db, prop, init, s);
      LastForIn(init, DayOf(it));
      assert LastFor(init, DayOf(it)).None? by { assert forall x :: x in init ==> DayOf(x) != DayOf(it); }
      SettlesStep(db, db1, prop, items, s);
    }
  }

  lemma SettlesStep(db: Db, db1: Db, prop: string, items: seq<Item>, s: Slot)
    requires items != [] && Acceptable(items[|items| - 1]) && Creatable(db, prop, items[|items| - 1])
    requires RowSettled(db, db1, prop, items[..|items| - 1], s)
    requires var s1 := Slot(prop, DayOf(items[|items| - 1]));
             (s1 in db.days <==> s1 in db1.days) && (s1 in db.days ==> db.days[s1] == db1.days[s1])
    ensures RowSettled(db, Commit(db1, Upsert(db1, prop, items[|items| - 1])), prop, items, s)
  {
    UpsertIsLocal(db, db1, prop, items[|items| - 1]);
  }

  lemma LastForSnoc(items: seq<Item>, it: Item, day: int)
    ensures LastFor(items + [it], day) == if DayOf(it) == day then Some(it) else LastFor(items, day)
  {
    assert (items + [it])[..|items|] == items;
  }

  class PropertyService {
    var days: map<Slot, Row>
    ghost var stock: map<Slot, int>
    ghost const others: Db

    constructor (db: Db)
      ensures View() == db
    {
      days, stock, others := db.days, db.stock, db;
    }

    ghost function View(): Db
      reads this
    {
      others.(days := days, stock := stock)
    }

    method FindDay(kept: seq<Item>, day: int) returns (at: nat)
      ensures at == PlaceOf(kept, day)
    {
      at := 0;
      while at < |kept| && DayOf(kept[at]) != day
        invariant at <= |kept| && forall i :: 0 <= i < at ==> DayOf(kept[i]) != day
      {
        at := at + 1;
      }
    }

    /** A map from days to items, in order of insertion: set replaces or appends. */
    method Dedupe(items: seq<Item>) returns (kept: seq<Item>)
      ensures kept == Kept(items) && Reduces(kept, items)
    {
      kept := [];
      for k := 0 to |items|
        invariant kept == Kept(items[..k])
      {
        assert items[..k + 1][..k] == items[..k];
        var at := FindDay(kept, DayOf(items[k]));
        if at < |kept| {
          kept := kept[at := items[k]];
        } else {
          kept := kept + [items[k]];
        }
      }
      assert items[..|items|] == items;
      KeptReduces(items);
    }

    /** One row, created or updated. */
    method UpsertDay(prop: string, it: Item)
      requires Acceptable(it) && Creatable(View(), prop, it)
      modifies this
      ensures View() == Commit(old(View()), Upsert(old(View()), prop, it))
    {
      var s := Slot(prop, DayOf(it));
      ghost var after := Commit(View(), Upsert(View(), prop, it));
      var remaining := if it.blocked == Some(true) then Some(0) else it.remaining;
      if s !in days {
        var left := if remaining.Some? then remaining.value else 0;
        days := days[s := Row(it.price.value, left, it.blocked == Some(true))];
      } else {
        if it.price.Some? { days := days[s := days[s].(price := it.price.value)]; }
        if remaining.Some? { days := days[s := days[s].(remaining := remaining.value)]; }
        if it.blocked.Some? { days := days[s := days[s].(blocked := it.blocked.value)]; }
      }
      stock := after.stock;
      assert days == after.days;
    }

    /** One chunk: nothing happens unless every new day of it has a price. */
    method UpsertChunk(prop: string, chunk: seq<Item>) returns (ok: bool)
      requires forall it :: it in chunk ==> Acceptable(it)
      modifies this
      ensures ok <==> forall i :: 0 <= i < |chunk| ==> Creatable(old(View()), prop, chunk[i])
      ensures View() == if ok then UpsertAll(old(View()), prop, chunk) else old(View())
    {
      for k := 0 to |chunk|
        invariant View() == old(View())
        invariant forall i :: 0 <= i < k ==> Creatable(View(), prop, chunk[i])
      {
        if Slot(prop, DayOf(chunk[k])) !in days && chunk[k].price.None? { return false; }
      }
      ghost var db := View();
      for k := 0 to |chunk|
        invariant View() == UpsertAll(db, prop, chunk[..k])
        invariant forall s :: s in db.days ==> s in days
      {
        assert chunk[..k + 1][..k] == chunk[..k];
        UpsertDay(prop, chunk[k]);
      }
      assert chunk[..|chunk|] == chunk;
      ok := true;
    }

    /** Chunk after chunk, up to the first that lacks a price. */
    method ApplyChunks(prop: string, kept: seq<Item>) returns (done: nat)
      requires DistinctDays(kept) && forall it :: it in kept ==> Acceptable(it)
      modifies this
      ensures done == Applied(old(View()), prop, kept)
      ensures View() == UpsertAll(old(View()), prop, kept[..done])
    {
      done := 0;
      while done < |kept|
        invariant done <= |kept| && (done < |kept| ==> done % CHUNK == 0)
        invariant View() == UpsertAll(old(View()), prop, kept[..done])
        invariant forall i :: 0 <= i < done ==> Creatable(old(View()), prop, kept[i])
        decreases |kept| - done
      {
        var end := if done + CHUNK <= |kept| then done + CHUNK else |kept|;
        var chunk := kept[done..end];
        ChunkFollows(old(View()), prop, kept, done, end);
        var ok := UpsertChunk(prop, chunk);
        if !ok {
          StopsAt(old(View()), prop, kept, done);
          return;
        }
        done := end;
      }
    }

    /** The whole request: nothing changes when it is refused for its form.  Otherwise, if
        every new day has a price, all days are applied, and if not, whole chunks are, up to
        the one with the first day that lacks its price. */
    method UpsertAvailability(prop: string, items: seq<Item>) returns (r: Result<nat, Refusal>)
      modifies this
      ensures (View(), r) == Requested(old(View()), prop, items)
    {
      if items == [] { return Err(ItemsRequired); }
      if |items| > MAX_ITEMS { return Err(TooManyItems); }
      for k := 0 to |items|
        invariant View() == old(View()) && forall i :: 0 <= i < k ==> Acceptable(items[i])
      {
        if !Acceptable(items[k]) {
          assert items[k] in items;
          return Err(BadItem);
        }
      }
      var compact := Dedupe(items);
      KeptAreItems(compact, items);
      var count := ApplyChunks(prop, compact);
      r := if count == |compact| then Ok(count) else Err(MissingPrice);
    }
  }

  /** A chunk that fails holds the first item that lacks a price. */
  lemma StopsAt(db: Db, prop: string, kept: seq<Item>, done: nat)
    requires done < |kept| && done % CHUNK == 0
    requires forall i :: 0 <= i < done ==> Creatable(db, prop, kept[i])
    requires exists i :: done <= i < |kept| && i < done + CHUNK && !Creatable(db, prop, kept[i])
    ensures done == Applied(db, prop, kept)
  {
    var k := FirstMissing(db, prop, kept);
    assert done <= k < done + CHUNK;
    assert k == (done / CHUNK) * CHUNK + (k - done);
  }

  lemma KeptAreItems(kept: seq<Item>, items: seq<Item>)
    requires Reduces(kept, items)
    ensures forall i :: 0 <= i < |kept| ==> kept[i] in items
  {
    forall i | 0 <= i < |kept| ensures kept[i] in items { LastForIn(items, DayOf(kept[i])); }
  }

  /** Items of other days neither create nor drop a row. */
  lemma {:induction false} OtherDaysIrrelevant(db: Db, prop: string, items: seq<Item>, it: Item)
    requires forall i :: 0 <= i < |items| ==> DayOf(items[i]) != DayOf(it)
    ensures Creatable(UpsertAll(db, prop, items), prop, it) <==> Creatable(db, prop, it)
  {
    if items != [] { OtherDaysIrrelevant(db, prop, items[..|items| - 1], it); }
  }

  /** The next chunk, seen from the start. */
  lemma ChunkFollows(db: Db, prop: string, kept: seq<Item>, from: nat, end: nat)
    requires DistinctDays(kept) && from <= end <= |kept|
    ensures var db1, chunk := UpsertAll(db, prop, kept[..from]), kept[from..end];
            (forall i :: 0 <= i < |chunk| ==> Creatable(db1, prop, chunk[i]))
            <==> (forall i :: from <= i < end ==> Creatable(db, prop, kept[i]))
    ensures UpsertAll(UpsertAll(db, prop, kept[..from]), prop, kept[from..end]) == UpsertAll(db, prop, kept[..end])
  {
    var db1, chunk := UpsertAll(db, prop, kept[..from]), kept[from..end];
    forall i | from <= i < end ensures Creatable(db1, prop, chunk[i - from]) <==> Creatable(db, prop, kept[i]) {
      OtherDaysIrrelevant(db, prop, kept[..from], kept[i]);
    }
    if forall i :: from <= i < end ==> Creatable(db, prop, kept[i]) {
      forall i | 0 <= i < |chunk| ensures Creatable(db1, prop, chunk[i]) { assert Creatable(db, prop, kept[i + from]); }
    }
    UpsertAllConcat(db, prop, kept[..from], kept[from..end]);
    assert kept[..end] == kept[..from] + kept[from..end];
  }

  lemma {:induction false} KeptReduces(items: seq<Item>)
    ensures Reduces(Kept(items), items)
  {
    if items != [] {
      var n := |items| - 1;
      KeptReduces(items[..n]);
      var kept := Kept(items[..n]);
      assert items == items[..n] + [items[n]];
      DedupeStep(kept, Kept(items), items[..n], items[n], PlaceOf(kept, DayOf(items[n])));
    }
  }

  lemma DedupeStep(kept: seq<Item>, kept': seq<Item>, items: seq<Item>, it: Item, at: nat)
    requires Reduces(kept, items) && at <= |kept|
    requires forall i :: 0 <= i < at ==> DayOf(kept[i]) != DayOf(it)
    requires at < |kept| ==> DayOf(kept[at]) == DayOf(it) && kept' == kept[at := it]
    requires at == |kept| ==> kept' == kept + [it]
    ensures Reduces(kept', items + [it])
  {
    forall i | 0 <= i < |kept'| ensures LastFor(items + [it], DayOf(kept'[i])) == Some(kept'[i]) {
      LastForSnoc(items, it, DayOf(kept'[i]));
    }
    forall day | LastFor(items + [it], day).Some? ensures HasDay(kept', day) {
      LastForSnoc(items, it, day);
      if day == DayOf(it) {
        assert DayOf(kept'[at]) == day;
      } else {
        assert HasDay(kept, day);
        var i :| 0 <= i < |kept| && DayOf(kept[i]) == day;
        assert DayOf(kept'[i]) == day;
      }
    }
  }

  lemma {:induction false} UpsertAllConcat(db: Db, prop: string, a: seq<Item>, b: seq<Item>)
    ensures UpsertAll(db, prop, a + b) == UpsertAll(UpsertAll(db, prop, a), prop, b)
    decreases |b|
  {
    if b == [] {
      assert a + b == a;
    } else {
      var n := |b| - 1;
      UpsertAllConcat(db, prop, a, b[..n]);
      assert (a + b)[..|a + b| - 1] == a + b[..n];
    }
  }

  /** The items kept say the same for every day as all the items sent. */
  lemma KeptSaySame(kept: seq<Item>, items: seq<Item>, day: int)
    requires Reduces(kept, items)
    ensures LastFor(kept, day) == LastFor(items, day)
  {
    LastForIn(kept, day);
    if LastFor(items, day).Some? { assert HasDay(kept, day); }
  }

  /** Which requests are refused for their form: those without an item, with more than 366, and with
      a price or a number below zero. */
  lemma RequestRefuses(db: Db, prop: string, items: seq<Item>)
    ensures var r := Requested(db, prop, items).1;
            var negative := exists it ::
              it in items && ((it.price.Some? && it.price.value < 0) || (it.remaining.Some? && it.remaining.value < 0));
            && (r == Err(ItemsRequired) <==> items == [])
            && (r == Err(TooManyItems) <==> |items| > 366)
            && (r == Err(BadItem) <==> 0 < |items| <= 366 && negative)
  {
    if exists it ::
         it in items && ((it.price.Some? && it.price.value < 0) || (it.remaining.Some? && it.remaining.value < 0))
    {
      var it :| it in items
        && ((it.price.Some? && it.price.value < 0) || (it.remaining.Some? && it.remaining.value < 0));
      assert !Acceptable(it);
    }
  }

  /** What a request has done, row by row: the items applied decide the rows of their days,
      and every other row is as it was. */
  lemma RequestSettles(db: Db, prop: string, items: seq<Item>, s: Slot)
    ensures var (db', r) := Requested(db, prop, items);
            && (r.Ok? ==> RowSettled(db, db', prop, items, s))
            && (r == Err(MissingPrice) ==>
                  RowSettled(db, db', prop, Kept(items)[..Applied(db, prop, Kept(items))], s))
            && (r.Err? && r.error != MissingPrice ==> db' == db)
  {
    var (db', r) := Requested(db, prop, items);
    if r.Ok? || r == Err(MissingPrice) {
      var kept := Kept(items);
      var done := Applied(db, prop, kept);
      AppliedReady(db, prop, items);
      UpsertAllSettles(db, prop, kept[..done], s);
      if r.Ok? {
        assert kept[..done] == kept;
        KeptReduces(items);
        KeptSaySame(kept, items, s.day);
      }
    }
  }

  /** What a request that succeeded has done, day by day: the last item sent for a day decides
      its row, and days not sent are as they were. */
  lemma LastItemDecides(db: Db, prop: string, items: seq<Item>, s: Slot)
    requires Requested(db, prop, items).1.Ok?
    ensures RowSettled(db, Requested(db, prop, items).0, prop, items, s)
  {
    RequestSettles(db, prop, items, s);
  }

  /** The item only repeats what its day's row says already. */
  predicate NothingNew(row: Row, it: Item) {
    && (it.price.Some? ==> it.price.value == row.price)
    && (if it.blocked == Some(true) then row.remaining == 0
        else it.remaining.Some? ==> it.remaining.value == row.remaining)
    && (it.blocked.Some? ==> it.blocked.value == row.blocked)
  }

  /** The items' days have rows, and the items only repeat what those say. */
  predicate AllRepeat(db: Db, prop: string, items: seq<Item>) {
    forall i :: 0 <= i < |items| ==> Repeats(db, prop, items[i])
  }

  predicate Repeats(db: Db, prop: string, it: Item) {
    var s := Slot(prop, DayOf(it));
    s in db.days && NothingNew(db.days[s], it)
  }

  /** One item leaves its row alone exactly when it repeats it. */
  lemma RowKeptIff(db: Db, prop: string, items: seq<Item>, i: nat)
    requires Ready(db, prop, items) && i < |items|
    ensures var s := Slot(prop, DayOf(items[i]));
            && s in UpsertAll(db, prop, items).days
            && ((s in db.days && UpsertAll(db, prop, items).days[s] == db.days[s]) <==> Repeats(db, prop, items[i]))
  {
    UpsertAllSettles(db, prop, items, Slot(prop, DayOf(items[i])));
    LastOfDistinct(items, i);
  }

  lemma DaysKeptIff(db: Db, prop: string, items: seq<Item>)
    requires Ready(db, prop, items)
    ensures UpsertAll(db, prop, items).days == db.days <==> AllRepeat(db, prop, items)
  {
    var days' := UpsertAll(db, prop, items).days;
    if AllRepeat(db, prop, items) {
      forall s ensures (s in days' <==> s in db.days) && (s in db.days ==> days'[s] == db.days[s]) {
        UpsertAllSettles(db, prop, items, s);
        LastForIn(items, s.day);
        if s.prop == prop && LastFor(items, s.day).Some? {
          var i :| 0 <= i < |items| && items[i] == LastFor(items, s.day).value;
          RowKeptIff(db, prop, items, i);
        }
      }
      assert days' == db.days;
    } else {
      var i :| 0 <= i < |items| && !Repeats(db, prop, items[i]);
      RowKeptIff(db, prop, items, i);
    }
  }

  lemma NoneRepeat(db: Db, prop: string, items: seq<Item>, k: nat)
    requires |items| == k - k % CHUNK
    ensures k < CHUNK ==> AllRepeat(db, prop, items)
  {
  }

  /** The items applied have distinct days and acceptable numbers, and none lacks its price. */
  lemma AppliedReady(db: Db, prop: string, items: seq<Item>)
    requires forall it :: it in items ==> Acceptable(it)
    ensures Ready(db, prop, Kept(items)[..Applied(db, prop, Kept(items))])
  {
    KeptReduces(items);
    KeptAreItems(Kept(items), items);
  }

  /** What a refused request has applied. */
  lemma RefusedPart(db: Db, prop: string, items: seq<Item>) returns (part: seq<Item>)
    requires Requested(db, prop, items).1 == Err(MissingPrice)
    ensures var (kept, k) := (Kept(items), FirstMissing(db, prop, Kept(items)));
            k < |kept| && part == kept[..k - k % CHUNK]
    ensures Ready(db, prop, part) && Requested(db, prop, items).0 == UpsertAll(db, prop, part)
  {
    part := Kept(items)[..Applied(db, prop, Kept(items))];
    AppliedReady(db, prop, items);
  }

  /** A request refused for want of a price has changed no row exactly when the item that lacks
      it is among the first 150 kept, or the whole chunks before that item only repeat what the
      rows say already. */
  lemma RefusedUnchangedIff(db: Db, prop: string, items: seq<Item>)
    requires Requested(db, prop, items).1 == Err(MissingPrice)
    ensures var (kept, k) := (Kept(items), FirstMissing(db, prop, Kept(items)));
            Requested(db, prop, items).0.days == db.days
            <==> k < CHUNK || AllRepeat(db, prop, kept[..k - k % CHUNK])
  {
    var kept, k := Kept(items), FirstMissing(db, prop, Kept(items));
    var part := RefusedPart(db, prop, items);
    DaysKeptIff(db, prop, part);
    NoneRepeat(db, prop, part, k);
  }

  lemma {:induction false} LastOfDistinct(items: seq<Item>, i: nat)
    requires DistinctDays(items) && i < |items|
    ensures LastFor(items, DayOf(items[i])) == Some(items[i])
  {
    LastForIn(items, DayOf(items[i]));
  }

  lemma {:induction false} DistinctAreKept(items: seq<Item>)
    requires DistinctDays(items)
    ensures Kept(items) == items
  {
    if items != [] { DistinctAreKept(items[..|items| - 1]); }
  }

  /** The days 0 to 150 of a new calendar, the last one without its price. */
  function LastLacksPrice(): seq<Item> {
    seq(CHUNK + 1, (i: int) => Item(i * MS_PER_DAY, if i < CHUNK then Some(1) else None, None, None))
  }

  /** Its days are distinct, and the last item alone is the first that lacks its price. */
  lemma LastAloneLacksPrice(prop: string)
    ensures var items := LastLacksPrice();
            && DistinctDays(items)
            && (forall i :: 0 <= i < |items| ==> DayOf(items[i]) == i)
            && FirstMissing(EMPTY, prop, items) == CHUNK
  {
    var items := LastLacksPrice();
    assert forall i :: 0 <= i < |items| ==> DayOf(items[i]) == i;
    assert !Creatable(EMPTY, prop, items[CHUNK]);
  }

  /** A request that is refused after 150 of its 151 days were created. */
  lemma HalfApplied(prop: string, day: int)
    ensures Requested(EMPTY, prop, LastLacksPrice()).1 == Err(MissingPrice)
    ensures Slot(prop, day) in Requested(EMPTY, prop, LastLacksPrice()).0.days <==> 0 <= day < CHUNK
  {
    hide UpsertAll, Upsert, FirstMissing;
    var items := LastLacksPrice();
    LastAloneLacksPrice(prop);
    DistinctAreKept(items);
    RequestSettles(EMPTY, prop, items, Slot(prop, day));
    LastForIn(items[..CHUNK], day);
    if 0 <= day < CHUNK { assert items[..CHUNK][day] in items[..CHUNK]; }
  }
}
