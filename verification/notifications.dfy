/** Notification dispatch: workers claim a pending row with a 60-second lease, emit it and mark
    it sent in one transaction, or write a failure that schedules it again. */
module Notifications {
  import opened Common

  type Id = nat
  type UserId = string
  type WorkerId = nat
  type Time = int

  const LEASE_MS := 60000
  const BACKOFF_MS := 120000

  datatype Channel = INAPP | EMAIL | PUSH
  datatype Status = PENDING | SENT

  datatype Row = Row(channel: Channel, user: UserId, dedupe: Option<string>, status: Status,
                     processingAt: Option<Time>, deliverAfter: Option<Time>, attempts: nat)

  /** A worker between its claim and its finishing write; `failed` once its transaction failed. */
  datatype Claim = Claim(id: Id, at: Time, failed: bool)

  /** `emitted` is a history variable: the notifications handed to the outbox. */
  datatype World = World(rows: map<Id, Row>, emitted: seq<Id>, workers: map<WorkerId, Claim>, clock: Time)

  datatype Turn =
    | Pass(ms: nat)
    | Create(id: Id, channel: Channel, user: UserId, dedupe: Option<string>, deliverAfter: Option<Time>, sendNow: bool)
    | Claims(k: WorkerId, id: Id)
    | Commit(k: WorkerId)
    | Abort(k: WorkerId)
    | Reschedule(k: WorkerId)
    | Crash(k: WorkerId)

  /** The lookup by channel, user and key that precedes a creation. */
  predicate Duplicate(rows: map<Id, Row>, channel: Channel, user: UserId, dedupe: Option<string>) {
    && dedupe.Some?
    && exists id ::
         id in rows && rows[id].channel == channel && rows[id].user == user && rows[id].dedupe == dedupe
  }

  /** The condition of the claiming update. */
  predicate Claimable(row: Row, now: Time) {
    row.status == PENDING && (row.processingAt.None? || row.processingAt.value <= now - LEASE_MS)
  }

  predicate DueAtOnce(turn: Turn, now: Time)
    requires turn.Create?
  {
    turn.channel != INAPP && turn.sendNow && (turn.deliverAfter.None? || turn.deliverAfter.value <= now)
  }

  function Created(w: World, turn: Turn): World
    requires turn.Create?
  {
    var sent := turn.channel == INAPP || DueAtOnce(turn, w.clock);
    var row := Row(turn.channel, turn.user, turn.dedupe, if sent then SENT else PENDING, None, turn.deliverAfter, 0);
    w.(rows := w.rows[turn.id := row], emitted := if DueAtOnce(turn, w.clock) then w.emitted + [turn.id] else w.emitted)
  }

  function Sent(row: Row): Row { row.(status := SENT, processingAt := None) }

  function Delayed(row: Row, now: Time): Row {
    row.(attempts := row.attempts + 1, processingAt := None, deliverAfter := Some(now + BACKOFF_MS))
  }

  function Advance(w: World, turn: Turn): World {
    match turn
    case Pass(ms) => w.(clock := w.clock + ms)
    case Create(id, channel, user, dedupe, _, _) =>
      if id in w.rows || Duplicate(w.rows, channel, user, dedupe) then w else Created(w, turn)
    case Claims(k, id) =>
      if k !in w.workers && id in w.rows && w.rows[id].channel != INAPP && Claimable(w.rows[id], w.clock) then
        w.(rows := w.rows[id := w.rows[id].(processingAt := Some(w.clock))],
           workers := w.workers[k := Claim(id, w.clock, false)])
      else w
    case Commit(k) =>
      if k in w.workers && !w.workers[k].failed && w.workers[k].id in w.rows then
        var id := w.workers[k].id;
        World(w.rows[id := Sent(w.rows[id])], w.emitted + [id], w.workers - {k}, w.clock)
      else w
    case Abort(k) =>
      if k in w.workers then w.(workers := w.workers[k := w.workers[k].(failed := true)]) else w
    case Reschedule(k) =>
      if k in w.workers && w.workers[k].failed && w.workers[k].id in w.rows then
        var id := w.workers[k].id;
        w.(rows := w.rows[id := Delayed(w.rows[id], w.clock)], workers := w.workers - {k})
      else w
    case Crash(k) => w.(workers := w.workers - {k})
  }

  function Schedule(w: World, turns: seq<Turn>): World
    decreases |turns|
  {
    if turns == [] then w else Schedule(Advance(w, turns[0]), turns[1..])
  }

  // ---------- the lease ----------

  predicate Live(w: World, k: WorkerId) { k in w.workers && w.clock < w.workers[k].at + LEASE_MS }

  /** Both kinds of finishing write happen within the lease of their claim. */
  predicate Timely(w: World, turn: Turn) {
    match turn
    case Commit(k) => k in w.workers ==> Live(w, k)
    case Reschedule(k) => k in w.workers ==> Live(w, k)
    case _ => true
  }

  ghost predicate AllTimely(w: World, turns: seq<Turn>)
    decreases |turns|
  {
    turns == [] || (Timely(w, turns[0]) && AllTimely(Advance(w, turns[0]), turns[1..]))
  }

  /** A live claim is written in its row, so that no other live claim is on it. */
  predicate LeaseHeld(w: World, k: WorkerId)
    requires k in w.workers
  {
    var claim := w.workers[k];
    claim.id in w.rows && w.rows[claim.id].status == PENDING && w.rows[claim.id].processingAt == Some(claim.at)
    && w.rows[claim.id].channel != INAPP
  }

  ghost predicate Leases(w: World) {
    && (forall k :: k in w.workers ==> w.workers[k].at <= w.clock)
    && (forall k :: Live(w, k) ==> LeaseHeld(w, k))
    && (forall k, l :: Live(w, k) && Live(w, l) && k != l ==> w.workers[k].id != w.workers[l].id)
  }

  ghost predicate NoRepeats(q: seq<Id>) { forall i, j :: 0 <= i < j < |q| ==> q[i] != q[j] }

  predicate MarkedSent(rows: map<Id, Row>, id: Id) {
    id in rows && rows[id].channel != INAPP && rows[id].status == SENT
  }

  /** Each notification was emitted at most once, and those emitted are those marked sent. */
  ghost predicate Once(w: World) {
    NoRepeats(w.emitted) && forall id :: id in w.emitted <==> MarkedSent(w.rows, id)
  }

  ghost predicate DedupesUnique(rows: map<Id, Row>) {
    forall a, b :: a in rows && b in rows && a != b && rows[a].dedupe.Some? ==>
      !(rows[a].channel == rows[b].channel && rows[a].user == rows[b].user && rows[a].dedupe == rows[b].dedupe)
  }

  lemma CreateKeeps(w: World, turn: Turn)
    requires turn.Create? && Leases(w) && Once(w)
    ensures Leases(Advance(w, turn)) && Once(Advance(w, turn))
  {
    var w' := Advance(w, turn);
    if w' != w {
      forall k | Live(w', k) ensures LeaseHeld(w', k) { assert Live(w, k); }
      assert turn.id !in w.emitted;
    }
  }

  lemma ClaimKeeps(w: World, k: WorkerId, id: Id)
    requires Leases(w) && Once(w)
    ensures Leases(Advance(w, Claims(k, id))) && Once(Advance(w, Claims(k, id)))
  {
    var w' := Advance(w, Claims(k, id));
    if w' != w {
      forall l | Live(w', l) ensures LeaseHeld(w', l) && (l != k ==> w'.workers[l].id != id) {
        if l != k { assert Live(w, l) && LeaseHeld(w, l); }
      }
      forall x ensures x in w'.emitted <==> MarkedSent(w'.rows, x) { assert x in w.emitted <==> MarkedSent(w.rows, x); }
    }
  }

  lemma CommitKeeps(w: World, k: WorkerId)
    requires Leases(w) && Once(w) && Timely(w, Commit(k))
    ensures Leases(Advance(w, Commit(k))) && Once(Advance(w, Commit(k)))
  {
    var w' := Advance(w, Commit(k));
    if w' != w && k in w.workers {
      assert LeaseHeld(w, k);
      var id := w.workers[k].id;
      assert id !in w.emitted;
      forall l | Live(w', l) ensures LeaseHeld(w', l) { assert Live(w, l) && LeaseHeld(w, l) && w.workers[l].id != id; }
      forall x ensures x in w'.emitted <==> MarkedSent(w'.rows, x) { assert x in w.emitted <==> MarkedSent(w.rows, x); }
    }
  }

  lemma RescheduleKeeps(w: World, k: WorkerId)
    requires Leases(w) && Once(w) && Timely(w, Reschedule(k))
    ensures Leases(Advance(w, Reschedule(k))) && Once(Advance(w, Reschedule(k)))
  {
    var w' := Advance(w, Reschedule(k));
    if w' != w && k in w.workers {
      var id := w.workers[k].id;
      forall l | Live(w', l) ensures LeaseHeld(w', l) { assert Live(w, l) && LeaseHeld(w, l) && w.workers[l].id != id; }
      forall x ensures x in w'.emitted <==> MarkedSent(w'.rows, x) { assert x in w.emitted <==> MarkedSent(w.rows, x); }
    }
  }

  lemma OthersKeep(w: World, turn: Turn)
    requires Leases(w) && Once(w) && (turn.Pass? || turn.Abort? || turn.Crash?)
    ensures Leases(Advance(w, turn)) && Once(Advance(w, turn))
  {
    var w' := Advance(w, turn);
    forall k | Live(w', k) ensures LeaseHeld(w', k) { assert Live(w, k) && LeaseHeld(w, k); }
    forall k, l | Live(w', k) && Live(w', l) && k != l ensures w'.workers[k].id != w'.workers[l].id {
      assert Live(w, k) && Live(w, l);
    }
  }

  lemma AdvanceKeeps(w: World, turn: Turn)
    requires Leases(w) && Once(w) && Timely(w, turn)
    ensures Leases(Advance(w, turn)) && Once(Advance(w, turn))
  {
    match turn
    case Create(_, _, _, _, _, _) => CreateKeeps(w, turn);
    case Claims(k, id) => ClaimKeeps(w, k, id);
    case Commit(k) => CommitKeeps(w, k);
    case Reschedule(k) => RescheduleKeeps(w, k);
    case Pass(_) => OthersKeep(w, turn);
    case Abort(_) => OthersKeep(w, turn);
    case Crash(_) => OthersKeep(w, turn);
  }

  /** Over all interleavings of workers whose finishing writes keep to their leases: at most
      one emission each, of exactly the notifications marked sent. */
  lemma {:induction false} EmittedOnce(w: World, turns: seq<Turn>)
    requires Leases(w) && Once(w) && AllTimely(w, turns)
    ensures Once(Schedule(w, turns))
    decreases |turns|
  {
    if turns != [] {
      AdvanceKeeps(w, turns[0]);
      EmittedOnce(Advance(w, turns[0]), turns[1..]);
    }
  }

  lemma AdvanceDedupes(w: World, turn: Turn)
    requires DedupesUnique(w.rows)
    ensures DedupesUnique(Advance(w, turn).rows)
  {
    var w' := Advance(w, turn);
    if turn.Create? && w' != w {
      forall a, b | a in w'.rows && b in w'.rows && a != b && w'.rows[a].dedupe.Some?
        ensures !(w'.rows[a].channel == w'.rows[b].channel && w'.rows[a].user == w'.rows[b].user
                  && w'.rows[a].dedupe == w'.rows[b].dedupe)
      {
        if a != turn.id && b != turn.id { assert a in w.rows && b in w.rows; }
      }
    }
  }

  /** With a dedupe key, one user gets one emission on one channel, however often the
      notification is asked for. */
  lemma {:induction false} OncePerKey(w: World, turns: seq<Turn>, a: Id, b: Id)
    requires Leases(w) && Once(w) && DedupesUnique(w.rows) && AllTimely(w, turns)
    requires var w' := Schedule(w, turns);
             && a in w'.emitted && b in w'.emitted && a in w'.rows && b in w'.rows && w'.rows[a].dedupe.Some?
             && w'.rows[a].channel == w'.rows[b].channel && w'.rows[a].user == w'.rows[b].user
             && w'.rows[a].dedupe == w'.rows[b].dedupe
    ensures a == b
    decreases |turns|
  {
    if turns != [] {
      AdvanceKeeps(w, turns[0]);
      AdvanceDedupes(w, turns[0]);
      OncePerKey(Advance(w, turns[0]), turns[1..], a, b);
    }
  }

  /** What one commit does to the promise: it keeps it exactly when its row is still pending. */
  lemma CommitKeepsOnceIff(w: World, k: WorkerId)
    requires Once(w) && k in w.workers && !w.workers[k].failed
    requires w.workers[k].id in w.rows && w.rows[w.workers[k].id].channel != INAPP
    ensures Once(Advance(w, Commit(k))) <==> w.rows[w.workers[k].id].status == PENDING
  {
    var w' := Advance(w, Commit(k));
    var id, n := w.workers[k].id, |w.emitted|;
    if w.rows[id].status == PENDING {
      assert id !in w.emitted;
      forall x ensures x in w'.emitted <==> MarkedSent(w'.rows, x) { assert x in w.emitted <==> MarkedSent(w.rows, x); }
    } else {
      assert MarkedSent(w.rows, id);
      var i :| 0 <= i < n && w.emitted[i] == id;
      assert w'.emitted[i] == w'.emitted[n];
    }
  }

  const ONE: World := World(map[7 := Row(EMAIL, "u", None, PENDING, None, None, 0)], [], map[], 0)

  /** Commits keep to their leases; failure writes may not. */
  ghost predicate CommitsTimely(w: World, turns: seq<Turn>)
    decreases |turns|
  {
    turns == [] || ((turns[0].Commit? ==> Timely(w, turns[0])) && CommitsTimely(Advance(w, turns[0]), turns[1..]))
  }

  lemma Unfold(w: World, turn: Turn, turns: seq<Turn>)
    ensures Schedule(w, [turn] + turns) == Schedule(Advance(w, turn), turns)
    ensures CommitsTimely(w, [turn] + turns)
            <==> (turn.Commit? ==> Timely(w, turn)) && CommitsTimely(Advance(w, turn), turns)
  {
    assert ([turn] + turns)[1..] == turns;
  }

  /** Why the lease must cover commits: a commit one lease after its claim sends twice. */
  lemma LateCommitSendsTwice()
    ensures Leases(ONE) && Once(ONE)
    ensures var turns := [Claims(0, 7)] + ([Pass(LEASE_MS)] + ([Claims(1, 7)] + ([Commit(1)] + ([Commit(0)] + []))));
            Schedule(ONE, turns).emitted == [7, 7]
  {
    Unfold(ONE, Claims(0, 7), [Pass(LEASE_MS)] + ([Claims(1, 7)] + ([Commit(1)] + ([Commit(0)] + []))));
    var w1 := Advance(ONE, Claims(0, 7));
    Unfold(w1, Pass(LEASE_MS), [Claims(1, 7)] + ([Commit(1)] + ([Commit(0)] + [])));
    var w2 := Advance(w1, Pass(LEASE_MS));
    Unfold(w2, Claims(1, 7), [Commit(1)] + ([Commit(0)] + []));
    var w3 := Advance(w2, Claims(1, 7));
    Unfold(w3, Commit(1), [Commit(0)] + []);
    Unfold(Advance(w3, Commit(1)), Commit(0), []);
  }

  /** Worker 0 failed and is late; worker 1 holds the lease. */
  const HANDED_OVER: World :=
    World(map[7 := Row(EMAIL, "u", None, PENDING, Some(LEASE_MS), None, 0)], [],
          map[0 := Claim(7, 0, true), 1 := Claim(7, LEASE_MS, false)], LEASE_MS)

  /** Worker 0 claimed the row and failed. */
  const FAILED_AT_ONCE: World :=
    World(map[7 := Row(EMAIL, "u", None, PENDING, Some(0), None, 0)], [], map[0 := Claim(7, 0, true)], 0)

  lemma FailAtOnce(rest: seq<Turn>)
    ensures var turns := [Claims(0, 7)] + ([Abort(0)] + rest);
            && Schedule(ONE, turns) == Schedule(FAILED_AT_ONCE, rest)
            && (CommitsTimely(FAILED_AT_ONCE, rest) ==> CommitsTimely(ONE, turns))
  {
    Unfold(ONE, Claims(0, 7), [Abort(0)] + rest);
    var w1 := Advance(ONE, Claims(0, 7));
    Unfold(w1, Abort(0), rest);
    assert Advance(w1, Abort(0)) == FAILED_AT_ONCE;
  }

  lemma HandOver(rest: seq<Turn>)
    ensures var turns := [Pass(LEASE_MS)] + ([Claims(1, 7)] + rest);
            && Schedule(FAILED_AT_ONCE, turns) == Schedule(HANDED_OVER, rest)
            && (CommitsTimely(HANDED_OVER, rest) ==> CommitsTimely(FAILED_AT_ONCE, turns))
  {
    Unfold(FAILED_AT_ONCE, Pass(LEASE_MS), [Claims(1, 7)] + rest);
    var w1 := Advance(FAILED_AT_ONCE, Pass(LEASE_MS));
    Unfold(w1, Claims(1, 7), rest);
    assert Advance(w1, Claims(1, 7)) == HANDED_OVER;
  }

  /** Worker 0's failure write clears worker 1's lease, and worker 2 claims the row as well. */
  const CLAIMED_TWICE: World :=
    World(map[7 := Row(EMAIL, "u", None, PENDING, Some(LEASE_MS), Some(LEASE_MS + BACKOFF_MS), 1)], [],
          map[1 := Claim(7, LEASE_MS, false), 2 := Claim(7, LEASE_MS, false)], LEASE_MS)

  lemma ClaimAgain(rest: seq<Turn>)
    ensures var turns := [Reschedule(0)] + ([Claims(2, 7)] + rest);
            && Schedule(HANDED_OVER, turns) == Schedule(CLAIMED_TWICE, rest)
            && (CommitsTimely(CLAIMED_TWICE, rest) ==> CommitsTimely(HANDED_OVER, turns))
  {
    Unfold(HANDED_OVER, Reschedule(0), [Claims(2, 7)] + rest);
    var w1 := Advance(HANDED_OVER, Reschedule(0));
    Unfold(w1, Claims(2, 7), rest);
    assert Advance(w1, Claims(2, 7)) == CLAIMED_TWICE;
  }

  lemma BothCommit()
    ensures var turns := [Commit(1)] + ([Commit(2)] + []);
            CommitsTimely(CLAIMED_TWICE, turns) && Schedule(CLAIMED_TWICE, turns).emitted == [7, 7]
  {
    Unfold(CLAIMED_TWICE, Commit(1), [Commit(2)] + []);
    Unfold(Advance(CLAIMED_TWICE, Commit(1)), Commit(2), []);
  }

  /** Why it must cover failure writes too: here every commit is timely, but a failure written
      late clears another worker's lease, and the notification is sent twice. */
  lemma LateFailureSendsTwice()
    ensures var late := [Reschedule(0)] + ([Claims(2, 7)] + ([Commit(1)] + ([Commit(2)] + [])));
            var turns := [Claims(0, 7)] + ([Abort(0)] + ([Pass(LEASE_MS)] + ([Claims(1, 7)] + late)));
            CommitsTimely(ONE, turns) && Schedule(ONE, turns).emitted == [7, 7]
  {
    var late := [Reschedule(0)] + ([Claims(2, 7)] + ([Commit(1)] + ([Commit(2)] + [])));
    FailAtOnce([Pass(LEASE_MS)] + ([Claims(1, 7)] + late));
    HandOver(late);
    ClaimAgain([Commit(1)] + ([Commit(2)] + []));
    BothCommit();
  }

  // ---------- the dispatch loop ----------

  predicate Due(row: Row, now: Time) {
    row.status == PENDING && row.channel != INAPP && (row.deliverAfter.None? || row.deliverAfter.value <= now)
  }

  /** The due rows in creation order. */
  function DueIds(order: seq<Id>, rows: map<Id, Row>, now: Time): seq<Id> {
    if order == [] then []
    else
      var n := |order| - 1;
      DueIds(order[..n], rows, now) + if order[n] in rows && Due(rows[order[n]], now) then [order[n]] else []
  }

  function Batch(ids: seq<Id>, limit: nat): seq<Id> { if |ids| <= limit then ids else ids[..limit] }

  /** What one pass does to one row, and to its emission; `fails` is the transaction's outcome. */
  function RowAfter(row: Row, now: Time, fails: bool): Row {
    if !Claimable(row, now) then row else if fails then Delayed(row, now) else Sent(row)
  }

  predicate Emits(row: Row, now: Time, fails: bool) { Claimable(row, now) && !fails }

  function RowsAfter(rows: map<Id, Row>, ids: seq<Id>, now: Time, failing: set<Id>): map<Id, Row> {
    map id | id in rows :: if id in ids then RowAfter(rows[id], now, id in failing) else rows[id]
  }

  function Emitted(rows: map<Id, Row>, ids: seq<Id>, now: Time, failing: set<Id>): seq<Id> {
    if ids == [] then []
    else
      var n := |ids| - 1;
      Emitted(rows, ids[..n], now, failing)
      + if ids[n] in rows && Emits(rows[ids[n]], now, ids[n] in failing) then [ids[n]] else []
  }

  lemma {:induction false} DueIdsMembers(order: seq<Id>, rows: map<Id, Row>, now: Time)
    requires NoRepeats(order)
    ensures NoRepeats(DueIds(order, rows, now))
    ensures forall id :: id in DueIds(order, rows, now) <==> id in order && id in rows && Due(rows[id], now)
  {
    if order != [] {
      var n := |order| - 1;
      DueIdsMembers(order[..n], rows, now);
      assert order == order[..n] + [order[n]];
    }
  }

  lemma BatchDue(order: seq<Id>, rows: map<Id, Row>, now: Time, limit: nat)
    requires NoRepeats(order)
    ensures var ids := Batch(DueIds(order, rows, now), limit);
            NoRepeats(ids) && forall k :: 0 <= k < |ids| ==> ids[k] in rows && rows[ids[k]].channel != INAPP
  {
    DueIdsMembers(order, rows, now);
    var all := DueIds(order, rows, now);
    forall k | 0 <= k < |all| ensures all[k] in rows && rows[all[k]].channel != INAPP { assert all[k] in all; }
  }

  /** What a creation does: nothing when the row exists or another one of the same channel, user and
      dedupe key does; otherwise the row is there with its date, emitted at once if it is asked for
      now, is not in-app and is not dated later, and counted as sent if so or if it is in-app. */
  lemma CreateIs(w: World, turn: Turn)
    requires turn.Create?
    ensures var w' := Advance(w, turn);
            var again :=
              || turn.id in w.rows
              || (turn.dedupe.Some?
                  && exists x ::
                       && x in w.rows && w.rows[x].channel == turn.channel
                       && w.rows[x].user == turn.user && w.rows[x].dedupe == turn.dedupe);
            var atOnce := turn.channel != INAPP && turn.sendNow
                          && !(turn.deliverAfter.Some? && w.clock < turn.deliverAfter.value);
            if again then w' == w
            else
              && w'.emitted == w.emitted + (if atOnce then [turn.id] else [])
              && w'.workers == w.workers && w'.clock == w.clock
              && w'.rows == w.rows[turn.id :=
                   Row(turn.channel, turn.user, turn.dedupe, if atOnce || turn.channel == INAPP then SENT else PENDING,
                       None, turn.deliverAfter, 0)]
  {
  }

  /** Which rows a pass finds: those that are pending, not in-app and dated now or before, each
      once, in the order of their creation, and as many as the limit allows. */
  lemma FoundAre(order: seq<Id>, rows: map<Id, Row>, now: Time, limit: nat)
    requires NoRepeats(order)
    ensures var ids := Batch(DueIds(order, rows, now), limit);
            && ids <= DueIds(order, rows, now) && NoRepeats(ids)
            && |ids| <= limit && (|ids| < limit ==> ids == DueIds(order, rows, now))
    ensures forall id :: id in DueIds(order, rows, now) <==>
              && id in order && id in rows && rows[id].status == PENDING && rows[id].channel != INAPP
              && !(rows[id].deliverAfter.Some? && now < rows[id].deliverAfter.value)
  {
    DueIdsMembers(order, rows, now);
  }

  /** In the order of creation: what is found in a first part comes before what is found later. */
  lemma {:induction false} FoundInOrder(a: seq<Id>, b: seq<Id>, rows: map<Id, Row>, now: Time)
    ensures DueIds(a + b, rows, now) == DueIds(a, rows, now) + DueIds(b, rows, now)
    decreases |b|
  {
    if b == [] {
      assert a + b == a;
    } else {
      var n := |b| - 1;
      FoundInOrder(a, b[..n], rows, now);
      assert (a + b)[..|a + b| - 1] == a + b[..n];
    }
  }

  /** When a row that was claimed, and one whose sending failed, can be taken again: a claim lasts
      sixty seconds, and a failed row is not found for two minutes, though it is free at once. */
  lemma TakenAgainIff(row: Row, at: Time, later: Time)
    requires row.status == PENDING && row.channel != INAPP
    ensures Claimable(row.(processingAt := Some(at)), later) <==> at + 60_000 <= later
    ensures Due(Delayed(row, at), later) <==> at + 120_000 <= later
    ensures Claimable(Delayed(row, at), later) && Delayed(row, at).attempts == row.attempts + 1
    ensures !Due(Sent(row), later) && !Claimable(Sent(row), later)
  {
  }

  class NotificationsService {
    var rows: map<Id, Row>
    var order: seq<Id>
    ghost var emitted: seq<Id>

    constructor ()
      ensures rows == map[] && order == [] && emitted == []
    {
      rows, order, emitted := map[], [], [];
    }

    ghost function View(clock: Time): World
      reads this
    {
      World(rows, emitted, map[], clock)
    }

    method FindDue(limit: nat, now: Time) returns (ids: seq<Id>)
      ensures ids == Batch(DueIds(order, rows, now), limit)
    {
      ids := [];
      for k := 0 to |order|
        invariant ids == DueIds(order[..k], rows, now)
      {
        assert order[..k + 1][..k] == order[..k];
        if order[k] in rows && Due(rows[order[k]], now) { ids := ids + [order[k]]; }
      }
      assert order[..|order|] == order;
      if |ids| > limit { ids := ids[..limit]; }
    }

    /** Claim, then the transaction, then the failure write if it failed: turns of one worker. */
    method DispatchOne(id: Id, now: Time, fails: bool) returns (sent: bool)
      requires id in rows && rows[id].channel != INAPP
      modifies `rows, `emitted
      ensures sent == Emits(old(rows)[id], now, fails)
      ensures rows == old(rows)[id := RowAfter(old(rows)[id], now, fails)]
      ensures emitted == old(emitted) + if sent then [id] else []
      ensures var w := Advance(old(View(now)), Claims(0, id));
              View(now) == if fails then Advance(Advance(w, Abort(0)), Reschedule(0)) else Advance(w, Commit(0))
    {
      ghost var w := Advance(View(now), Claims(0, id));
      if !Claimable(rows[id], now) {
        assert rows[id := rows[id]] == rows;
        return false;
      }
      rows := rows[id := rows[id].(processingAt := Some(now))];
      assert View(now).(workers := w.workers) == w;
      if fails {
        rows := rows[id := Delayed(rows[id], now)];
        assert Advance(Advance(w, Abort(0)), Reschedule(0)).workers == map[];
        sent := false;
      } else {
        emitted := emitted + [id];
        rows := rows[id := Sent(rows[id])];
        assert Advance(w, Commit(0)).workers == map[];
        sent := true;
      }
    }

    /** The next row of a pass that began with `rows0` and `emitted0`. */
    method DispatchNext(ids: seq<Id>, k: nat, now: Time, failing: set<Id>, ghost rows0: map<Id, Row>,
          ghost emitted0: seq<Id>)
      returns (sent: bool)
      requires k < |ids| && NoRepeats(ids) && ids[k] in rows0 && rows0[ids[k]].channel != INAPP
      requires rows == RowsAfter(rows0, ids[..k], now, failing)
      requires emitted == emitted0 + Emitted(rows0, ids[..k], now, failing)
      modifies `rows, `emitted
      ensures rows == RowsAfter(rows0, ids[..k + 1], now, failing)
      ensures emitted == emitted0 + Emitted(rows0, ids[..k + 1], now, failing)
      ensures |Emitted(rows0, ids[..k + 1], now, failing)|
              == |Emitted(rows0, ids[..k], now, failing)| + if sent then 1 else 0
      ensures old(Once(View(now))) ==> Once(View(now))
    {
      ghost var before := View(now);
      PassStep(rows0, ids, k, now, failing);
      sent := DispatchOne(ids[k], now, ids[k] in failing);
      if Once(before) { PassKeepsOnce(before, View(now), ids[k], now, ids[k] in failing); }
    }

    /** One pass: of the first `limit` due rows in creation order, exactly those that can be
        claimed are handled; each is emitted and marked, or counted and delayed. */
    method DispatchDueSafely(limit: nat, now: Time, failing: set<Id>) returns (dispatched: nat)
      requires NoRepeats(order)
      modifies `rows, `emitted
      ensures var ids := Batch(DueIds(order, old(rows), now), limit);
              && rows == RowsAfter(old(rows), ids, now, failing)
              && emitted == old(emitted) + Emitted(old(rows), ids, now, failing)
              && dispatched == |Emitted(old(rows), ids, now, failing)|
      ensures old(Once(View(now))) ==> Once(View(now))
    {
      var ids := FindDue(limit, now);
      BatchDue(order, rows, now, limit);
      dispatched := 0;
      ghost var rows0, emitted0, once := rows, emitted, Once(View(now));
      PassStart(rows0, now, failing);
      for k := 0 to |ids|
        invariant rows == RowsAfter(rows0, ids[..k], now, failing)
        invariant emitted == emitted0 + Emitted(rows0, ids[..k], now, failing)
        invariant dispatched == |Emitted(rows0, ids[..k], now, failing)|
        invariant once ==> Once(View(now))
      {
        var sent := DispatchNext(ids, k, now, failing, rows0, emitted0);
        if sent { dispatched := dispatched + 1; }
      }
      assert ids[..|ids|] == ids;
    }
  }

  lemma PassStart(rows: map<Id, Row>, now: Time, failing: set<Id>)
    ensures RowsAfter(rows, [], now, failing) == rows
  {
  }

  lemma PassStep(rows: map<Id, Row>, ids: seq<Id>, k: nat, now: Time, failing: set<Id>)
    requires k < |ids| && NoRepeats(ids) && ids[k] in rows
    ensures var mid := RowsAfter(rows, ids[..k], now, failing);
            && ids[k] in mid && mid[ids[k]] == rows[ids[k]]
            && RowsAfter(rows, ids[..k + 1], now, failing)
               == mid[ids[k] := RowAfter(rows[ids[k]], now, ids[k] in failing)]
            && Emitted(rows, ids[..k + 1], now, failing)
               == Emitted(rows, ids[..k], now, failing)
                  + if Emits(rows[ids[k]], now, ids[k] in failing) then [ids[k]] else []
  {
    assert ids[..k + 1] == ids[..k] + [ids[k]];
    assert ids[..k + 1][..k] == ids[..k];
    assert ids[k] !in ids[..k];
  }

  lemma PassKeepsOnce(w: World, w': World, id: Id, now: Time, fails: bool)
    requires Once(w) && id in w.rows && w.rows[id].channel != INAPP
    requires w'.rows == w.rows[id := RowAfter(w.rows[id], now, fails)]
    requires w'.emitted == w.emitted + if Emits(w.rows[id], now, fails) then [id] else []
    ensures Once(w')
  {
    forall x ensures x in w'.emitted <==> MarkedSent(w'.rows, x) { assert x in w.emitted <==> MarkedSent(w.rows, x); }
    if Emits(w.rows[id], now, fails) { assert id !in w.emitted; }
  }
}
