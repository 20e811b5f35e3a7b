/** The transactional outbox: rows are emitted by other transactions, and publishers send
    them to the broker batch by batch, grouped by topic, deleting a batch only after all of
    its groups were sent.  Sends may fail at any point. */
module Outbox {
  import opened Common

  type RowId = string
  type Topic = string

  datatype Row = Row(id: RowId, topic: Topic)
  datatype Group = Group(topic: Topic, rows: seq<Row>)

  /** The rows of one topic, in order; and all the others. */
  function OfTopic(rows: seq<Row>, t: Topic): seq<Row> {
    if rows == [] then []
    else
      var n := |rows| - 1;
      OfTopic(rows[..n], t) + if rows[n].topic == t then [rows[n]] else []
  }

  function WithoutTopic(rows: seq<Row>, t: Topic): seq<Row> {
    if rows == [] then []
    else
      var n := |rows| - 1;
      WithoutTopic(rows[..n], t) + if rows[n].topic == t then [] else [rows[n]]
  }

  lemma OfTopicSnoc(rows: seq<Row>, r: Row, t: Topic)
    ensures OfTopic(rows + [r], t) == OfTopic(rows, t) + if r.topic == t then [r] else []
    ensures WithoutTopic(rows + [r], t) == WithoutTopic(rows, t) + if r.topic == t then [] else [r]
  {
    assert (rows + [r])[..|rows|] == rows;
  }

  lemma {:induction false} OfTopicConcat(a: seq<Row>, b: seq<Row>, t: Topic)
    ensures OfTopic(a + b, t) == OfTopic(a, t) + OfTopic(b, t)
    decreases |b|
  {
    if b == [] {
      assert a + b == a;
    } else {
      var n := |b| - 1;
      OfTopicConcat(a, b[..n], t);
      assert a + b == (a + b[..n]) + [b[n]] && b == b[..n] + [b[n]];
      OfTopicSnoc(a + b[..n], b[n], t);
    }
  }

  lemma {:induction false} OfTopicMember(rows: seq<Row>, t: Topic, r: Row)
    ensures r in OfTopic(rows, t) <==> r in rows && r.topic == t
  {
    if rows != [] {
      var n := |rows| - 1;
      OfTopicMember(rows[..n], t, r);
      assert rows == rows[..n] + [rows[n]];
    }
  }

  lemma {:induction false} WithoutTopicMember(rows: seq<Row>, t: Topic, r: Row)
    ensures r in WithoutTopic(rows, t) <==> r in rows && r.topic != t
  {
    if rows != [] {
      var n := |rows| - 1;
      WithoutTopicMember(rows[..n], t, r);
      assert rows == rows[..n] + [rows[n]];
    }
  }

  lemma CountSnoc(rows: seq<Row>, r: Row)
    ensures multiset(rows + [r]) == multiset(rows) + multiset{r}
  {
  }

  lemma {:induction false} SplitByTopic(rows: seq<Row>, t: Topic)
    ensures multiset(rows) == multiset(OfTopic(rows, t)) + multiset(WithoutTopic(rows, t))
  {
    if rows != [] {
      var n := |rows| - 1;
      var init, r := rows[..n], rows[n];
      SplitByTopic(init, t);
      assert rows == init + [r];
      SplitSnoc(multiset(init), OfTopic(init, t), WithoutTopic(init, t), r);
      OfTopicSnoc(init, r, t);
      CountSnoc(init, r);
    }
  }

  lemma SplitSnoc(whole: multiset<Row>, a: seq<Row>, b: seq<Row>, r: Row)
    requires whole == multiset(a) + multiset(b)
    ensures whole + multiset{r} == multiset(a + [r]) + multiset(b + [])
    ensures whole + multiset{r} == multiset(a + []) + multiset(b + [r])
  {
    assert a + [] == a && b + [] == b;
  }

  lemma {:induction false} OtherTopicUntouched(rows: seq<Row>, t: Topic, u: Topic)
    requires t != u
    ensures OfTopic(WithoutTopic(rows, t), u) == OfTopic(rows, u)
  {
    if rows != [] {
      var n := |rows| - 1;
      OtherTopicUntouched(rows[..n], t, u);
      if rows[n].topic != t {
        OfTopicSnoc(WithoutTopic(rows[..n], t), rows[n], u);
      } else {
        assert WithoutTopic(rows, t) == WithoutTopic(rows[..n], t);
      }
    }
  }

  // ---------- grouping ----------

  predicate HasTopic(groups: seq<Group>, t: Topic) { exists i :: 0 <= i < |groups| && groups[i].topic == t }

  /** Each group holds the rows of its topic in batch order, no topic has two groups, and
      every topic of the batch has one. */
  predicate GroupsOf(groups: seq<Group>, rows: seq<Row>) {
    && (forall i, j :: 0 <= i < j < |groups| ==> groups[i].topic != groups[j].topic)
    && (forall i :: 0 <= i < |groups| ==> groups[i].rows == OfTopic(rows, groups[i].topic))
    && (forall r :: r in rows ==> HasTopic(groups, r.topic))
  }

  function Flatten(groups: seq<Group>): seq<Row> {
    if groups == [] then [] else Flatten(groups[..|groups| - 1]) + groups[|groups| - 1].rows
  }

  lemma RowsNeedGroups(groups: seq<Group>, rows: seq<Row>)
    requires GroupsOf(groups, rows) && rows != []
    ensures groups != []
  {
    assert rows[0] in rows && HasTopic(groups, rows[0].topic);
  }

  /** Taking the last group away takes its topic's rows away. */
  lemma WithoutLastGroup(groups: seq<Group>, rows: seq<Row>)
    requires GroupsOf(groups, rows) && groups != []
    ensures GroupsOf(groups[..|groups| - 1], WithoutTopic(rows, groups[|groups| - 1].topic))
  {
    var last, init := groups[|groups| - 1], groups[..|groups| - 1];
    var left := WithoutTopic(rows, last.topic);
    forall i | 0 <= i < |init| ensures init[i].rows == OfTopic(left, init[i].topic) {
      OtherTopicUntouched(rows, last.topic, groups[i].topic);
    }
    forall r | r in left ensures HasTopic(init, r.topic) {
      WithoutTopicMember(rows, last.topic, r);
      var i :| 0 <= i < |groups| && groups[i].topic == r.topic;
      assert init[i].topic == r.topic;
    }
  }

  /** Grouping loses, invents and duplicates nothing. */
  lemma {:induction false} GroupingPermutes(groups: seq<Group>, rows: seq<Row>)
    requires GroupsOf(groups, rows)
    ensures multiset(Flatten(groups)) == multiset(rows)
    decreases |groups|
  {
    if rows != [] { RowsNeedGroups(groups, rows); }
    if groups != [] {
      var last, init := groups[|groups| - 1], groups[..|groups| - 1];
      WithoutLastGroup(groups, rows);
      GroupingPermutes(init, WithoutTopic(rows, last.topic));
      SplitByTopic(rows, last.topic);
    }
  }

  method FindTopic(groups: seq<Group>, t: Topic) returns (at: nat)
    ensures at <= |groups|
    ensures forall i :: 0 <= i < at ==> groups[i].topic != t
    ensures at < |groups| ==> groups[at].topic == t
  {
    at := 0;
    while at < |groups| && groups[at].topic != t
      invariant at <= |groups| && forall i :: 0 <= i < at ==> groups[i].topic != t
    {
      at := at + 1;
    }
  }

  lemma NewTopicEmpty(groups: seq<Group>, rows: seq<Row>, t: Topic)
    requires GroupsOf(groups, rows) && !HasTopic(groups, t)
    ensures OfTopic(rows, t) == []
  {
    if OfTopic(rows, t) != [] {
      var r := OfTopic(rows, t)[0];
      OfTopicMember(rows, t, r);
    }
  }

  lemma TopicsKept(before: seq<Group>, after: seq<Group>, t: Topic)
    requires |before| <= |after| && forall i :: 0 <= i < |before| ==> after[i].topic == before[i].topic
    requires HasTopic(before, t)
    ensures HasTopic(after, t)
  {
    var i :| 0 <= i < |before| && before[i].topic == t;
    assert after[i].topic == t;
  }

  lemma NewGroup(groups: seq<Group>, rows: seq<Row>, r: Row)
    requires GroupsOf(groups, rows) && !HasTopic(groups, r.topic)
    ensures GroupsOf(groups + [Group(r.topic, [r])], rows + [r])
  {
    NewTopicEmpty(groups, rows, r.topic);
    Regrouped(groups, groups + [Group(r.topic, [r])], rows, r, |groups|);
  }

  lemma Regrouped(groups: seq<Group>, groups': seq<Group>, rows: seq<Row>, r: Row, at: nat)
    requires GroupsOf(groups, rows) && at < |groups'| && |groups| <= |groups'| <= |groups| + 1
    requires forall i, j :: 0 <= i < j < |groups'| ==> groups'[i].topic != groups'[j].topic
    requires forall i :: 0 <= i < |groups'| && i != at ==> i < |groups| && groups'[i] == groups[i]
    requires groups'[at] == Group(r.topic, OfTopic(rows, r.topic) + [r])
    requires at < |groups| ==> groups[at].topic == r.topic
    ensures GroupsOf(groups', rows + [r])
  {
    forall i | 0 <= i < |groups'| ensures groups'[i].rows == OfTopic(rows + [r], groups'[i].topic) {
      OfTopicSnoc(rows, r, groups'[i].topic);
    }
    forall x | x in rows + [r] ensures HasTopic(groups', x.topic) {
      if x in rows { TopicsKept(groups, groups', x.topic); } else { assert groups'[at].topic == x.topic; }
    }
  }

  /** One more row goes to its topic's group, or opens one at the end. */
  method AddRow(groups: seq<Group>, r: Row, ghost rows: seq<Row>) returns (groups': seq<Group>)
    requires GroupsOf(groups, rows)
    ensures GroupsOf(groups', rows + [r])
  {
    var at := FindTopic(groups, r.topic);
    if at == |groups| {
      groups' := groups + [Group(r.topic, [r])];
      NewGroup(groups, rows, r);
    } else {
      groups' := groups[at := Group(r.topic, groups[at].rows + [r])];
      Regrouped(groups, groups', rows, r, at);
    }
  }

  /** The grouping loop: an insertion-ordered map of topics to rows. */
  method GroupByTopic(rows: seq<Row>) returns (groups: seq<Group>)
    ensures GroupsOf(groups, rows)
  {
    groups := [];
    for k := 0 to |rows|
      invariant GroupsOf(groups, rows[..k])
    {
      groups := AddRow(groups, rows[k], rows[..k]);
      assert rows[..k + 1] == rows[..k] + [rows[k]];
    }
    assert rows[..|rows|] == rows;
  }

  // ---------- publishers and broker ----------

  /** One publisher's run over a batch: `next` groups have been sent. */
  datatype Tick = Tick(batch: seq<Row>, groups: seq<Group>, next: nat)

  /** `emitted` is a history variable; the outbox is kept in creation order. */
  datatype World = World(emitted: seq<Row>, outbox: seq<Row>, log: map<Topic, seq<Row>>, ticks: map<nat, Tick>)

  function LogOf(log: map<Topic, seq<Row>>, t: Topic): seq<Row> { if t in log then log[t] else [] }

  function Append(w: World, t: Topic, rows: seq<Row>): World { w.(log := w.log[t := LogOf(w.log, t) + rows]) }

  /** A failed send may still have delivered any prefix of its messages. */
  datatype Turn =
    | Emit(r: Row)
    | Read(p: nat, groups: seq<Group>)
    | Send(p: nat)
    | SendFails(p: nat, delivered: nat)
    | Delete(p: nat)
    | Crash(p: nat)

  function Batch(outbox: seq<Row>, size: nat): seq<Row> { if |outbox| <= size then outbox else outbox[..size] }

  function Remove(outbox: seq<Row>, rows: seq<Row>): seq<Row> {
    if outbox == [] then []
    else (if exists r :: r in rows && r.id == outbox[0].id then [] else [outbox[0]]) + Remove(outbox[1..], rows)
  }

  predicate Sending(w: World, p: nat) { p in w.ticks && w.ticks[p].next < |w.ticks[p].groups| }

  function Current(w: World, p: nat): Group
    requires Sending(w, p)
  {
    w.ticks[p].groups[w.ticks[p].next]
  }

  function SetTick(w: World, p: nat, tick: Tick): World { w.(ticks := w.ticks[p := tick]) }

  function Finish(w: World, p: nat): World
    requires p in w.ticks
  {
    w.(outbox := Remove(w.outbox, w.ticks[p].batch), ticks := w.ticks - {p})
  }

  function Advance(w: World, size: nat, turn: Turn): World {
    match turn
    case Emit(r) => if exists e :: e in w.emitted && e.id == r.id then w
                    else w.(emitted := w.emitted + [r], outbox := w.outbox + [r])
    case Read(p, groups) =>
      var batch := Batch(w.outbox, size);
      if p in w.ticks || batch == [] || !GroupsOf(groups, batch) then w
      else w.(ticks := w.ticks[p := Tick(batch, groups, 0)])
    case Send(p) =>
      if !Sending(w, p) then w
      else
        var g := Current(w, p);
        SetTick(Append(w, g.topic, g.rows), p, w.ticks[p].(next := w.ticks[p].next + 1))
    case SendFails(p, delivered) =>
      if !Sending(w, p) || delivered > |Current(w, p).rows| then w
      else
        var g := Current(w, p);
        Append(w, g.topic, g.rows[..delivered]).(ticks := w.ticks - {p})
    case Delete(p) =>
      if p in w.ticks && w.ticks[p].next == |w.ticks[p].groups| then
        Finish(w, p)
      else w
    case Crash(p) => w.(ticks := w.ticks - {p})
  }

  function Schedule(w: World, size: nat, turns: seq<Turn>): World
    decreases |turns|
  {
    if turns == [] then w else Schedule(Advance(w, size, turns[0]), size, turns[1..])
  }

  const EMPTY: World := World([], [], map[], map[])

  lemma {:induction false} ScheduleSnoc(w: World, size: nat, turns: seq<Turn>, turn: Turn)
    ensures Schedule(w, size, turns + [turn]) == Advance(Schedule(w, size, turns), size, turn)
    decreases |turns|
  {
    if turns == [] {
      assert ([turn])[1..] == [];
    } else {
      ScheduleSnoc(Advance(w, size, turns[0]), size, turns[1..], turn);
      assert (turns + [turn])[1..] == turns[1..] + [turn];
    }
  }

  // ---------- nothing is lost ----------

  predicate Delivered(log: map<Topic, seq<Row>>, r: Row) { r in LogOf(log, r.topic) }

  ghost predicate DistinctIds(rows: seq<Row>) {
    forall i, j :: 0 <= i < j < |rows| ==> rows[i].id != rows[j].id
  }

  /** What a tick has sent so far is in the log, and it only sends rows that were emitted. */
  ghost predicate TickSound(emitted: seq<Row>, log: map<Topic, seq<Row>>, tick: Tick) {
    && GroupsOf(tick.groups, tick.batch) && tick.next <= |tick.groups|
    && (forall r :: r in tick.batch ==> r in emitted)
    && (forall i, r :: 0 <= i < tick.next && r in tick.groups[i].rows ==> Delivered(log, r))
  }

  ghost predicate NothingLost(w: World) {
    && DistinctIds(w.emitted)
    && (forall r :: r in w.emitted ==> r in w.outbox || Delivered(w.log, r))
    && (forall r :: r in w.outbox ==> r in w.emitted)
    && (forall t, r :: r in LogOf(w.log, t) ==> r in w.emitted && r.topic == t)
    && (forall p :: p in w.ticks ==> TickSound(w.emitted, w.log, w.ticks[p]))
  }

  lemma GroupRow(groups: seq<Group>, rows: seq<Row>, i: nat, r: Row)
    requires GroupsOf(groups, rows) && i < |groups| && r in groups[i].rows
    ensures r in rows && r.topic == groups[i].topic
  {
    OfTopicMember(rows, groups[i].topic, r);
  }

  lemma {:induction false} RemoveMembers(outbox: seq<Row>, rows: seq<Row>, r: Row)
    ensures r in Remove(outbox, rows) <==> r in outbox && !exists x :: x in rows && x.id == r.id
  {
    if outbox != [] { RemoveMembers(outbox[1..], rows, r); }
  }

  lemma BatchDelivered(w: World, tick: Tick, r: Row)
    requires TickSound(w.emitted, w.log, tick) && tick.next == |tick.groups| && r in tick.batch
    ensures Delivered(w.log, r)
  {
    var i :| 0 <= i < |tick.groups| && tick.groups[i].topic == r.topic;
    OfTopicMember(tick.batch, r.topic, r);
  }

  lemma TickStaysSound(emitted: seq<Row>, emitted': seq<Row>, log: map<Topic, seq<Row>>, log': map<Topic, seq<Row>>,
        tick: Tick)
    requires TickSound(emitted, log, tick) && forall r :: r in emitted ==> r in emitted'
    requires forall r :: Delivered(log, r) ==> Delivered(log', r)
    ensures TickSound(emitted', log', tick)
  {
  }

  lemma AppendKeeps(w: World, t: Topic, rows: seq<Row>)
    requires NothingLost(w) && forall r :: r in rows ==> r in w.emitted && r.topic == t
    ensures NothingLost(Append(w, t, rows))
    ensures forall r :: Delivered(w.log, r) || r in rows ==> Delivered(Append(w, t, rows).log, r)
  {
    var w' := Append(w, t, rows);
    assert LogOf(w'.log, t) == LogOf(w.log, t) + rows;
    assert forall u :: u != t ==> LogOf(w'.log, u) == LogOf(w.log, u);
    forall r | Delivered(w.log, r) ensures Delivered(w'.log, r) { if r.topic == t { } }
    forall p | p in w'.ticks ensures TickSound(w'.emitted, w'.log, w'.ticks[p]) {
      TickStaysSound(w.emitted, w.emitted, w.log, w'.log, w.ticks[p]);
    }
  }

  lemma SendKeeps(w: World, p: nat)
    requires NothingLost(w) && Sending(w, p)
    ensures NothingLost(Advance(w, 0, Send(p)))
  {
    var tick := w.ticks[p];
    var g := tick.groups[tick.next];
    assert TickSound(w.emitted, w.log, tick);
    forall r | r in g.rows
      ensures r in w.emitted && r.topic == g.topic
    {
      GroupRow(tick.groups, tick.batch, tick.next, r);
    }
    AppendKeeps(w, g.topic, g.rows);
    var mid := Append(w, g.topic, g.rows);
    NextGroupSound(mid.emitted, mid.log, tick);
    SetTickKeeps(mid, p, tick.(next := tick.next + 1));
  }

  lemma NextGroupSound(emitted: seq<Row>, log: map<Topic, seq<Row>>, tick: Tick)
    requires TickSound(emitted, log, tick) && tick.next < |tick.groups|
    requires forall r :: r in tick.groups[tick.next].rows ==> Delivered(log, r)
    ensures TickSound(emitted, log, tick.(next := tick.next + 1))
  {
  }

  lemma SetTickKeeps(w: World, p: nat, tick: Tick)
    requires NothingLost(w) && TickSound(w.emitted, w.log, tick)
    ensures NothingLost(w.(ticks := w.ticks[p := tick]))
  {
  }

  lemma SendFailsKeeps(w: World, p: nat, delivered: nat)
    requires NothingLost(w)
    ensures NothingLost(Advance(w, 0, SendFails(p, delivered)))
  {
    if Sending(w, p) && delivered <= |Current(w, p).rows| {
      var tick := w.ticks[p];
      var g := tick.groups[tick.next];
      assert TickSound(w.emitted, w.log, tick);
      forall r | r in g.rows[..delivered] ensures r in w.emitted && r.topic == g.topic {
        GroupRow(tick.groups, tick.batch, tick.next, r);
      }
      AppendKeeps(w, g.topic, g.rows[..delivered]);
      CrashKeeps(Append(w, g.topic, g.rows[..delivered]), p);
    }
  }

  lemma CrashKeeps(w: World, p: nat)
    requires NothingLost(w)
    ensures NothingLost(w.(ticks := w.ticks - {p}))
  {
  }

  lemma SameRow(rows: seq<Row>, x: Row, y: Row)
    requires DistinctIds(rows) && x in rows && y in rows && x.id == y.id
    ensures x == y
  {
    var i, j :| 0 <= i < |rows| && 0 <= j < |rows| && rows[i] == x && rows[j] == y;
    if i != j { assert rows[i].id != rows[j].id; }
  }

  lemma DeleteKeeps(w: World, p: nat)
    requires NothingLost(w) && p in w.ticks && w.ticks[p].next == |w.ticks[p].groups|
    ensures NothingLost(w.(outbox := Remove(w.outbox, w.ticks[p].batch)))
  {
    var tick := w.ticks[p];
    assert TickSound(w.emitted, w.log, tick);
    var left := Remove(w.outbox, tick.batch);
    forall r | r in w.emitted ensures r in left || Delivered(w.log, r) {
      RemoveMembers(w.outbox, tick.batch, r);
      if r in w.outbox && r !in left {
        var x :| x in tick.batch && x.id == r.id;
        BatchDelivered(w, tick, x);
        SameRow(w.emitted, x, r);
      }
    }
    forall r | r in left ensures r in w.emitted { RemoveMembers(w.outbox, tick.batch, r); }
  }

  lemma EmitKeeps(w: World, size: nat, r: Row)
    requires NothingLost(w)
    ensures NothingLost(Advance(w, size, Emit(r)))
  {
    var w' := Advance(w, size, Emit(r));
    forall q | q in w'.ticks ensures TickSound(w'.emitted, w'.log, w'.ticks[q]) {
      TickStaysSound(w.emitted, w'.emitted, w.log, w.log, w.ticks[q]);
    }
    forall i, j | 0 <= i < j < |w'.emitted| ensures w'.emitted[i].id != w'.emitted[j].id {
      assert w'.emitted[i] in w.emitted || i == |w.emitted|;
    }
  }

  lemma ReadKeeps(w: World, size: nat, p: nat, groups: seq<Group>)
    requires NothingLost(w)
    ensures NothingLost(Advance(w, size, Read(p, groups)))
  {
    var batch := Batch(w.outbox, size);
    if p !in w.ticks && GroupsOf(groups, batch) { SetTickKeeps(w, p, Tick(batch, groups, 0)); }
  }

  lemma AdvanceKeeps(w: World, size: nat, turn: Turn)
    requires NothingLost(w)
    ensures NothingLost(Advance(w, size, turn))
  {
    match turn
    case Emit(r) => EmitKeeps(w, size, r);
    case Read(p, groups) => ReadKeeps(w, size, p, groups);
    case Send(p) => if Sending(w, p) { SendKeeps(w, p); }
    case SendFails(p, delivered) => SendFailsKeeps(w, p, delivered);
    case Delete(p) =>
      if p in w.ticks && w.ticks[p].next == |w.ticks[p].groups| {
        DeleteKeeps(w, p);
        CrashKeeps(w.(outbox := Remove(w.outbox, w.ticks[p].batch)), p);
      }
    case Crash(p) => CrashKeeps(w, p);
  }

  /** Over every run, with any number of publishers and sends failing anywhere: each
      emitted row is still in the outbox or in the broker's log, and the log holds nothing
      but emitted rows under their own topics. */
  lemma {:induction false} NoRowIsLost(w: World, size: nat, turns: seq<Turn>)
    requires NothingLost(w)
    ensures NothingLost(Schedule(w, size, turns))
    decreases |turns|
  {
    if turns != [] {
      AdvanceKeeps(w, size, turns[0]);
      NoRowIsLost(Advance(w, size, turns[0]), size, turns[1..]);
    }
  }

  // ---------- order, with one publisher ----------

  /** First occurrences, in order. */
  function Firsts(rows: seq<Row>): seq<Row> {
    if rows == [] then []
    else
      var n := |rows| - 1;
      Firsts(rows[..n]) + if rows[n] in rows[..n] then [] else [rows[n]]
  }

  lemma {:induction false} FirstsMembers(rows: seq<Row>)
    ensures forall r :: r in Firsts(rows) <==> r in rows
  {
    if rows != [] {
      var n := |rows| - 1;
      FirstsMembers(rows[..n]);
      assert rows == rows[..n] + [rows[n]];
    }
  }

  lemma FirstsSnoc(rows: seq<Row>, r: Row)
    ensures Firsts(rows + [r]) == Firsts(rows) + if r in rows then [] else [r]
  {
    assert (rows + [r])[..|rows|] == rows;
  }

  lemma InPrefix(all: seq<Row>, m: nat, k: nat)
    requires DistinctIds(all) && m <= |all| && k < |all|
    ensures all[k] in all[..m] <==> k < m
  {
    if k < m { assert all[..m][k] == all[k]; }
  }

  lemma SliceSnoc(log: seq<Row>, all: seq<Row>, a: nat, b: nat)
    requires a < b <= |all|
    ensures log + all[a..b] == (log + all[a..b - 1]) + [all[b - 1]]
  {
  }

  /** Sending again from a position already covered extends the first occurrences by
      exactly what is new. */
  lemma {:induction false} ResendExtends(log: seq<Row>, all: seq<Row>, m: nat, a: nat, b: nat)
    requires DistinctIds(all) && a <= m <= |all| && a <= b <= |all| && Firsts(log) == all[..m]
    ensures Firsts(log + all[a..b]) == all[..if b <= m then m else b]
    decreases b
  {
    if a == b {
      assert log + all[a..b] == log;
    } else {
      ResendExtends(log, all, m, a, b - 1);
      ResendOneMore(log + all[a..b - 1], all, if b - 1 <= m then m else b - 1, b - 1);
      SliceSnoc(log, all, a, b);
    }
  }

  lemma ResendOneMore(part: seq<Row>, all: seq<Row>, m: nat, k: nat)
    requires DistinctIds(all) && k <= m <= |all| && k < |all| && Firsts(part) == all[..m]
    ensures Firsts(part + [all[k]]) == all[..if k < m then m else k + 1]
  {
    FirstsSnoc(part, all[k]);
    FirstsMembers(part);
    assert all[k] in part <==> all[k] in all[..m];
    InPrefix(all, m, k);
    if k == m { assert all[..k + 1] == all[..k] + [all[k]]; }
  }

  /** How many rows of a topic are among the first `d`. */
  function Due(emitted: seq<Row>, d: nat, t: Topic): nat
    requires d <= |emitted|
  {
    |OfTopic(emitted[..d], t)|
  }

  /** With one publisher and `d` rows settled: the outbox is the rest of what was emitted,
      and the batch is its head. */
  ghost predicate Settled(w: World, d: nat) {
    && d <= |w.emitted| && w.outbox == w.emitted[d..]
    && (forall p :: p in w.ticks ==> p == 0)
    && (0 in w.ticks ==> IsBatch(w.emitted, d, w.ticks[0].batch))
  }

  ghost predicate IsBatch(emitted: seq<Row>, d: nat, batch: seq<Row>) {
    d + |batch| <= |emitted| && batch == emitted[d..d + |batch|]
  }

  /** The log of topic `t` shows the first `m` rows of the topic, which cover the first `d`
      rows emitted. */
  ghost predicate LogShows(emitted: seq<Row>, log: seq<Row>, t: Topic, d: nat, m: nat) {
    && d <= |emitted| && Due(emitted, d, t) <= m <= |OfTopic(emitted, t)|
    && Firsts(log) == OfTopic(emitted, t)[..m]
  }

  /** Once the topic's group was sent, the log covers the topic's rows of the batch too. */
  ghost predicate Covered(emitted: seq<Row>, t: Topic, d: nat, m: nat, tick: Tick) {
    d + |tick.batch| <= |emitted|
    && (SentTopic(tick, t) ==> Due(emitted, d + |tick.batch|, t) <= m)
  }

  predicate SentTopic(tick: Tick, t: Topic) {
    exists i :: 0 <= i < tick.next && i < |tick.groups| && tick.groups[i].topic == t
  }

  ghost predicate InOrder(w: World, t: Topic, d: nat, m: nat) {
    LogShows(w.emitted, LogOf(w.log, t), t, d, m) && (0 in w.ticks ==> Covered(w.emitted, t, d, m, w.ticks[0]))
  }

  lemma DueSplits(emitted: seq<Row>, d: nat, e: nat, t: Topic)
    requires d <= e <= |emitted|
    ensures var all, a, b := OfTopic(emitted, t), Due(emitted, d, t), Due(emitted, e, t);
            a <= b <= |all| && all[a..b] == OfTopic(emitted[d..e], t)
  {
    var pre, mid, post := emitted[..d], emitted[d..e], emitted[e..];
    assert emitted[..e] == pre + mid;
    assert emitted == (pre + mid) + post;
    OfTopicConcat(pre, mid, t);
    OfTopicConcat(pre + mid, post, t);
  }

  lemma {:induction false} OfTopicDistinct(rows: seq<Row>, t: Topic)
    requires DistinctIds(rows)
    ensures DistinctIds(OfTopic(rows, t))
  {
    if rows != [] {
      var n := |rows| - 1;
      OfTopicDistinct(rows[..n], t);
      var init := OfTopic(rows[..n], t);
      forall i | 0 <= i < |init| ensures init[i].id != rows[n].id {
        OfTopicMember(rows[..n], t, init[i]);
        assert init[i] in rows[..n];
      }
    }
  }

  lemma SliceOfSlice(all: seq<Row>, a: nat, b: nat, c: nat)
    requires a + c <= b <= |all|
    ensures all[a..b][..c] == all[a..a + c]
  {
  }

  /** Appending the first `c` rows that the topic has in the batch, sent before or not. */
  lemma ResendShows(emitted: seq<Row>, log: seq<Row>, t: Topic, d: nat, e: nat, m: nat, c: nat) returns (m': nat)
    requires DistinctIds(emitted) && LogShows(emitted, log, t, d, m)
    requires d <= e <= |emitted| && c <= |OfTopic(emitted[d..e], t)|
    ensures m <= m' && LogShows(emitted, log + OfTopic(emitted[d..e], t)[..c], t, d, m')
    ensures c == |OfTopic(emitted[d..e], t)| ==> Due(emitted, e, t) <= m'
  {
    var all, a := OfTopic(emitted, t), Due(emitted, d, t);
    DueSplits(emitted, d, e, t);
    SliceOfSlice(all, a, Due(emitted, e, t), c);
    OfTopicDistinct(emitted, t);
    ResendExtends(log, all, m, a, a + c);
    m' := if a + c <= m then m else a + c;
  }

  /** What grouping means for one topic. */
  ghost predicate TopicGrouped(tick: Tick, t: Topic) {
    && (forall i :: 0 <= i < |tick.groups| && tick.groups[i].topic == t ==>
       tick.groups[i].rows == OfTopic(tick.batch, t))
    && (OfTopic(tick.batch, t) == [] || HasTopic(tick.groups, t))
  }

  /** The facts about the batch under way that the order of topic `t` rests on. */
  ghost predicate TickReady(w: World, t: Topic, d: nat) {
    0 in w.ticks ==> IsBatch(w.emitted, d, w.ticks[0].batch) && TopicGrouped(w.ticks[0], t)
  }

  lemma GroupedForTopic(w: World, t: Topic)
    requires NothingLost(w) && 0 in w.ticks
    ensures TopicGrouped(w.ticks[0], t)
  {
    var tick := w.ticks[0];
    assert TickSound(w.emitted, w.log, tick);
    if !HasTopic(tick.groups, t) { NewTopicEmpty(tick.groups, tick.batch, t); }
  }

  lemma CoveredMore(emitted: seq<Row>, t: Topic, d: nat, m: nat, m': nat, tick: Tick)
    requires Covered(emitted, t, d, m, tick) && m <= m'
    ensures Covered(emitted, t, d, m', tick)
  {
  }

  /** A send of the current group, complete or cut short to the rows `sent`. */
  lemma AppendShows(w: World, t: Topic, d: nat, m: nat, sent: seq<Row>) returns (m': nat)
    requires DistinctIds(w.emitted) && LogShows(w.emitted, LogOf(w.log, t), t, d, m) && Sending(w, 0)
    requires IsBatch(w.emitted, d, w.ticks[0].batch) && TopicGrouped(w.ticks[0], t) && sent <= Current(w, 0).rows
    ensures m <= m' && LogShows(w.emitted, LogOf(Append(w, Current(w, 0).topic, sent).log, t), t, d, m')
    ensures Current(w, 0).topic == t && sent == Current(w, 0).rows ==> Due(w.emitted, d + |w.ticks[0].batch|, t) <= m'
  {
    var batch, u := w.ticks[0].batch, Current(w, 0).topic;
    m' := m;
    if u == t {
      assert sent == OfTopic(batch, t)[..|sent|];
      m' := ResendShows(w.emitted, LogOf(w.log, t), t, d, d + |batch|, m, |sent|);
    }
  }

  lemma SentOneMore(tick: Tick, t: Topic)
    requires tick.next < |tick.groups|
    ensures SentTopic(tick.(next := tick.next + 1), t) <==> SentTopic(tick, t) || tick.groups[tick.next].topic == t
  {
    var tick' := tick.(next := tick.next + 1);
    if SentTopic(tick, t) {
      var i :| 0 <= i < tick.next && i < |tick.groups| && tick.groups[i].topic == t;
      assert tick'.groups[i].topic == t;
    }
    if tick.groups[tick.next].topic == t { assert tick'.groups[tick.next].topic == t; }
  }

  lemma SendInOrder(w: World, size: nat, t: Topic, d: nat, m: nat) returns (m': nat)
    requires DistinctIds(w.emitted) && InOrder(w, t, d, m)
    requires TickReady(w, t, d)
    ensures InOrder(Advance(w, size, Send(0)), t, d, m')
  {
    m' := m;
    if Sending(w, 0) {
      m' := AppendShows(w, t, d, m, Current(w, 0).rows);
      CoveredMore(w.emitted, t, d, m, m', w.ticks[0]);
      SentOneMore(w.ticks[0], t);
    }
  }

  lemma SendFailsInOrder(w: World, size: nat, t: Topic, d: nat, m: nat, delivered: nat) returns (m': nat)
    requires DistinctIds(w.emitted) && InOrder(w, t, d, m)
    requires TickReady(w, t, d)
    ensures InOrder(Advance(w, size, SendFails(0, delivered)), t, d, m')
  {
    m' := m;
    if Sending(w, 0) && delivered <= |Current(w, 0).rows| {
      m' := AppendShows(w, t, d, m, Current(w, 0).rows[..delivered]);
    }
  }

  lemma {:induction false} RemoveHead(outbox: seq<Row>, k: nat, j: nat)
    requires DistinctIds(outbox) && j <= k <= |outbox|
    ensures Remove(outbox[j..], outbox[..k]) == outbox[k..]
    decreases |outbox| - j
  {
    if j < |outbox| {
      assert outbox[j..][0] == outbox[j] && outbox[j..][1..] == outbox[j + 1..];
      if j < k {
        assert outbox[..k][j] == outbox[j];
        RemoveHead(outbox, k, j + 1);
      } else {
        RemoveNone(outbox[j..], outbox[..k]);
      }
    }
  }

  lemma {:induction false} RemoveNone(outbox: seq<Row>, rows: seq<Row>)
    requires forall r, x :: r in outbox && x in rows ==> r.id != x.id
    ensures Remove(outbox, rows) == outbox
  {
    if outbox != [] { RemoveNone(outbox[1..], rows); }
  }

  lemma RemoveBatch(emitted: seq<Row>, d: nat, k: nat)
    requires DistinctIds(emitted) && d + k <= |emitted|
    ensures Remove(emitted[d..], emitted[d..d + k]) == emitted[d + k..]
  {
    var rest := emitted[d..];
    assert emitted[d..d + k] == rest[..k] && rest[k..] == emitted[d + k..] && rest[0..] == rest;
    RemoveHead(rest, k, 0);
  }

  function NextSettled(w: World, turn: Turn, d: nat): nat {
    if turn == Delete(0) && 0 in w.ticks && w.ticks[0].next == |w.ticks[0].groups| then d + |w.ticks[0].batch| else d
  }

  lemma AdvanceSettled(w: World, size: nat, turn: Turn, d: nat)
    requires DistinctIds(w.emitted) && Settled(w, d) && OnlyPublisher(turn)
    ensures Settled(Advance(w, size, turn), NextSettled(w, turn, d))
  {
    match turn
    case Emit(r) => EmitSettled(w, size, r, d);
    case Read(_, groups) =>
      assert Batch(w.outbox, size) == w.emitted[d..d + |Batch(w.outbox, size)|];
    case Delete(_) => DeleteSettled(w, size, d);
    case Send(_) =>
    case SendFails(_, _) =>
    case Crash(_) =>
  }

  lemma EmitSettled(w: World, size: nat, r: Row, d: nat)
    requires Settled(w, d)
    ensures Settled(Advance(w, size, Emit(r)), d)
  {
    var more := w.emitted + [r];
    assert more[d..] == w.emitted[d..] + [r];
    if 0 in w.ticks {
      var e := d + |w.ticks[0].batch|;
      assert more[d..e] == w.emitted[d..e];
    }
  }

  lemma DeleteSettled(w: World, size: nat, d: nat)
    requires DistinctIds(w.emitted) && Settled(w, d)
    ensures Settled(Advance(w, size, Delete(0)), NextSettled(w, Delete(0), d))
  {
    if 0 in w.ticks { RemoveBatch(w.emitted, d, |w.ticks[0].batch|); }
  }

  /** When every group was sent, the topic's rows of the batch are shown. */
  lemma BatchShown(emitted: seq<Row>, t: Topic, d: nat, m: nat, tick: Tick)
    requires Covered(emitted, t, d, m, tick) && IsBatch(emitted, d, tick.batch) && TopicGrouped(tick, t)
    requires tick.next == |tick.groups| && Due(emitted, d, t) <= m
    ensures Due(emitted, d + |tick.batch|, t) <= m
  {
    if OfTopic(tick.batch, t) == [] { DueSplits(emitted, d, d + |tick.batch|, t); }
  }

  lemma DeleteInOrder(w: World, size: nat, t: Topic, d: nat, m: nat)
    requires InOrder(w, t, d, m) && TickReady(w, t, d)
    ensures InOrder(Advance(w, size, Delete(0)), t, NextSettled(w, Delete(0), d), m)
  {
    if 0 in w.ticks && w.ticks[0].next == |w.ticks[0].groups| {
      BatchShown(w.emitted, t, d, m, w.ticks[0]);
      DeleteFinishes(w, size);
      FinishInOrder(w, t, d, d + |w.ticks[0].batch|, m);
    }
  }

  lemma DeleteFinishes(w: World, size: nat)
    requires 0 in w.ticks && w.ticks[0].next == |w.ticks[0].groups|
    ensures Advance(w, size, Delete(0)) == Finish(w, 0)
  {
  }

  /** Finishing leaves the logs alone, and no batch is under way. */
  lemma FinishParts(w: World)
    requires 0 in w.ticks
    ensures Finish(w, 0).log == w.log && Finish(w, 0).emitted == w.emitted && 0 !in Finish(w, 0).ticks
  {
  }

  lemma IdleInOrder(w: World, t: Topic, d: nat, m: nat)
    requires LogShows(w.emitted, LogOf(w.log, t), t, d, m) && 0 !in w.ticks
    ensures InOrder(w, t, d, m)
  {
  }

  lemma FinishInOrder(w: World, t: Topic, d: nat, d': nat, m: nat)
    requires LogShows(w.emitted, LogOf(w.log, t), t, d, m) && 0 in w.ticks
    requires d' <= |w.emitted| && Due(w.emitted, d', t) <= m
    ensures InOrder(Finish(w, 0), t, d', m)
  {
    FinishParts(w);
    IdleInOrder(Finish(w, 0), t, d', m);
  }

  lemma EmitInOrder(w: World, size: nat, t: Topic, d: nat, m: nat, r: Row)
    requires InOrder(w, t, d, m)
    ensures InOrder(Advance(w, size, Emit(r)), t, d, m)
  {
    var more := w.emitted + [r];
    OfTopicSnoc(w.emitted, r, t);
    assert OfTopic(more, t)[..m] == OfTopic(w.emitted, t)[..m];
    assert forall e: nat :: e <= |w.emitted| ==> more[..e] == w.emitted[..e];
  }

  predicate OnlyPublisher(turn: Turn) {
    match turn
    case Emit(_) => true
    case Read(p, _) => p == 0
    case Send(p) => p == 0
    case SendFails(p, _) => p == 0
    case Delete(p) => p == 0
    case Crash(p) => p == 0
  }

  lemma ReadInOrder(w: World, size: nat, t: Topic, d: nat, m: nat, groups: seq<Group>)
    requires d <= |w.emitted| && w.outbox == w.emitted[d..] && InOrder(w, t, d, m)
    ensures InOrder(Advance(w, size, Read(0, groups)), t, d, m)
  {
  }

  lemma AdvanceInOrder(w: World, size: nat, turn: Turn, t: Topic, d: nat, m: nat) returns (m': nat)
    requires DistinctIds(w.emitted) && d <= |w.emitted| && w.outbox == w.emitted[d..]
    requires TickReady(w, t, d) && InOrder(w, t, d, m) && OnlyPublisher(turn)
    ensures InOrder(Advance(w, size, turn), t, NextSettled(w, turn, d), m')
  {
    m' := m;
    match turn
    case Emit(r) => EmitInOrder(w, size, t, d, m, r);
    case Read(_, groups) => ReadInOrder(w, size, t, d, m, groups);
    case Send(_) => m' := SendInOrder(w, size, t, d, m);
    case SendFails(_, delivered) => m' := SendFailsInOrder(w, size, t, d, m, delivered);
    case Delete(_) => DeleteInOrder(w, size, t, d, m);
    case Crash(_) => CrashInOrder(w, size, t, d, m);
  }

  lemma CrashInOrder(w: World, size: nat, t: Topic, d: nat, m: nat)
    requires InOrder(w, t, d, m)
    ensures InOrder(Advance(w, size, Crash(0)), t, d, m)
  {
  }

  lemma {:induction false} RunInOrder(w: World, size: nat, turns: seq<Turn>, t: Topic, d: nat, m: nat)
    returns (d': nat, m': nat)
    requires NothingLost(w) && Settled(w, d) && InOrder(w, t, d, m)
    requires forall i :: 0 <= i < |turns| ==> OnlyPublisher(turns[i])
    ensures Settled(Schedule(w, size, turns), d') && InOrder(Schedule(w, size, turns), t, d', m')
    decreases |turns|
  {
    if turns == [] {
      d', m' := d, m;
    } else {
      if 0 in w.ticks { GroupedForTopic(w, t); }
      var m1 := AdvanceInOrder(w, size, turns[0], t, d, m);
      AdvanceSettled(w, size, turns[0], d);
      AdvanceKeeps(w, size, turns[0]);
      d', m' := RunInOrder(Advance(w, size, turns[0]), size, turns[1..], t, NextSettled(w, turns[0], d), m1);
    }
  }

  /** Over every run of one publisher, whatever fails and is retried: in each topic's log, the
      first occurrences are the topic's rows in the order of the outbox, and none is missing
      except rows still waiting in the outbox. */
  lemma FirstOccurrencesInOrder(size: nat, turns: seq<Turn>, t: Topic) returns (settled: nat)
    requires forall i :: 0 <= i < |turns| ==> OnlyPublisher(turns[i])
    ensures var w := Schedule(EMPTY, size, turns);
            && settled <= |w.emitted| && w.outbox == w.emitted[settled..]
            && OfTopic(w.emitted[..settled], t) <= Firsts(LogOf(w.log, t)) <= OfTopic(w.emitted, t)
  {
    assert OfTopic([], t) == [];
    var d, m := RunInOrder(EMPTY, size, turns, t, 0, 0);
    settled := d;
    var w := Schedule(EMPTY, size, turns);
    assert w.emitted == w.emitted[..d] + w.emitted[d..];
    OfTopicConcat(w.emitted[..d], w.emitted[d..], t);
  }

  // ---------- the publisher ----------

  /** How a tick's sends change the logs: exactly the rows of the groups sent. */
  ghost predicate SentSoFar(before: map<Topic, seq<Row>>, log: map<Topic, seq<Row>>, groups: seq<Group>, k: nat) {
    && k <= |groups|
    && (forall i :: 0 <= i < k ==> LogOf(log, groups[i].topic) == LogOf(before, groups[i].topic) + groups[i].rows)
    && (forall t :: !HasTopic(groups[..k], t) ==> LogOf(log, t) == LogOf(before, t))
  }

  lemma SentNext(before: map<Topic, seq<Row>>, log: map<Topic, seq<Row>>, groups: seq<Group>, k: nat)
    requires SentSoFar(before, log, groups, k) && k < |groups|
    requires forall i, j :: 0 <= i < j < |groups| ==> groups[i].topic != groups[j].topic
    ensures SentSoFar(before, log[groups[k].topic := LogOf(log, groups[k].topic) + groups[k].rows], groups, k + 1)
  {
    var u := groups[k].topic;
    var log' := log[u := LogOf(log, u) + groups[k].rows];
    assert !HasTopic(groups[..k], u);
    forall t | !HasTopic(groups[..k + 1], t) ensures LogOf(log', t) == LogOf(before, t) {
      OneMoreTopic(groups, k, t);
    }
  }

  lemma OneMoreTopic(groups: seq<Group>, k: nat, t: Topic)
    requires k < |groups|
    ensures HasTopic(groups[..k + 1], t) <==> HasTopic(groups[..k], t) || groups[k].topic == t
  {
    var more := groups[..k + 1];
    if HasTopic(groups[..k], t) {
      var i :| 0 <= i < k && groups[..k][i].topic == t;
      assert more[i].topic == t;
    }
    if HasTopic(more, t) {
      var i :| 0 <= i < |more| && more[i].topic == t;
      if i < k { assert groups[..k][i].topic == t; }
    }
    assert more[k].topic == groups[k].topic;
  }

  /** The logs after sending some groups in turn. */
  function LogsAfter(log: map<Topic, seq<Row>>, groups: seq<Group>): map<Topic, seq<Row>> {
    if groups == [] then log
    else
      var g, before := groups[|groups| - 1], LogsAfter(log, groups[..|groups| - 1]);
      before[g.topic := LogOf(before, g.topic) + g.rows]
  }

  lemma {:induction false} LogsAfterSent(log: map<Topic, seq<Row>>, groups: seq<Group>, k: nat)
    requires k <= |groups| && forall i, j :: 0 <= i < j < |groups| ==> groups[i].topic != groups[j].topic
    ensures SentSoFar(log, LogsAfter(log, groups[..k]), groups, k)
  {
    if k > 0 {
      LogsAfterSent(log, groups, k - 1);
      assert groups[..k][..k - 1] == groups[..k - 1];
      SentNext(log, LogsAfter(log, groups[..k - 1]), groups, k - 1);
    }
  }

  lemma SentAll(before: map<Topic, seq<Row>>, log: map<Topic, seq<Row>>, groups: seq<Group>, batch: seq<Row>)
    requires GroupsOf(groups, batch) && SentSoFar(before, log, groups, |groups|)
    ensures forall t :: LogOf(log, t) == LogOf(before, t) + OfTopic(batch, t)
  {
    assert groups[..|groups|] == groups;
    forall t ensures LogOf(log, t) == LogOf(before, t) + OfTopic(batch, t) {
      if HasTopic(groups, t) {
        var i :| 0 <= i < |groups| && groups[i].topic == t;
      } else {
        NewTopicEmpty(groups, batch, t);
      }
    }
  }

  lemma SentExtends(before: map<Topic, seq<Row>>, log: map<Topic, seq<Row>>, groups: seq<Group>, k: nat, u: Topic,
        more: seq<Row>)
    requires SentSoFar(before, log, groups, k)
    ensures forall t :: LogOf(before, t) <= LogOf(log[u := LogOf(log, u) + more], t)
  {
    forall t ensures LogOf(before, t) <= LogOf(log[u := LogOf(log, u) + more], t) {
      if HasTopic(groups[..k], t) { var i :| 0 <= i < k && groups[..k][i].topic == t; assert groups[i].topic == t; }
    }
  }

  function During(w: World, tick: Tick): World { w.(ticks := map[0 := tick]) }

  lemma ReadTurn(w: World, size: nat, groups: seq<Group>)
    requires w.ticks == map[] && Batch(w.outbox, size) != [] && GroupsOf(groups, Batch(w.outbox, size))
    ensures Schedule(w, size, [Read(0, groups)]) == During(w, Tick(Batch(w.outbox, size), groups, 0))
  {
    assert [Read(0, groups)] == [] + [Read(0, groups)];
    ScheduleSnoc(w, size, [], Read(0, groups));
  }

  lemma SendTurn(w0: World, size: nat, turns: seq<Turn>, w: World, tick: Tick)
    requires Schedule(w0, size, turns) == During(w, tick) && tick.next < |tick.groups|
    ensures var g := tick.groups[tick.next];
            Schedule(w0, size, turns + [Send(0)]) == During(Append(w, g.topic, g.rows), tick.(next := tick.next + 1))
  {
    ScheduleSnoc(w0, size, turns, Send(0));
  }

  lemma FailTurn(w0: World, size: nat, turns: seq<Turn>, w: World, tick: Tick, delivered: nat)
    requires Schedule(w0, size, turns) == During(w, tick)
    requires w.ticks == map[] && tick.next < |tick.groups| && delivered <= |tick.groups[tick.next].rows|
    ensures var g := tick.groups[tick.next];
            Schedule(w0, size, turns + [SendFails(0, delivered)]) == Append(w, g.topic, g.rows[..delivered])
  {
    ScheduleSnoc(w0, size, turns, SendFails(0, delivered));
    assert map[0 := tick] - {0} == map[];
  }

  lemma DeleteTurn(w0: World, size: nat, turns: seq<Turn>, w: World, tick: Tick)
    requires Schedule(w0, size, turns) == During(w, tick)
    requires w.ticks == map[] && tick.next == |tick.groups|
    ensures Schedule(w0, size, turns + [Delete(0)]) == w.(outbox := Remove(w.outbox, tick.batch))
  {
    ScheduleSnoc(w0, size, turns, Delete(0));
    assert map[0 := tick] - {0} == map[];
  }

  ghost predicate OnlyThis(turns: seq<Turn>) { forall i :: 0 <= i < |turns| ==> OnlyPublisher(turns[i]) }

  class OutboxPublisher {
    var outbox: seq<Row>
    var log: map<Topic, seq<Row>>
    var running: bool
    const batchSize: nat
    ghost var emitted: seq<Row>

    constructor (batchSize: nat)
      ensures View() == EMPTY && !running && this.batchSize == batchSize
    {
      outbox, log, running, emitted := [], map[], false, [];
      this.batchSize := batchSize;
    }

    ghost function View(): World
      reads this
    {
      World(emitted, outbox, log, map[])
    }

    method Send(t: Topic, rows: seq<Row>)
      modifies `log
      ensures View() == Append(old(View()), t, rows)
    {
      log := log[t := LogOf(log, t) + rows];
    }

    /** One tick.  `got` is the answer of the lock, and `failing` says at which group and after
        how many rows a send gives up.  Either the whole batch reached the logs, each topic's
        rows in batch order, and the batch is deleted; or no row leaves the outbox.  What
        happens is a run of the publisher's turns. */
    method RunTick(got: bool, failing: Option<(nat, nat)>) returns (done: bool, ghost turns: seq<Turn>)
      modifies `outbox, `log, `running
      ensures running == old(running)
      ensures !got || old(running) ==> !done && turns == []
      ensures got && !old(running) && failing.None? ==> done
      ensures OnlyThis(turns) && View() == Schedule(old(View()), batchSize, turns)
      ensures done ==>
                var batch := Batch(old(outbox), batchSize);
                && outbox == Remove(old(outbox), batch)
                && forall t :: LogOf(log, t) == LogOf(old(log), t) + OfTopic(batch, t)
      ensures !done ==> outbox == old(outbox) && forall t :: LogOf(old(log), t) <= LogOf(log, t)
    {
      done, turns := false, [];
      if !got || running { return; }
      running := true;
      var rows := Batch(outbox, batchSize);
      if rows == [] {
        running, done := false, true;
        RemoveNone(outbox, rows);
        return;
      }
      var groups := GroupByTopic(rows);
      ReadTurn(View(), batchSize, groups);
      var ok;
      ok, turns := SendGroups(rows, groups, failing, View(), [Read(0, groups)]);
      running := false;
      if !ok { return; }
      DeleteTurn(old(View()), batchSize, turns, View(), Tick(rows, groups, |groups|));
      SentAll(old(log), log, groups, rows);
      outbox := Remove(outbox, rows);
      turns := turns + [Delete(0)];
      done := true;
    }

    /** Group after group, up to the first send that gives up. */
    method SendGroups(rows: seq<Row>, groups: seq<Group>, failing: Option<(nat, nat)>, ghost w0: World,
          ghost before: seq<Turn>)
      returns (ok: bool, ghost turns: seq<Turn>)
      requires GroupsOf(groups, rows) && OnlyThis(before)
      requires Schedule(w0, batchSize, before) == During(View(), Tick(rows, groups, 0))
      modifies `log
      ensures OnlyThis(turns) && (failing.None? ==> ok)
      ensures ok ==> SentSoFar(old(log), log, groups, |groups|)
      ensures ok ==> Schedule(w0, batchSize, turns) == During(View(), Tick(rows, groups, |groups|))
      ensures !ok ==> Schedule(w0, batchSize, turns) == View() && forall t :: LogOf(old(log), t) <= LogOf(log, t)
    {
      turns := before;
      var k := 0;
      while k < |groups|
        invariant k <= |groups| && log == LogsAfter(old(log), groups[..k]) && OnlyThis(turns)
        invariant Schedule(w0, batchSize, turns) == During(View(), Tick(rows, groups, k))
      {
        ghost var tick := Tick(rows, groups, k);
        if failing.Some? && failing.value.0 == k && failing.value.1 <= |groups[k].rows| {
          var part := groups[k].rows[..failing.value.1];
          FailTurn(w0, batchSize, turns, View(), tick, failing.value.1);
          LogsAfterSent(old(log), groups, k);
          SentExtends(old(log), log, groups, k, groups[k].topic, part);
          Send(groups[k].topic, part);
          return false, turns + [SendFails(0, failing.value.1)];
        }
        SendTurn(w0, batchSize, turns, View(), tick);
        assert groups[..k + 1][..k] == groups[..k];
        Send(groups[k].topic, groups[k].rows);
        turns := turns + [Turn.Send(0)];
        k := k + 1;
      }
      LogsAfterSent(old(log), groups, k);
      ok := true;
    }
  }
}
