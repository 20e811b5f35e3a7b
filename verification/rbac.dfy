/** The version-stamped permission cache.  Expansions read role ids, versions, the cache and
    the tables one step at a time, and administrators write the tables and then bump a
    version, all interleaved freely.  A hit is proved as good as a table read that happened
    after every administrator call completed before the expansion began. */
module Rbac {
  import opened Common
  import opened RbacKeys

  type Perm = string
  type ReaderId = nat
  type AdminId = nat
  type Time = int
  type Tables = map<Id, set<Perm>>

  /** The permissions of one role, and of several together. */
  function PermsOf(db: Tables, r: Id): set<Perm> { if r in db then db[r] else {} }

  function Union(db: Tables, roles: seq<Id>): set<Perm> { set r, p | r in roles && p in PermsOf(db, r) :: p }

  lemma SameUnion(db: Tables, db': Tables, roles: seq<Id>)
    requires forall r :: r in roles ==> PermsOf(db, r) == PermsOf(db', r)
    ensures Union(db, roles) == Union(db', roles)
  {
  }

  /** What an entry's key was built from; a history component. */
  datatype Origin = Origin(user: Id, scope: Id, userVersion: nat, pairs: seq<RoleVersion>)

  /** `at` is a history component too: the moment whose tables the value was read from. */
  datatype Entry = Entry(value: set<Perm>, exp: Time, at: nat, origin: Origin)

  datatype Pc = Versions | NeedsTables | Filling(value: set<Perm>, at: nat) | Returned(value: set<Perm>, at: nat)

  /** An expansion under way: its role ids in the order the sort leaves them, the versions
      read so far, and as history the moment each role was settled when it began. */
  datatype Reader = Reader(user: Id, scope: Id, roles: seq<Id>, userVersion: Option<nat>, versions: map<Id, nat>,
                           pc: Pc, floor: map<Id, nat>)

  /** An administrator call between its write, at moment `at`, and its bump. */
  datatype Writer = Writer(role: Id, at: nat)

  /** `log` holds the role tables at every moment, the last one being now; `marks[r][v - 1]`
      is the moment of the latest write to `r` that version `v` of `r` stands for. */
  datatype World = World(
    log: seq<Tables>,
    userVer: map<Id, nat>,
    roleVer: map<Id, nat>,
    cache: map<string, Entry>,
    readers: map<ReaderId, Reader>,
    writers: map<AdminId, Writer>,
    marks: map<Id, seq<nat>>)

  /** A counter that was never touched stands at 1. */
  function Ver(ver: map<Id, nat>, id: Id): nat { if id in ver then ver[id] else 1 }

  function Bumped(ver: map<Id, nat>, id: Id): map<Id, nat> { ver[id := Ver(ver, id) + 1] }

  function Touched(ver: map<Id, nat>, id: Id): map<Id, nat> { if id in ver then ver else ver[id := 1] }

  function MarksOf(marks: map<Id, seq<nat>>, r: Id): seq<nat> { if r in marks then marks[r] else [0] }

  function Last(marks: map<Id, seq<nat>>, r: Id): nat {
    var m := MarksOf(marks, r);
    if m == [] then 0 else m[|m| - 1]
  }

  function Now(w: World): nat
    requires w.log != []
  {
    |w.log| - 1
  }

  function Db(w: World): Tables
    requires w.log != []
  {
    w.log[|w.log| - 1]
  }

  function Pairs(roles: seq<Id>, versions: map<Id, nat>): seq<RoleVersion>
    requires forall r :: r in roles ==> r in versions
  {
    seq(|roles|, i requires 0 <= i < |roles| => RoleVersion(roles[i], versions[roles[i]]))
  }

  function RolesOf(pairs: seq<RoleVersion>): seq<Id> { seq(|pairs|, i requires 0 <= i < |pairs| => pairs[i].role) }

  function KeyOf(o: Origin): string { PermKey(o.user, o.scope, Stamp(o.userVersion, o.pairs)) }

  /** All versions read: the stamp can be built. */
  predicate Stamped(rd: Reader) { rd.userVersion.Some? && forall r :: r in rd.roles ==> r in rd.versions }

  function OriginOf(rd: Reader): Origin
    requires Stamped(rd)
  {
    Origin(rd.user, rd.scope, rd.userVersion.value, Pairs(rd.roles, rd.versions))
  }

  predicate PlainIds(ids: seq<Id>) { forall i :: 0 <= i < |ids| ==> Plain(ids[i]) }

  datatype Turn =
    | Begin(c: ReaderId, user: Id, scope: Id, roles: seq<Id>)
    | ReadUserVersion(c: ReaderId)
    | ReadRoleVersion(c: ReaderId, r: Id)
    | LookUp(c: ReaderId, now: Time)
    | ReadTables(c: ReaderId)
    | Fill(c: ReaderId, now: Time, ttl: nat)
    | Abandon(c: ReaderId)
    | Write(a: AdminId, r: Id, p: Perm, grant: bool)
    | BumpRole(a: AdminId)
    | BumpUser(u: Id)
    | Evict(k: string)

  function SetReader(w: World, c: ReaderId, rd: Reader): World { w.(readers := w.readers[c := rd]) }

  function Floors(marks: map<Id, seq<nat>>, roles: seq<Id>): map<Id, nat> { map r | r in roles :: Last(marks, r) }

  function LookUpTurn(w: World, c: ReaderId, rd: Reader, now: Time): World
    requires Stamped(rd) && w.log != []
  {
    var k := KeyOf(OriginOf(rd));
    if k in w.cache && now <= w.cache[k].exp then SetReader(w, c, rd.(pc := Returned(w.cache[k].value, w.cache[k].at)))
    else
      var pc := if rd.roles == [] then Filling({}, Now(w)) else NeedsTables;
      SetReader(w.(cache := w.cache - {k}), c, rd.(pc := pc))
  }

  function FillTurn(w: World, c: ReaderId, rd: Reader, exp: Time): World
    requires Stamped(rd) && rd.pc.Filling?
  {
    var o := OriginOf(rd);
    SetReader(w.(cache := w.cache[KeyOf(o) := Entry(rd.pc.value, exp, rd.pc.at, o)]), c,
              rd.(pc := Returned(rd.pc.value, rd.pc.at)))
  }

  function Written(db: Tables, r: Id, p: Perm, grant: bool): Tables {
    db[r := if grant then PermsOf(db, r) + {p} else PermsOf(db, r) - {p}]
  }

  /** A write gives or takes that permission of that role, and nothing else. */
  lemma WrittenPerms(db: Tables, r: Id, p: Perm, grant: bool, x: Id, q: Perm)
    ensures q in PermsOf(Written(db, r, p, grant), x) <==> if x == r && q == p then grant else q in PermsOf(db, x)
  {
  }

  function BumpTurn(w: World, a: AdminId): World
    requires a in w.writers
  {
    var r := w.writers[a].role;
    var mark := if w.writers[a].at > Last(w.marks, r) then w.writers[a].at else Last(w.marks, r);
    w.(roleVer := Bumped(w.roleVer, r), marks := w.marks[r := MarksOf(w.marks, r) + [mark]], writers := w.writers - {a})
  }

  function Forgotten(cache: map<string, Entry>, u: Id): map<string, Entry> {
    map k | k in cache && !Contains(k, UserPart(u)) :: cache[k]
  }

  function Advance(w: World, turn: Turn): (w': World)
    requires w.log != []
    ensures w'.log != []
  {
    match turn
    case Begin(c, user, scope, roles) =>
      if c in w.readers || !Plain(user) || !Plain(scope) || !PlainIds(roles) then w
      else SetReader(w, c, Reader(user, scope, roles, None, map[], Versions, Floors(w.marks, roles)))
    case ReadUserVersion(c) =>
      if c !in w.readers || w.readers[c].userVersion.Some? then w
      else
        var rd := w.readers[c];
        SetReader(w.(userVer := Touched(w.userVer, rd.user)), c, rd.(userVersion := Some(Ver(w.userVer, rd.user))))
    case ReadRoleVersion(c, r) =>
      if c !in w.readers || r !in w.readers[c].roles || r in w.readers[c].versions then w
      else
        var rd := w.readers[c];
        SetReader(w.(roleVer := Touched(w.roleVer, r)), c, rd.(versions := rd.versions[r := Ver(w.roleVer, r)]))
    case LookUp(c, now) =>
      if c in w.readers && w.readers[c].pc.Versions? && Stamped(w.readers[c]) then
        LookUpTurn(w, c, w.readers[c], now)
      else w
    case ReadTables(c) =>
      if c in w.readers && w.readers[c].pc.NeedsTables? then
        SetReader(w, c, w.readers[c].(pc := Filling(Union(Db(w), w.readers[c].roles), Now(w))))
      else w
    case Fill(c, now, ttl) =>
      if c in w.readers && w.readers[c].pc.Filling? && Stamped(w.readers[c]) then
        FillTurn(w, c, w.readers[c], now + ttl)
      else w
    case Abandon(c) => w.(readers := w.readers - {c})
    case Write(a, r, p, grant) =>
      if a in w.writers then w
      else w.(log := w.log + [Written(Db(w), r, p, grant)], writers := w.writers[a := Writer(r, |w.log|)])
    case BumpRole(a) => if a in w.writers then BumpTurn(w, a) else w
    case BumpUser(u) => w.(userVer := Bumped(w.userVer, u), cache := Forgotten(w.cache, u))
    case Evict(k) => w.(cache := w.cache - {k})
  }

  // ---------- the invariant ----------

  /** Versions count the marks, and marks are past moments in order. */
  ghost predicate MarksOk(w: World) {
    forall r :: RoleMarksOk(|w.log|, Ver(w.roleVer, r), MarksOf(w.marks, r))
  }

  ghost predicate RoleMarksOk(moments: nat, version: nat, m: seq<nat>) {
    && |m| == version && version >= 1
    && (forall i :: 0 <= i < |m| ==> m[i] < moments)
    && (forall i, j :: 0 <= i < j < |m| ==> m[i] <= m[j])
  }

  /** A moment is no earlier than what version `v` of role `r` stands for. */
  ghost predicate Covers(marks: map<Id, seq<nat>>, at: nat, r: Id, v: nat) {
    1 <= v <= |MarksOf(marks, r)| && MarksOf(marks, r)[v - 1] <= at
  }

  ghost predicate CoversAll(marks: map<Id, seq<nat>>, at: nat, pairs: seq<RoleVersion>) {
    forall i :: 0 <= i < |pairs| ==> Covers(marks, at, pairs[i].role, pairs[i].version)
  }

  ghost predicate ValueAt(log: seq<Tables>, value: set<Perm>, at: nat, roles: seq<Id>) {
    at < |log| && value == Union(log[at], roles)
  }

  ghost predicate EntryOk(log: seq<Tables>, marks: map<Id, seq<nat>>, k: string, e: Entry) {
    && Plain(e.origin.user) && Plain(e.origin.scope) && PlainRoles(e.origin.pairs)
    && k == KeyOf(e.origin) && CoversAll(marks, e.at, e.origin.pairs)
    && ValueAt(log, e.value, e.at, RolesOf(e.origin.pairs))
  }

  /** A version that was read stands for at least what was settled when the reader began. */
  ghost predicate VersionOk(marks: map<Id, seq<nat>>, rd: Reader, r: Id) {
    && (r in rd.roles ==> r in rd.floor && rd.floor[r] <= Last(marks, r))
    && (r in rd.versions ==> r in rd.roles && 1 <= rd.versions[r] <= |MarksOf(marks, r)|
                             && rd.floor[r] <= MarksOf(marks, r)[rd.versions[r] - 1])
  }

  ghost predicate ReaderOk(log: seq<Tables>, marks: map<Id, seq<nat>>, rd: Reader) {
    && Plain(rd.user) && Plain(rd.scope) && PlainIds(rd.roles)
    && (forall r :: VersionOk(marks, rd, r))
    && (!rd.pc.Versions? ==> Stamped(rd))
    && (rd.pc.Filling? ==>
          ValueAt(log, rd.pc.value, rd.pc.at, rd.roles) && CoversAll(marks, rd.pc.at, Pairs(rd.roles, rd.versions)))
    && (rd.pc.Returned? ==> Fresh(log, rd, rd.pc.value, rd.pc.at))
  }

  /** The answer of an expansion: what the tables said at one moment, no earlier than any
      administrator call that had completed when the expansion began. */
  ghost predicate Fresh(log: seq<Tables>, rd: Reader, value: set<Perm>, at: nat) {
    ValueAt(log, value, at, rd.roles) && forall r :: r in rd.roles ==> r in rd.floor && rd.floor[r] <= at
  }

  /** Every change of a role's permissions is stood for by its latest version, or belongs to a
      call that has not bumped yet. */
  ghost predicate ChangeKnown(w: World, j: nat, r: Id)
    requires 0 < j < |w.log|
  {
    PermsOf(w.log[j], r) != PermsOf(w.log[j - 1], r) ==>
      j <= Last(w.marks, r) || exists a :: a in w.writers && w.writers[a] == Writer(r, j)
  }

  ghost predicate ChangesKnown(w: World) {
    && (forall j, r :: 0 < j < |w.log| ==> ChangeKnown(w, j, r))
    && (forall a :: a in w.writers ==> w.writers[a].at < |w.log|)
  }

  ghost predicate Inv(w: World) {
    && w.log != [] && MarksOk(w) && ChangesKnown(w)
    && (forall k :: k in w.cache ==> EntryOk(w.log, w.marks, k, w.cache[k]))
    && (forall c :: c in w.readers ==> ReaderOk(w.log, w.marks, w.readers[c]))
  }

  // ---------- readers keep it ----------

  lemma SetReaderKeeps(w: World, c: ReaderId, rd: Reader)
    requires Inv(w) && ReaderOk(w.log, w.marks, rd)
    ensures Inv(SetReader(w, c, rd))
  {
    var w' := SetReader(w, c, rd);
    forall j, r | 0 < j < |w'.log| ensures ChangeKnown(w', j, r) { assert ChangeKnown(w, j, r); }
  }

  lemma TouchedSame(ver: map<Id, nat>, id: Id)
    ensures forall x :: Ver(Touched(ver, id), x) == Ver(ver, x)
  {
  }

  lemma TouchKeeps(w: World, userVer: map<Id, nat>, roleVer: map<Id, nat>)
    requires Inv(w) && forall r :: Ver(roleVer, r) == Ver(w.roleVer, r)
    ensures Inv(w.(userVer := userVer, roleVer := roleVer))
  {
    var w' := w.(userVer := userVer, roleVer := roleVer);
    forall j, r | 0 < j < |w'.log| ensures ChangeKnown(w', j, r) { assert ChangeKnown(w, j, r); }
    forall r ensures RoleMarksOk(|w'.log|, Ver(w'.roleVer, r), MarksOf(w'.marks, r)) {
      assert RoleMarksOk(|w.log|, Ver(w.roleVer, r), MarksOf(w.marks, r));
    }
  }

  lemma VersionRead(w: World, rd: Reader, r: Id)
    requires MarksOk(w) && ReaderOk(w.log, w.marks, rd) && r in rd.roles && r !in rd.versions
    ensures ReaderOk(w.log, w.marks, rd.(versions := rd.versions[r := Ver(w.roleVer, r)]))
  {
    var rd' := rd.(versions := rd.versions[r := Ver(w.roleVer, r)]);
    assert RoleMarksOk(|w.log|, Ver(w.roleVer, r), MarksOf(w.marks, r));
    forall x ensures VersionOk(w.marks, rd', x) { assert VersionOk(w.marks, rd, x); }
  }

  lemma ReadVersionKeeps(w: World, c: ReaderId, r: Id)
    requires Inv(w)
    ensures Inv(Advance(w, ReadRoleVersion(c, r)))
  {
    if c in w.readers && r in w.readers[c].roles && r !in w.readers[c].versions {
      var rd := w.readers[c];
      VersionRead(w, rd, r);
      TouchedSame(w.roleVer, r);
      TouchKeeps(w, w.userVer, Touched(w.roleVer, r));
      SetReaderKeeps(w.(roleVer := Touched(w.roleVer, r)), c, rd.(versions := rd.versions[r := Ver(w.roleVer, r)]));
    }
  }

  lemma UserVersionRead(log: seq<Tables>, marks: map<Id, seq<nat>>, rd: Reader, v: nat)
    requires ReaderOk(log, marks, rd) && rd.userVersion.None?
    ensures ReaderOk(log, marks, rd.(userVersion := Some(v)))
  {
    var rd' := rd.(userVersion := Some(v));
    forall x ensures VersionOk(marks, rd', x) { assert VersionOk(marks, rd, x); }
  }

  lemma ReadUserVersionKeeps(w: World, c: ReaderId)
    requires Inv(w)
    ensures Inv(Advance(w, ReadUserVersion(c)))
  {
    if c in w.readers && w.readers[c].userVersion.None? {
      var rd := w.readers[c];
      UserVersionRead(w.log, w.marks, rd, Ver(w.userVer, rd.user));
      TouchKeeps(w, Touched(w.userVer, rd.user), w.roleVer);
      SetReaderKeeps(w.(userVer := Touched(w.userVer, rd.user)), c, rd.(userVersion := Some(Ver(w.userVer, rd.user))));
    }
  }

  lemma BeginKeeps(w: World, c: ReaderId, user: Id, scope: Id, roles: seq<Id>)
    requires Inv(w)
    ensures Inv(Advance(w, Begin(c, user, scope, roles)))
  {
    if c !in w.readers && Plain(user) && Plain(scope) && PlainIds(roles) {
      SetReaderKeeps(w, c, Reader(user, scope, roles, None, map[], Versions, Floors(w.marks, roles)));
    }
  }

  /** Equal keys were built from equal stamps. */
  lemma KeyDeterminesOrigin(o: Origin, o': Origin)
    requires Plain(o.user) && Plain(o.scope) && PlainRoles(o.pairs)
    requires Plain(o'.user) && Plain(o'.scope) && PlainRoles(o'.pairs) && KeyOf(o) == KeyOf(o')
    ensures o == o'
  {
    PermKeyInjective(o.user, o.scope, Stamp(o.userVersion, o.pairs),
                     o'.user, o'.scope, Stamp(o'.userVersion, o'.pairs));
    StampInjective(o.userVersion, o.pairs, o'.userVersion, o'.pairs);
  }

  lemma RolesOfPairs(rd: Reader)
    requires Stamped(rd)
    ensures RolesOf(Pairs(rd.roles, rd.versions)) == rd.roles
  {
  }

  /** What covers every version read is no older than the floor. */
  lemma CoversFloor(log: seq<Tables>, marks: map<Id, seq<nat>>, rd: Reader, value: set<Perm>, at: nat)
    requires ReaderOk(log, marks, rd) && Stamped(rd) && ValueAt(log, value, at, rd.roles)
    requires CoversAll(marks, at, Pairs(rd.roles, rd.versions))
    ensures Fresh(log, rd, value, at) && ReaderOk(log, marks, rd.(pc := Returned(value, at)))
  {
    var pairs := Pairs(rd.roles, rd.versions);
    forall r | r in rd.roles ensures r in rd.floor && rd.floor[r] <= at {
      var i :| 0 <= i < |rd.roles| && rd.roles[i] == r;
      assert VersionOk(marks, rd, r) && Covers(marks, at, pairs[i].role, pairs[i].version);
    }
    var rd' := rd.(pc := Returned(value, at));
    forall x ensures VersionOk(marks, rd', x) { assert VersionOk(marks, rd, x); }
  }

  lemma HitIsFresh(log: seq<Tables>, marks: map<Id, seq<nat>>, k: string, e: Entry, rd: Reader)
    requires EntryOk(log, marks, k, e) && ReaderOk(log, marks, rd) && Stamped(rd) && k == KeyOf(OriginOf(rd))
    ensures ReaderOk(log, marks, rd.(pc := Returned(e.value, e.at)))
  {
    KeyDeterminesOrigin(e.origin, OriginOf(rd));
    RolesOfPairs(rd);
    CoversFloor(log, marks, rd, e.value, e.at);
  }

  lemma DropEntries(w: World, cache: map<string, Entry>, userVer: map<Id, nat>)
    requires Inv(w) && forall k :: k in cache ==> k in w.cache && cache[k] == w.cache[k]
    ensures Inv(w.(cache := cache, userVer := userVer))
  {
    var w' := w.(cache := cache, userVer := userVer);
    forall j, r | 0 < j < |w'.log| ensures ChangeKnown(w', j, r) { assert ChangeKnown(w, j, r); }
  }

  lemma PcKeeps(log: seq<Tables>, marks: map<Id, seq<nat>>, rd: Reader, pc: Pc)
    requires ReaderOk(log, marks, rd) && Stamped(rd) && !pc.Returned?
    requires pc.Filling? ==>
               ValueAt(log, pc.value, pc.at, rd.roles) && CoversAll(marks, pc.at, Pairs(rd.roles, rd.versions))
    ensures ReaderOk(log, marks, rd.(pc := pc))
  {
    var rd' := rd.(pc := pc);
    forall x ensures VersionOk(marks, rd', x) { assert VersionOk(marks, rd, x); }
  }

  lemma LookUpKeeps(w: World, c: ReaderId, now: Time)
    requires Inv(w)
    ensures Inv(Advance(w, LookUp(c, now)))
  {
    if c in w.readers && w.readers[c].pc.Versions? && Stamped(w.readers[c]) {
      var rd := w.readers[c];
      var k := KeyOf(OriginOf(rd));
      if k in w.cache && now <= w.cache[k].exp {
        HitIsFresh(w.log, w.marks, k, w.cache[k], rd);
        SetReaderKeeps(w, c, rd.(pc := Returned(w.cache[k].value, w.cache[k].at)));
      } else {
        MissKeeps(w, c, rd, k);
      }
    }
  }

  lemma MissKeeps(w: World, c: ReaderId, rd: Reader, k: string)
    requires Inv(w) && c in w.readers && rd == w.readers[c] && rd.pc.Versions? && Stamped(rd)
    ensures var pc := if rd.roles == [] then Filling({}, Now(w)) else NeedsTables;
            Inv(SetReader(w.(cache := w.cache - {k}), c, rd.(pc := pc)))
  {
    var pc := if rd.roles == [] then Filling({}, Now(w)) else NeedsTables;
    PcKeeps(w.log, w.marks, rd, pc);
    DropEntries(w, w.cache - {k}, w.userVer);
    SetReaderKeeps(w.(cache := w.cache - {k}), c, rd.(pc := pc));
  }

  /** The present covers every version. */
  lemma NowCovers(w: World, rd: Reader)
    requires w.log != [] && MarksOk(w) && ReaderOk(w.log, w.marks, rd) && Stamped(rd)
    ensures CoversAll(w.marks, Now(w), Pairs(rd.roles, rd.versions))
  {
    var pairs := Pairs(rd.roles, rd.versions);
    forall i | 0 <= i < |pairs| ensures Covers(w.marks, Now(w), pairs[i].role, pairs[i].version) {
      var r := rd.roles[i];
      assert VersionOk(w.marks, rd, r) && RoleMarksOk(|w.log|, Ver(w.roleVer, r), MarksOf(w.marks, r));
    }
  }

  lemma ReadTablesKeeps(w: World, c: ReaderId)
    requires Inv(w)
    ensures Inv(Advance(w, ReadTables(c)))
  {
    if c in w.readers && w.readers[c].pc.NeedsTables? {
      var rd := w.readers[c];
      NowCovers(w, rd);
      PcKeeps(w.log, w.marks, rd, Filling(Union(Db(w), rd.roles), Now(w)));
      SetReaderKeeps(w, c, rd.(pc := Filling(Union(Db(w), rd.roles), Now(w))));
    }
  }

  lemma PutKeeps(w: World, k: string, e: Entry)
    requires Inv(w) && EntryOk(w.log, w.marks, k, e)
    ensures Inv(w.(cache := w.cache[k := e]))
  {
    var w' := w.(cache := w.cache[k := e]);
    forall j, r | 0 < j < |w'.log| ensures ChangeKnown(w', j, r) { assert ChangeKnown(w, j, r); }
  }

  lemma FilledEntryOk(log: seq<Tables>, marks: map<Id, seq<nat>>, rd: Reader, exp: Time)
    requires ReaderOk(log, marks, rd) && Stamped(rd) && rd.pc.Filling?
    ensures var o := OriginOf(rd); EntryOk(log, marks, KeyOf(o), Entry(rd.pc.value, exp, rd.pc.at, o))
    ensures ReaderOk(log, marks, rd.(pc := Returned(rd.pc.value, rd.pc.at)))
  {
    RolesOfPairs(rd);
    CoversFloor(log, marks, rd, rd.pc.value, rd.pc.at);
  }

  lemma FillTurnKeeps(w: World, c: ReaderId, rd: Reader, exp: Time)
    requires Inv(w) && ReaderOk(w.log, w.marks, rd) && Stamped(rd) && rd.pc.Filling?
    ensures Inv(FillTurn(w, c, rd, exp))
  {
    var o := OriginOf(rd);
    var e := Entry(rd.pc.value, exp, rd.pc.at, o);
    FilledEntryOk(w.log, w.marks, rd, exp);
    PutKeeps(w, KeyOf(o), e);
    SetReaderKeeps(w.(cache := w.cache[KeyOf(o) := e]), c, rd.(pc := Returned(rd.pc.value, rd.pc.at)));
  }

  lemma FillKeeps(w: World, c: ReaderId, now: Time, ttl: nat)
    requires Inv(w)
    ensures Inv(Advance(w, Fill(c, now, ttl)))
  {
    if c in w.readers && w.readers[c].pc.Filling? && Stamped(w.readers[c]) {
      FillTurnKeeps(w, c, w.readers[c], now + ttl);
    }
  }

  // ---------- administrators keep it ----------

  lemma EntryLater(log: seq<Tables>, log': seq<Tables>, marks: map<Id, seq<nat>>, marks': map<Id, seq<nat>>,
        k: string, e: Entry)
    requires EntryOk(log, marks, k, e) && log <= log' && forall r :: MarksOf(marks, r) <= MarksOf(marks', r)
    ensures EntryOk(log', marks', k, e)
  {
    forall i | 0 <= i < |e.origin.pairs|
      ensures Covers(marks', e.at, e.origin.pairs[i].role, e.origin.pairs[i].version)
    {
      assert Covers(marks, e.at, e.origin.pairs[i].role, e.origin.pairs[i].version);
    }
  }

  lemma ReaderLater(log: seq<Tables>, log': seq<Tables>, marks: map<Id, seq<nat>>, marks': map<Id, seq<nat>>,
        rd: Reader)
    requires ReaderOk(log, marks, rd) && log <= log' && forall r :: MarksOf(marks, r) <= MarksOf(marks', r)
    requires forall r :: Last(marks, r) <= Last(marks', r)
    ensures ReaderOk(log', marks', rd)
  {
    forall x ensures VersionOk(marks', rd, x) { assert VersionOk(marks, rd, x); }
    if rd.pc.Filling? {
      var pairs, at := Pairs(rd.roles, rd.versions), rd.pc.at;
      forall i | 0 <= i < |pairs| ensures Covers(marks', at, pairs[i].role, pairs[i].version) {
        assert Covers(marks, at, pairs[i].role, pairs[i].version);
      }
    }
  }

  lemma WriteKeeps(w: World, a: AdminId, r: Id, p: Perm, grant: bool)
    requires Inv(w)
    ensures Inv(Advance(w, Write(a, r, p, grant)))
  {
    var w' := Advance(w, Write(a, r, p, grant));
    if a !in w.writers {
      assert w.log <= w'.log;
      forall k | k in w'.cache ensures EntryOk(w'.log, w'.marks, k, w'.cache[k]) {
        EntryLater(w.log, w'.log, w.marks, w.marks, k, w.cache[k]);
      }
      forall c | c in w'.readers ensures ReaderOk(w'.log, w'.marks, w'.readers[c]) {
        ReaderLater(w.log, w'.log, w.marks, w.marks, w.readers[c]);
      }
      WriteKnown(w, a, r, p, grant);
      WriteMarks(w, w');
    }
  }

  lemma WriteMarks(w: World, w': World)
    requires MarksOk(w) && w'.marks == w.marks && w'.roleVer == w.roleVer && |w.log| <= |w'.log|
    ensures MarksOk(w')
  {
    forall r ensures RoleMarksOk(|w'.log|, Ver(w'.roleVer, r), MarksOf(w'.marks, r)) {
      assert RoleMarksOk(|w.log|, Ver(w.roleVer, r), MarksOf(w.marks, r));
    }
  }

  lemma WriteKnown(w: World, a: AdminId, r: Id, p: Perm, grant: bool)
    requires w.log != [] && ChangesKnown(w) && a !in w.writers
    ensures ChangesKnown(Advance(w, Write(a, r, p, grant)))
  {
    var w' := Advance(w, Write(a, r, p, grant));
    forall j, x | 0 < j < |w'.log| ensures ChangeKnown(w', j, x) {
      if j < |w.log| {
        assert ChangeKnown(w, j, x);
        if b :| b in w.writers && w.writers[b] == Writer(x, j) { assert w'.writers[b] == Writer(x, j); }
      } else {
        assert w'.writers[a] == Writer(r, j);
      }
    }
  }

  lemma BumpMarks(w: World, a: AdminId)
    requires w.log != [] && MarksOk(w) && ChangesKnown(w) && a in w.writers
    ensures MarksOk(BumpTurn(w, a))
    ensures forall x ::
              && MarksOf(w.marks, x) <= MarksOf(BumpTurn(w, a).marks, x)
              && Last(w.marks, x) <= Last(BumpTurn(w, a).marks, x)
  {
    var w' := BumpTurn(w, a);
    forall x ensures RoleMarksOk(|w'.log|, Ver(w'.roleVer, x), MarksOf(w'.marks, x))
        && MarksOf(w.marks, x) <= MarksOf(w'.marks, x) && Last(w.marks, x) <= Last(w'.marks, x) {
      assert RoleMarksOk(|w.log|, Ver(w.roleVer, x), MarksOf(w.marks, x));
    }
  }

  lemma BumpKnown(w: World, a: AdminId)
    requires w.log != [] && ChangesKnown(w) && a in w.writers
    requires forall x :: Last(w.marks, x) <= Last(BumpTurn(w, a).marks, x)
    ensures ChangesKnown(BumpTurn(w, a))
  {
    var w' := BumpTurn(w, a);
    forall j, x | 0 < j < |w'.log| ensures ChangeKnown(w', j, x) {
      assert ChangeKnown(w, j, x);
      if b :| b in w.writers && w.writers[b] == Writer(x, j) {
        if b != a { assert w'.writers[b] == Writer(x, j); }
      }
    }
  }

  lemma BumpKeeps(w: World, a: AdminId)
    requires Inv(w)
    ensures Inv(Advance(w, BumpRole(a)))
  {
    if a in w.writers {
      var w' := BumpTurn(w, a);
      BumpMarks(w, a);
      BumpKnown(w, a);
      forall k | k in w'.cache ensures EntryOk(w'.log, w'.marks, k, w'.cache[k]) {
        EntryLater(w.log, w.log, w.marks, w'.marks, k, w.cache[k]);
      }
      forall c | c in w'.readers ensures ReaderOk(w'.log, w'.marks, w'.readers[c]) {
        ReaderLater(w.log, w.log, w.marks, w'.marks, w.readers[c]);
      }
    }
  }

  lemma AbandonKeeps(w: World, c: ReaderId)
    requires Inv(w)
    ensures Inv(Advance(w, Abandon(c)))
  {
    var w' := Advance(w, Abandon(c));
    forall j, r | 0 < j < |w'.log| ensures ChangeKnown(w', j, r) { assert ChangeKnown(w, j, r); }
  }

  lemma AdvanceKeeps(w: World, turn: Turn)
    requires Inv(w)
    ensures Inv(Advance(w, turn))
  {
    match turn
    case Begin(c, user, scope, roles) => BeginKeeps(w, c, user, scope, roles);
    case ReadUserVersion(c) => ReadUserVersionKeeps(w, c);
    case ReadRoleVersion(c, r) => ReadVersionKeeps(w, c, r);
    case LookUp(c, now) => LookUpKeeps(w, c, now);
    case ReadTables(c) => ReadTablesKeeps(w, c);
    case Fill(c, now, ttl) => FillKeeps(w, c, now, ttl);
    case Abandon(c) => AbandonKeeps(w, c);
    case Write(a, r, p, grant) => WriteKeeps(w, a, r, p, grant);
    case BumpRole(a) => BumpKeeps(w, a);
    case BumpUser(u) => DropEntries(w, Forgotten(w.cache, u), Bumped(w.userVer, u));
    case Evict(k) => DropEntries(w, w.cache - {k}, w.userVer);
  }

  function Schedule(w: World, turns: seq<Turn>): (w': World)
    requires w.log != []
    ensures w'.log != []
    decreases |turns|
  {
    if turns == [] then w else Schedule(Advance(w, turns[0]), turns[1..])
  }

  lemma {:induction false} ScheduleKeeps(w: World, turns: seq<Turn>)
    requires Inv(w)
    ensures Inv(Schedule(w, turns))
    decreases |turns|
  {
    if turns != [] {
      AdvanceKeeps(w, turns[0]);
      ScheduleKeeps(Advance(w, turns[0]), turns[1..]);
    }
  }

  function Initial(db: Tables): World { World([db], map[], map[], map[], map[], map[], map[]) }

  lemma InitialOk(db: Tables)
    ensures Inv(Initial(db))
  {
  }

  // ---------- what follows for every run ----------

  /** No administrator call sits between its write to `r` and its bump. */
  predicate Quiet(w: World, r: Id) { forall a :: a in w.writers ==> w.writers[a].role != r }

  /** The stamp's versions are the current ones. */
  predicate Current(w: World, pairs: seq<RoleVersion>) {
    forall i :: 0 <= i < |pairs| ==> pairs[i].version == Ver(w.roleVer, pairs[i].role)
  }

  /** Since the moment the latest version stands for, a quiet role has not changed. */
  lemma {:induction false} QuietUnchanged(w: World, r: Id, at: nat)
    requires Inv(w) && Quiet(w, r) && Last(w.marks, r) <= at < |w.log|
    ensures PermsOf(w.log[at], r) == PermsOf(Db(w), r)
    decreases |w.log| - at
  {
    if at < |w.log| - 1 {
      assert ChangeKnown(w, at + 1, r);
      QuietUnchanged(w, r, at + 1);
    }
  }

  lemma CoveredIsNow(w: World, pairs: seq<RoleVersion>, at: nat)
    requires Inv(w) && at < |w.log| && CoversAll(w.marks, at, pairs)
    requires Current(w, pairs) && forall r :: r in RolesOf(pairs) ==> Quiet(w, r)
    ensures Union(w.log[at], RolesOf(pairs)) == Union(Db(w), RolesOf(pairs))
  {
    forall r | r in RolesOf(pairs) ensures PermsOf(w.log[at], r) == PermsOf(Db(w), r) {
      var i :| 0 <= i < |pairs| && pairs[i].role == r;
      assert Covers(w.marks, at, pairs[i].role, pairs[i].version);
      assert RoleMarksOk(|w.log|, Ver(w.roleVer, r), MarksOf(w.marks, r));
      QuietUnchanged(w, r, at);
    }
    SameUnion(w.log[at], Db(w), RolesOf(pairs));
  }

  lemma CurrentEntry(w: World, o: Origin)
    requires Inv(w) && Plain(o.user) && Plain(o.scope) && PlainRoles(o.pairs) && KeyOf(o) in w.cache
    requires Current(w, o.pairs) && forall r :: r in RolesOf(o.pairs) ==> Quiet(w, r)
    ensures w.cache[KeyOf(o)].value == Union(Db(w), RolesOf(o.pairs))
  {
    var e := w.cache[KeyOf(o)];
    EntryOfOrigin(w.log, w.marks, e, o);
    CoveredIsNow(w, o.pairs, e.at);
  }

  lemma EntryOfOrigin(log: seq<Tables>, marks: map<Id, seq<nat>>, e: Entry, o: Origin)
    requires EntryOk(log, marks, KeyOf(o), e) && Plain(o.user) && Plain(o.scope) && PlainRoles(o.pairs)
    ensures CoversAll(marks, e.at, o.pairs) && ValueAt(log, e.value, e.at, RolesOf(o.pairs))
  {
    KeyDeterminesOrigin(e.origin, o);
  }

  /** In every interleaving: an entry under the current stamp of quiet roles holds exactly the
      permissions that the tables give these roles now. */
  lemma CurrentEntryMatchesTables(db: Tables, turns: seq<Turn>, o: Origin)
    requires var w := Schedule(Initial(db), turns);
             && Plain(o.user) && Plain(o.scope) && PlainRoles(o.pairs) && KeyOf(o) in w.cache
             && Current(w, o.pairs) && forall r :: r in RolesOf(o.pairs) ==> Quiet(w, r)
    ensures var w := Schedule(Initial(db), turns);
            w.cache[KeyOf(o)].value == Union(Db(w), RolesOf(o.pairs))
  {
    InitialOk(db);
    ScheduleKeeps(Initial(db), turns);
    CurrentEntry(Schedule(Initial(db), turns), o);
  }

  /** In every interleaving: what an expansion returns is what the tables gave its roles at one
      moment, at or after the write of every call that had completed when it began. */
  lemma AnswerIsFresh(db: Tables, turns: seq<Turn>, c: ReaderId)
    requires var w := Schedule(Initial(db), turns); c in w.readers && w.readers[c].pc.Returned?
    ensures var w := Schedule(Initial(db), turns);
            var rd := w.readers[c];
            Fresh(w.log, rd, rd.pc.value, rd.pc.at)
  {
    var w := Schedule(Initial(db), turns);
    InitialOk(db);
    ScheduleKeeps(Initial(db), turns);
    assert ReaderOk(w.log, w.marks, w.readers[c]);
  }

  lemma MarksStep(w: World, turn: Turn, r: Id)
    requires w.log != [] && MarksOk(w) && ChangesKnown(w)
    ensures Last(w.marks, r) <= Last(Advance(w, turn).marks, r)
  {
    if turn.BumpRole? && turn.a in w.writers { BumpMarks(w, turn.a); }
  }

  lemma {:induction false} MarksOnlyGrow(w: World, turns: seq<Turn>, r: Id)
    requires Inv(w)
    ensures Last(w.marks, r) <= Last(Schedule(w, turns).marks, r)
    decreases |turns|
  {
    if turns != [] {
      MarksStep(w, turns[0], r);
      AdvanceKeeps(w, turns[0]);
      MarksOnlyGrow(Advance(w, turns[0]), turns[1..], r);
    }
  }

  lemma FloorStays(w: World, turn: Turn, c: ReaderId)
    requires w.log != [] && c in w.readers && turn != Abandon(c)
    ensures var w' := Advance(w, turn);
            c in w'.readers && w'.readers[c].roles == w.readers[c].roles && w'.readers[c].floor == w.readers[c].floor
  {
    if turn.LookUp? || turn.Fill? {
      CacheTurnKeepsFloor(w, turn, c);
    } else if turn.Begin? || turn.ReadUserVersion? || turn.ReadRoleVersion? || turn.ReadTables? || turn.Abandon? {
      ReadTurnKeepsFloor(w, turn, c);
    } else {
      WriterKeepsReaders(w, turn);
    }
  }

  lemma WriterKeepsReaders(w: World, turn: Turn)
    requires w.log != [] && (turn.Write? || turn.BumpRole? || turn.BumpUser? || turn.Evict?)
    ensures Advance(w, turn).readers == w.readers
  {
  }

  lemma CacheTurnKeepsFloor(w: World, turn: Turn, c: ReaderId)
    requires w.log != [] && c in w.readers && (turn.LookUp? || turn.Fill?)
    ensures var w' := Advance(w, turn);
            c in w'.readers && w'.readers[c].roles == w.readers[c].roles && w'.readers[c].floor == w.readers[c].floor
  {
    var d := turn.c;
    if d in w.readers && Stamped(w.readers[d]) {
      if turn.LookUp? { LookUpMovesPc(w, d, w.readers[d], turn.now); }
      if turn.Fill? && w.readers[d].pc.Filling? { FillMovesPc(w, d, w.readers[d], turn.now + turn.ttl); }
    }
  }

  lemma LookUpMovesPc(w: World, c: ReaderId, rd: Reader, now: Time)
    requires Stamped(rd) && w.log != []
    ensures var w' := LookUpTurn(w, c, rd, now);
            c in w'.readers && w'.readers == w.readers[c := rd.(pc := w'.readers[c].pc)]
  {
  }

  lemma FillMovesPc(w: World, c: ReaderId, rd: Reader, exp: Time)
    requires Stamped(rd) && rd.pc.Filling?
    ensures var w' := FillTurn(w, c, rd, exp);
            c in w'.readers && w'.readers == w.readers[c := rd.(pc := w'.readers[c].pc)]
  {
  }

  lemma ReadTurnKeepsFloor(w: World, turn: Turn, c: ReaderId)
    requires w.log != [] && c in w.readers && turn != Abandon(c)
    requires turn.Begin? || turn.ReadUserVersion? || turn.ReadRoleVersion? || turn.ReadTables? || turn.Abandon?
    ensures var w' := Advance(w, turn);
            c in w'.readers && w'.readers[c].roles == w.readers[c].roles && w'.readers[c].floor == w.readers[c].floor
  {
    hide Floors, Union, Touched, Ver, PlainIds, LookUpTurn, FillTurn, BumpTurn, Forgotten;
  }

  lemma {:induction false} FloorPersists(w: World, turns: seq<Turn>, c: ReaderId)
    requires w.log != [] && c in w.readers && Abandon(c) !in turns
    ensures var w' := Schedule(w, turns);
            c in w'.readers && w'.readers[c].roles == w.readers[c].roles && w'.readers[c].floor == w.readers[c].floor
    decreases |turns|
  {
    if turns != [] {
      assert turns[0] in turns;
      FloorStays(w, turns[0], c);
      FloorPersists(Advance(w, turns[0]), turns[1..], c);
    }
  }

  lemma FloorIsMet(w: World, post: seq<Turn>, c: ReaderId, r: Id)
    requires Inv(w) && c in w.readers && r in w.readers[c].roles && Abandon(c) !in post
    ensures var w' := Schedule(w, post);
            && c in w'.readers && r in w.readers[c].floor
            && (w'.readers[c].pc.Returned? ==>
                  && w.readers[c].floor[r] <= w'.readers[c].pc.at
                  && ValueAt(w'.log, w'.readers[c].pc.value, w'.readers[c].pc.at, w.readers[c].roles))
  {
    FloorPersists(w, post, c);
    ScheduleKeeps(w, post);
    var w' := Schedule(w, post);
    assert ReaderOk(w'.log, w'.marks, w'.readers[c]);
    assert VersionOk(w.marks, w.readers[c], r);
  }

  lemma BeginSees(w0: World, a: AdminId, mid: seq<Turn>, begin: Turn)
    requires Inv(w0) && a in w0.writers && begin.Begin? && w0.writers[a].role in begin.roles
    requires var w1 := Schedule(Advance(w0, BumpRole(a)), mid);
             begin.c !in w1.readers && Plain(begin.user) && Plain(begin.scope) && PlainIds(begin.roles)
    ensures var w := Advance(Schedule(Advance(w0, BumpRole(a)), mid), begin);
            && Inv(w) && begin.c in w.readers && w.readers[begin.c].roles == begin.roles
            && w0.writers[a].role in w.readers[begin.c].floor
            && w0.writers[a].at <= w.readers[begin.c].floor[w0.writers[a].role]
  {
    var w1 := BumpSettles(w0, a);
    MarksOnlyGrow(w1, mid, w0.writers[a].role);
    ScheduleKeeps(w1, mid);
    BeginTakesFloor(Schedule(w1, mid), begin, w0.writers[a].role);
  }

  lemma BumpSettles(w: World, a: AdminId) returns (w': World)
    requires Inv(w) && a in w.writers
    ensures w' == Advance(w, BumpRole(a)) && Inv(w') && w.writers[a].at <= Last(w'.marks, w.writers[a].role)
  {
    w' := Advance(w, BumpRole(a));
    AdvanceKeeps(w, BumpRole(a));
  }

  lemma BeginTakesFloor(w: World, begin: Turn, r: Id)
    requires Inv(w) && begin.Begin? && r in begin.roles
    requires begin.c !in w.readers && Plain(begin.user) && Plain(begin.scope) && PlainIds(begin.roles)
    ensures var w' := Advance(w, begin);
            && Inv(w') && begin.c in w'.readers && w'.readers[begin.c].roles == begin.roles
            && r in w'.readers[begin.c].floor && w'.readers[begin.c].floor[r] == Last(w.marks, r)
  {
    AdvanceKeeps(w, begin);
  }

  /** From any reachable state: a call that bumps before an expansion begins is visible to it.
      The moment the answer comes from is not before the call's write, whatever happens
      between the bump and the beginning (`mid`) and after it (`post`). */
  lemma CompletedCallIsSeen(w0: World, a: AdminId, mid: seq<Turn>, begin: Turn, post: seq<Turn>)
    requires Inv(w0) && a in w0.writers && begin.Begin? && w0.writers[a].role in begin.roles
    requires Abandon(begin.c) !in post
    requires var w1 := Schedule(Advance(w0, BumpRole(a)), mid);
             begin.c !in w1.readers && Plain(begin.user) && Plain(begin.scope) && PlainIds(begin.roles)
    ensures var w := Schedule(Advance(Schedule(Advance(w0, BumpRole(a)), mid), begin), post);
            && begin.c in w.readers
            && (w.readers[begin.c].pc.Returned? ==>
                  && w0.writers[a].at <= w.readers[begin.c].pc.at
                  && ValueAt(w.log, w.readers[begin.c].pc.value, w.readers[begin.c].pc.at, begin.roles))
  {
    BeginSees(w0, a, mid, begin);
    FloorIsMet(Advance(Schedule(Advance(w0, BumpRole(a)), mid), begin), post, begin.c, w0.writers[a].role);
  }

  /** After a user's bump no entry of that user is left. */
  lemma BumpForgetsUser(w: World, u: Id, scope: Id, stamp: string)
    requires w.log != []
    ensures PermKey(u, scope, stamp) !in Advance(w, BumpUser(u)).cache
  {
    KeyContainsUser(u, scope, stamp);
  }
}
