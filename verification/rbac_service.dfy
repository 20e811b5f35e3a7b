/** The services around the permission cache: requirement checks with access lists, the cache
    object with its counters, the expansion of a user's roles, and the administrator calls. */
module RbacService {
  import opened Common
  import opened RbacKeys
  import opened Sorting
  import R = Rbac

  // ---------- requirement strings ----------

  function LowerChar(c: char): char { if 'A' <= c <= 'Z' then c - 'A' + 'a' else c }

  const CAPITALS := "ABCDEFGHIJKLMNOPQRSTUVWXYZ"
  const SMALL := "abcdefghijklmnopqrstuvwxyz"

  lemma LowerCharIs(i: nat, c: char)
    requires i < 26
    ensures LowerChar(CAPITALS[i]) == SMALL[i]
    ensures c < 'A' || 'Z' < c ==> LowerChar(c) == c
  {
  }

  function Lower(s: string): (r: string)
    ensures |r| == |s| && forall i :: 0 <= i < |s| ==> r[i] == LowerChar(s[i])
  {
    if s == "" then "" else [LowerChar(s[0])] + Lower(s[1..])
  }

  /** The text up to the first colon, and what follows that colon. */
  function Head(s: string): string { if s == "" || s[0] == ':' then "" else [s[0]] + Head(s[1..]) }

  function Tail(s: string): string { if s == "" then "" else if s[0] == ':' then s[1..] else Tail(s[1..]) }

  datatype Requirement = Requirement(subject: string, action: string)

  function Key(subject: string, action: string): string { Lower(subject) + ":" + Lower(action) }

  /** The first two parts of a requirement, in lower case; a missing part is empty. */
  function Parse(needed: string): Requirement { Requirement(Lower(Head(needed)), Lower(Head(Tail(needed)))) }

  function ReqKey(r: Requirement): string { r.subject + ":" + r.action }

  lemma {:induction false} HeadTail(a: string, b: string)
    requires ':' !in a
    ensures Head(a + ":" + b) == a && Tail(a + ":" + b) == b
  {
    if a == "" {
      assert a + ":" + b == ":" + b && (":" + b)[1..] == b;
    } else {
      HeadTail(a[1..], b);
      assert (a + ":" + b)[1..] == a[1..] + ":" + b && (a + ":" + b)[0] == a[0];
    }
  }

  lemma {:induction false} HeadAlone(a: string)
    requires ':' !in a
    ensures Head(a) == a
  {
    if a != "" { HeadAlone(a[1..]); }
  }

  lemma {:induction false} HeadPlain(s: string)
    ensures ':' !in Head(s)
  {
    if s != "" && s[0] != ':' { HeadPlain(s[1..]); }
  }

  lemma LowerTwice(s: string)
    ensures Lower(Lower(s)) == Lower(s)
  {
  }

  lemma LowerPlain(s: string)
    requires ':' !in s
    ensures ':' !in Lower(s)
  {
  }

  /** The key that a check builds from a requirement splits back into its two parts, so the
      second normalisation inside the match changes nothing. */
  lemma KeyParses(needed: string)
    ensures Parse(ReqKey(Parse(needed))) == Parse(needed)
  {
    var r := Parse(needed);
    HeadPlain(needed);
    HeadPlain(Tail(needed));
    LowerPlain(Head(needed));
    LowerPlain(Head(Tail(needed)));
    HeadTail(r.subject, r.action);
    HeadAlone(r.action);
    LowerTwice(Head(needed));
    LowerTwice(Head(Tail(needed)));
  }

  /** Four ways to own a requirement. */
  predicate Owns(owned: set<string>, r: Requirement) {
    || r.subject + ":" + r.action in owned
    || r.subject + ":manage" in owned
    || "*:" + r.action in owned
    || "manage:*" in owned
  }

  predicate Match(key: string, owned: set<string>) { Owns(owned, Parse(key)) }

  // ---------- access lists ----------

  datatype Effect = Allow | Deny
  datatype AclRow = AclRow(user: Id, resourceType: string, resourceId: Id, action: string, effect: Effect)
  datatype Resource = Resource(kind: string, id: Id)

  predicate About(row: AclRow, user: Id, res: Resource) {
    row.user == user && row.resourceType == res.kind && row.resourceId == res.id
  }

  function KeysOf(rows: seq<AclRow>, user: Id, res: Resource, effect: Effect): set<string> {
    set row | row in rows && About(row, user, res) && row.effect == effect :: Key(row.resourceType, row.action)
  }

  /** The upsert of a grant: kind and action are stored in lower case, one row for each. */
  function Granted(rows: seq<AclRow>, user: Id, res: Resource, action: string, effect: Effect): seq<AclRow> {
    Revoked(rows, user, res, action) + [AclRow(user, Lower(res.kind), res.id, Lower(action), effect)]
  }

  function Revoked(rows: seq<AclRow>, user: Id, res: Resource, action: string): seq<AclRow> {
    if rows == [] then []
    else
      var r := rows[0];
      (if r.user == user && r.resourceType == Lower(res.kind) && r.resourceId == res.id && r.action == Lower(action)
       then [] else [r]) + Revoked(rows[1..], user, res, action)
  }

  /** A revocation drops the rows of that user, kind, resource and action, whatever their effect. */
  lemma {:induction false} RevokedAre(rows: seq<AclRow>, user: Id, res: Resource, action: string, row: AclRow)
    ensures row in Revoked(rows, user, res, action) <==>
              && row in rows
              && !(row.user == user && row.resourceType == Lower(res.kind) && row.resourceId == res.id
                   && row.action == Lower(action))
  {
    if rows != [] {
      RevokedAre(rows[1..], user, res, action, row);
      assert rows == [rows[0]] + rows[1..];
    }
  }

  /** After a grant there is one row for that user, kind, resource and action, with its effect, and
      every other row is as before. */
  lemma GrantedAre(rows: seq<AclRow>, user: Id, res: Resource, action: string, effect: Effect, row: AclRow)
    ensures row in Granted(rows, user, res, action, effect) <==>
              if row.user == user && row.resourceType == Lower(res.kind) && row.resourceId == res.id
                 && row.action == Lower(action) then row.effect == effect
              else row in rows
  {
    RevokedAre(rows, user, res, action, row);
  }

  /** Rows are stored under the lower-case kind but looked up under the kind as given: a new
      deny takes effect on a check of the same resource exactly when the kind is in lower
      case already. */
  lemma DenyTakesEffectIff(rows: seq<AclRow>, user: Id, res: Resource, action: string)
    requires Key(res.kind, action) !in KeysOf(rows, user, res, Deny)
    ensures Key(res.kind, action) in KeysOf(Granted(rows, user, res, action, Deny), user, res, Deny)
            <==> Lower(res.kind) == res.kind
  {
    var rows' := Granted(rows, user, res, action, Deny);
    var row := AclRow(user, Lower(res.kind), res.id, Lower(action), Deny);
    LowerTwice(res.kind);
    LowerTwice(action);
    assert Key(row.resourceType, row.action) == Key(res.kind, action) && row in rows';
    if Lower(res.kind) == res.kind { assert About(row, user, res); }
    if Key(res.kind, action) in KeysOf(rows', user, res, Deny) {
      var x :| x in rows' && About(x, user, res) && x.effect == Deny
        && Key(x.resourceType, x.action) == Key(res.kind, action);
      RevokedAre(rows, user, res, action, x);
      assert x == row;
    }
  }

  lemma LowerProperty()
    ensures Lower("Property") == Lower("property") == "property" && Lower("user") == "user" && Lower("read") == "read"
  {
    assert Lower("Property") == "property";
  }

  lemma StoredForProperty(user: Id, id: Id)
    ensures var rows := Granted([], user, Resource("Property", id), "read", Deny);
            && Key("property", "read") in KeysOf(rows, user, Resource("property", id), Deny)
            && KeysOf(rows, user, Resource("Property", id), Deny) == {}
  {
    var rows := Granted([], user, Resource("Property", id), "read", Deny);
    LowerProperty();
    assert rows == [AclRow(user, "property", id, "read", Deny)];
    assert About(rows[0], user, Resource("property", id)) && rows[0] in rows;
  }

  lemma KeyParts(subject: string, action: string)
    requires ':' !in subject && ':' !in action
    ensures Parse(Key(subject, action)) == Requirement(Lower(subject), Lower(action))
  {
    LowerPlain(subject);
    LowerPlain(action);
    LowerTwice(subject);
    LowerTwice(action);
    HeadTail(Lower(subject), Lower(action));
    HeadAlone(Lower(action));
  }

  lemma ManagerMay(subject: string, action: string)
    requires ':' !in subject && ':' !in action
    ensures Match(Key(subject, action), {Lower(subject) + ":manage"})
  {
    KeyParts(subject, action);
  }

  lemma PlainWords()
    ensures ':' !in "property" && ':' !in "user" && ':' !in "read"
  {
  }

  /** With one row that denies one requirement to a user who may manage the subject. */
  lemma OneDeny(key: string, owned: set<string>, found: set<string>)
    requires Match(key, owned) && key in found
    ensures Failing([key], owned, {}) == [] && Failing([key], owned, found) != []
  {
    NoneFailing([key], owned, {});
    DenyWins([key], key, owned, found);
  }

  /** The guard asks with the kind "Property": a deny granted for a property is stored and never
      found, so a user who may manage properties still passes; asked for as "property" it fails. */
  lemma DenyForPropertyMissed(user: Id, id: Id)
    ensures var key, owned := Key("property", "read"), {Lower("property") + ":manage"};
            var rows := Granted([], user, Resource("Property", id), "read", Deny);
            && Failing([key], owned, KeysOf(rows, user, Resource("Property", id), Deny)) == []
            && Failing([key], owned, KeysOf(rows, user, Resource("property", id), Deny)) != []
  {
    var rows := Granted([], user, Resource("Property", id), "read", Deny);
    StoredForProperty(user, id);
    PlainWords();
    ManagerMay("property", "read");
    OneDeny(Key("property", "read"), {Lower("property") + ":manage"},
            KeysOf(rows, user, Resource("property", id), Deny));
  }

  function Boost(user: Id, res: Resource, hosts: map<Id, Id>): set<string> {
    if Lower(res.kind) == "property" && res.id in hosts && hosts[res.id] == user then {"property:manage"}
    else if Lower(res.kind) == "user" && res.id == user then {"user:manage"}
    else {}
  }

  /** What a check decides: a requirement fails when it is denied, or owned in none of the ways. */
  predicate Fails(key: string, owned: set<string>, denies: set<string>) { key in denies || !Match(key, owned) }

  function Failing(keys: seq<string>, owned: set<string>, denies: set<string>): seq<string> {
    if keys == [] then []
    else
      var n := |keys| - 1;
      Failing(keys[..n], owned, denies) + if Fails(keys[n], owned, denies) then [keys[n]] else []
  }

  lemma {:induction false} NoneFailing(keys: seq<string>, owned: set<string>, denies: set<string>)
    ensures Failing(keys, owned, denies) == [] <==> forall k :: k in keys ==> !Fails(k, owned, denies)
  {
    if keys != [] {
      var n := |keys| - 1;
      NoneFailing(keys[..n], owned, denies);
      assert keys == keys[..n] + [keys[n]];
    }
  }

  /** The failing keys are those of the first part, then those of the second; of one key it is
      that key, if it is denied or owned in none of the ways. */
  lemma {:induction false} FailingInOrder(a: seq<string>, b: seq<string>, key: string,
                                          owned: set<string>, denies: set<string>)
    ensures Failing(a + b, owned, denies) == Failing(a, owned, denies) + Failing(b, owned, denies)
    ensures Failing([key], owned, denies) == if key in denies || !Match(key, owned) then [key] else []
    decreases |b|
  {
    assert [key][..0] == [];
    if b == [] {
      assert a + b == a;
    } else {
      var n := |b| - 1;
      FailingInOrder(a, b[..n], key, owned, denies);
      assert (a + b)[..|a + b| - 1] == a + b[..n];
    }
  }

  /** Denies win: with a key denied, no role, boost or allow row lets the check pass. */
  lemma DenyWins(keys: seq<string>, key: string, owned: set<string>, denies: set<string>)
    requires key in keys && key in denies
    ensures Failing(keys, owned, denies) != []
  {
    NoneFailing(keys, owned, denies);
    assert Fails(key, owned, denies);
  }

  // ---------- roles in effect, and the sort ----------

  datatype Assignment = Assignment(user: Id, role: Id, effectiveAt: Option<R.Time>, expiresAt: Option<R.Time>)

  predicate InEffect(a: Assignment, user: Id, now: R.Time) {
    && a.user == user
    && (a.effectiveAt.None? || a.effectiveAt.value <= now)
    && (a.expiresAt.None? || now < a.expiresAt.value)
  }

  function ActiveRoles(rows: seq<Assignment>, user: Id, now: R.Time): seq<Id> {
    if rows == [] then []
    else
      var n := |rows| - 1;
      ActiveRoles(rows[..n], user, now) + if InEffect(rows[n], user, now) then [rows[n].role] else []
  }

  lemma {:induction false} ActiveRolesMembers(rows: seq<Assignment>, user: Id, now: R.Time, r: Id)
    ensures r in ActiveRoles(rows, user, now) <==> exists a :: a in rows && InEffect(a, user, now) && a.role == r
  {
    if rows != [] {
      var n := |rows| - 1;
      ActiveRolesMembers(rows[..n], user, now, r);
      assert rows == rows[..n] + [rows[n]];
      if a :| a in rows && InEffect(a, user, now) && a.role == r { if a != rows[n] { assert a in rows[..n]; } }
    }
  }

  // ---------- who may do what ----------

  /** Everything a user owns for a resource, and what is denied there. */
  function OwnedBy(tables: R.Tables, rows: seq<Assignment>, hosts: map<Id, Id>, acl: seq<AclRow>,
                   user: Id, res: Option<Resource>, now: R.Time): set<string>
  {
    R.Union(tables, ActiveRoles(rows, user, now))
    + match res case None => {} case Some(x) => Boost(user, x, hosts) + KeysOf(acl, user, x, Allow)
  }

  function DeniedBy(acl: seq<AclRow>, user: Id, res: Option<Resource>): set<string> {
    match res case None => {} case Some(x) => KeysOf(acl, user, x, Deny)
  }

  /** One requirement passes. */
  predicate May(tables: R.Tables, rows: seq<Assignment>, hosts: map<Id, Id>, acl: seq<AclRow>,
                user: Id, res: Option<Resource>, now: R.Time, needed: string)
  {
    && ReqKey(Parse(needed)) !in DeniedBy(acl, user, res)
    && Owns(OwnedBy(tables, rows, hosts, acl, user, res, now), Parse(needed))
  }

  lemma PartsOf(subject: string, action: string)
    requires ':' !in subject && ':' !in action
    ensures Parse(subject + ":" + action) == Requirement(Lower(subject), Lower(action))
    ensures ReqKey(Parse(subject + ":" + action)) == Lower(subject) + ":" + Lower(action)
  {
    HeadTail(subject, action);
    HeadAlone(action);
  }

  /** A permission in a role's set is owned exactly through an assignment that has begun and not ended. */
  lemma ByRoleIff(tables: R.Tables, rows: seq<Assignment>, user: Id, now: R.Time, key: string)
    ensures key in R.Union(tables, ActiveRoles(rows, user, now)) <==>
              exists x :: x in rows && x.user == user && x.role in tables && key in tables[x.role]
                          && (x.effectiveAt == None || x.effectiveAt.value <= now)
                          && (x.expiresAt == None || now < x.expiresAt.value)
  {
    var ids := ActiveRoles(rows, user, now);
    if key in R.Union(tables, ids) {
      var r :| r in ids && key in R.PermsOf(tables, r);
      ActiveRolesMembers(rows, user, now, r);
      var x :| x in rows && InEffect(x, user, now) && x.role == r;
      assert x.user == user && x.role in tables && key in tables[x.role];
    }
    forall x | x in rows && InEffect(x, user, now) && x.role in tables && key in tables[x.role]
      ensures key in R.Union(tables, ids)
    {
      ActiveRolesMembers(rows, user, now, x.role);
      assert x.role in ids && key in R.PermsOf(tables, x.role);
    }
  }

  lemma OwnedIff(tables: R.Tables, rows: seq<Assignment>, hosts: map<Id, Id>, acl: seq<AclRow>,
                 user: Id, res: Option<Resource>, now: R.Time, key: string)
    ensures key in OwnedBy(tables, rows, hosts, acl, user, res, now) <==>
              || (exists x :: x in rows && x.user == user && x.role in tables && key in tables[x.role]
                              && (x.effectiveAt == None || x.effectiveAt.value <= now)
                              && (x.expiresAt == None || now < x.expiresAt.value))
              || (exists r :: r in acl && r.user == user && r.effect == Allow
                              && res == Some(Resource(r.resourceType, r.resourceId))
                              && key == Lower(r.resourceType) + ":" + Lower(r.action))
              || (res.Some? && Lower(res.value.kind) == "property" && key == "property:manage"
                  && res.value.id in hosts && hosts[res.value.id] == user)
              || (res.Some? && Lower(res.value.kind) == "user" && key == "user:manage" && res.value.id == user)
  {
    ByRoleIff(tables, rows, user, now, key);
  }

  lemma DeniedIff(acl: seq<AclRow>, user: Id, res: Option<Resource>, key: string)
    ensures key in DeniedBy(acl, user, res) <==>
              exists r :: r in acl && r.user == user && r.effect == Deny
                          && res == Some(Resource(r.resourceType, r.resourceId))
                          && key == Lower(r.resourceType) + ":" + Lower(r.action)
  {
  }

  /** Which held permission lets which requirement pass: a requirement on `subject:action` passes
      exactly when no deny row of the resource names it and one of four keys is owned, by a role
      assigned and in effect, by an allow row of the resource, or by ownership of it. */
  lemma MayIff(tables: R.Tables, rows: seq<Assignment>, hosts: map<Id, Id>, acl: seq<AclRow>,
               user: Id, res: Option<Resource>, now: R.Time, subject: string, action: string)
    requires ':' !in subject && ':' !in action
    ensures var s, a := Lower(subject), Lower(action);
            var owned := OwnedBy(tables, rows, hosts, acl, user, res, now);
            May(tables, rows, hosts, acl, user, res, now, subject + ":" + action) <==>
              && s + ":" + a !in DeniedBy(acl, user, res)
              && (s + ":" + a in owned || s + ":manage" in owned || "*:" + a in owned || "manage:*" in owned)
  {
    PartsOf(subject, action);
  }

  /** A holder passes: one assignment in effect, to a role with one of the four permissions. */
  lemma HolderPasses(tables: R.Tables, rows: seq<Assignment>, hosts: map<Id, Id>, acl: seq<AclRow>,
                     res: Option<Resource>, now: R.Time, subject: string, action: string, x: Assignment, key: string)
    requires ':' !in subject && ':' !in action
    requires Lower(subject) + ":" + Lower(action) !in DeniedBy(acl, x.user, res)
    requires x in rows && x.role in tables && key in tables[x.role]
    requires (x.effectiveAt == None || x.effectiveAt.value <= now) && (x.expiresAt == None || now < x.expiresAt.value)
    requires || key == Lower(subject) + ":" + Lower(action) || key == Lower(subject) + ":manage"
             || key == "*:" + Lower(action) || key == "manage:*"
    ensures May(tables, rows, hosts, acl, x.user, res, now, subject + ":" + action)
  {
    MayIff(tables, rows, hosts, acl, x.user, res, now, subject, action);
    OwnedIff(tables, rows, hosts, acl, x.user, res, now, key);
  }

  /** Without a resource there is no other way. */
  lemma OnlyHoldersPass(tables: R.Tables, rows: seq<Assignment>, hosts: map<Id, Id>, acl: seq<AclRow>,
                        user: Id, now: R.Time, subject: string, action: string) returns (x: Assignment, key: string)
    requires ':' !in subject && ':' !in action
    requires May(tables, rows, hosts, acl, user, None, now, subject + ":" + action)
    ensures x in rows && x.user == user && x.role in tables && key in tables[x.role]
    ensures (x.effectiveAt == None || x.effectiveAt.value <= now) && (x.expiresAt == None || now < x.expiresAt.value)
    ensures || key == Lower(subject) + ":" + Lower(action) || key == Lower(subject) + ":manage"
            || key == "*:" + Lower(action) || key == "manage:*"
  {
    var owned := OwnedBy(tables, rows, hosts, acl, user, None, now);
    MayIff(tables, rows, hosts, acl, user, None, now, subject, action);
    key := if Lower(subject) + ":" + Lower(action) in owned then Lower(subject) + ":" + Lower(action)
           else if Lower(subject) + ":manage" in owned then Lower(subject) + ":manage"
           else if "*:" + Lower(action) in owned then "*:" + Lower(action) else "manage:*";
    OwnedIff(tables, rows, hosts, acl, user, None, now, key);
    x :| x in rows && x.user == user && x.role in tables && key in tables[x.role]
         && (x.effectiveAt == None || x.effectiveAt.value <= now) && (x.expiresAt == None || now < x.expiresAt.value);
  }

  /** What its owner without any role owns for a resource begins like its kind. */
  lemma OwnedLikeKind(tables: R.Tables, rows: seq<Assignment>, hosts: map<Id, Id>, acl: seq<AclRow>,
                      user: Id, res: Resource, now: R.Time, key: string)
    requires (forall x :: x in rows ==> x.user != user) && Lower(res.kind) != ""
    requires key in OwnedBy(tables, rows, hosts, acl, user, Some(res), now)
    ensures key != "" && key[0] == Lower(res.kind)[0]
  {
    OwnedIff(tables, rows, hosts, acl, user, Some(res), now, key);
  }

  lemma OtherKindRefused(tables: R.Tables, rows: seq<Assignment>, hosts: map<Id, Id>, acl: seq<AclRow>,
                         user: Id, res: Resource, now: R.Time, subject: string, action: string)
    requires (forall x :: x in rows ==> x.user != user) && Lower(res.kind) in {"property", "user"}
    requires ':' !in subject && ':' !in action && Lower(subject) != "" && Lower(subject)[0] != Lower(res.kind)[0]
    ensures !May(tables, rows, hosts, acl, user, Some(res), now, subject + ":" + action)
  {
    var owned, s, a := OwnedBy(tables, rows, hosts, acl, user, Some(res), now), Lower(subject), Lower(action);
    MayIff(tables, rows, hosts, acl, user, Some(res), now, subject, action);
    assert (s + ":" + a)[0] == s[0] && (s + ":manage")[0] == s[0] && ("*:" + a)[0] == '*' && "manage:*"[0] == 'm';
    forall key | key in owned ensures key != "" && key[0] == Lower(res.kind)[0] {
      OwnedLikeKind(tables, rows, hosts, acl, user, res, now, key);
    }
  }

  lemma OwnKindPasses(tables: R.Tables, rows: seq<Assignment>, hosts: map<Id, Id>, acl: seq<AclRow>,
                      user: Id, res: Resource, now: R.Time, own: string, action: string)
    requires ':' !in own && ':' !in action && Lower(own) == own
    requires own + ":manage" in OwnedBy(tables, rows, hosts, acl, user, Some(res), now)
    ensures May(tables, rows, hosts, acl, user, Some(res), now, own + ":" + action)
            <==> own + ":" + Lower(action) !in DeniedBy(acl, user, Some(res))
  {
    MayIff(tables, rows, hosts, acl, user, Some(res), now, own, action);
  }

  lemma ManageWords()
    ensures "property" + ":manage" == "property:manage" && "user" + ":manage" == "user:manage"
    ensures "property"[0] == 'p' && "user"[0] == 'u'
  {
  }

  /** The host of a property, without any role, passes on it whatever is not denied there about
      properties, and nothing about users. */
  lemma HostMay(tables: R.Tables, rows: seq<Assignment>, hosts: map<Id, Id>, acl: seq<AclRow>,
                user: Id, res: Resource, now: R.Time, action: string)
    requires ':' !in action && forall x :: x in rows ==> x.user != user
    requires Lower(res.kind) == "property" && res.id in hosts && hosts[res.id] == user
    ensures May(tables, rows, hosts, acl, user, Some(res), now, "property" + ":" + action)
            <==> "property" + ":" + Lower(action) !in DeniedBy(acl, user, Some(res))
    ensures !May(tables, rows, hosts, acl, user, Some(res), now, "user" + ":" + action)
  {
    PlainWords();
    LowerProperty();
    ManageWords();
    OwnedIff(tables, rows, hosts, acl, user, Some(res), now, "property:manage");
    OwnKindPasses(tables, rows, hosts, acl, user, res, now, "property", action);
    OtherKindRefused(tables, rows, hosts, acl, user, res, now, "user", action);
  }

  /** And a user on itself, the other way round. */
  lemma SelfMay(tables: R.Tables, rows: seq<Assignment>, hosts: map<Id, Id>, acl: seq<AclRow>,
                user: Id, res: Resource, now: R.Time, action: string)
    requires ':' !in action && forall x :: x in rows ==> x.user != user
    requires Lower(res.kind) == "user" && res.id == user
    ensures May(tables, rows, hosts, acl, user, Some(res), now, "user" + ":" + action)
            <==> "user" + ":" + Lower(action) !in DeniedBy(acl, user, Some(res))
    ensures !May(tables, rows, hosts, acl, user, Some(res), now, "property" + ":" + action)
  {
    PlainWords();
    LowerProperty();
    ManageWords();
    OwnedIff(tables, rows, hosts, acl, user, Some(res), now, "user:manage");
    OwnKindPasses(tables, rows, hosts, acl, user, res, now, "user", action);
    OtherKindRefused(tables, rows, hosts, acl, user, res, now, "property", action);
  }

  /** The sort of a stamp compares role ids, in whatever way `le` does. */
  function ByRole(le: Order<Id>): Order<RoleVersion> { (p: RoleVersion, q: RoleVersion) => le(p.role, q.role) }

  ghost predicate DistinctRoles(pairs: seq<RoleVersion>) {
    forall i, j :: 0 <= i < j < |pairs| ==> pairs[i].role != pairs[j].role
  }

  lemma SameRolePlace(pairs: seq<RoleVersion>, i: nat, j: nat)
    requires DistinctRoles(pairs) && i < |pairs| && j < |pairs| && pairs[i].role == pairs[j].role
    ensures i == j
  {
  }

  /** The stamp does not depend on the order in which the rows were read, as long as the
      comparison tells the role ids apart. */
  lemma StampIgnoresRowOrder(userVersion: nat, a: seq<RoleVersion>, b: seq<RoleVersion>, le: Order<Id>)
    requires Total(le) && (forall x, y :: le(x, y) && le(y, x) ==> x == y)
    requires multiset(a) == multiset(b) && DistinctRoles(a)
    ensures Stamp(userVersion, Sorted(a, ByRole(le))) == Stamp(userVersion, Sorted(b, ByRole(le)))
  {
    var cmp := ByRole(le);
    forall i, j | 0 <= i < |a| && 0 <= j < |a| && cmp(a[i], a[j]) && cmp(a[j], a[i]) ensures a[i] == a[j] {
      assert a[i].role == a[j].role;
      SameRolePlace(a, i, j);
    }
    forall p: RoleVersion, q: RoleVersion
      ensures cmp(p, q) || cmp(q, p)
    {
      assert le(p.role, q.role) || le(q.role, p.role);
    }
    forall p: RoleVersion, q: RoleVersion, r: RoleVersion | cmp(p, q) && cmp(q, r) ensures cmp(p, r) {
      assert le(p.role, q.role) && le(q.role, r.role);
    }
    SortIgnoresOrder(a, b, cmp);
  }

  // ---------- the services ----------

  datatype Cached = Cached(value: set<R.Perm>, exp: R.Time)
  datatype Birth = Birth(at: nat, origin: R.Origin)

  class RbacCacheService {
    var mem: map<string, Cached>
    var memVer: map<Id, nat>
    var memRoleVer: map<Id, nat>
    const ttlMs: nat
    ghost var births: map<string, Birth>

    constructor (ttlMs: nat)
      ensures mem == map[] && memVer == map[] && memRoleVer == map[] && births == map[] && this.ttlMs == ttlMs
    {
      mem, memVer, memRoleVer, births := map[], map[], map[], map[];
      this.ttlMs := ttlMs;
    }

    ghost function Entries(): map<string, R.Entry>
      reads this
    {
      map k | k in mem && k in births :: R.Entry(mem[k].value, mem[k].exp, births[k].at, births[k].origin)
    }

    method GetVersion(user: Id) returns (v: nat)
      modifies `memVer
      ensures v == R.Ver(old(memVer), user) && memVer == R.Touched(old(memVer), user)
    {
      if user in memVer { return memVer[user]; }
      memVer := memVer[user := 1];
      v := 1;
    }

    method GetRoleVersion(role: Id) returns (v: nat)
      modifies `memRoleVer
      ensures v == R.Ver(old(memRoleVer), role) && memRoleVer == R.Touched(old(memRoleVer), role)
    {
      if role in memRoleVer { return memRoleVer[role]; }
      memRoleVer := memRoleVer[role := 1];
      v := 1;
    }

    method BumpRole(role: Id) returns (next: nat)
      modifies `memRoleVer
      ensures next == R.Ver(memRoleVer, role) && memRoleVer == R.Bumped(old(memRoleVer), role)
    {
      next := (if role in memRoleVer then memRoleVer[role] else 1) + 1;
      memRoleVer := memRoleVer[role := next];
    }

    /** Counts up, and drops every key that mentions the user. */
    method BumpUser(user: Id) returns (next: nat)
      modifies `memVer, `mem
      ensures next == R.Ver(memVer, user) && memVer == R.Bumped(old(memVer), user)
      ensures mem == map k | k in old(mem) && !Contains(k, UserPart(user)) :: old(mem)[k]
      ensures Entries() == R.Forgotten(old(Entries()), user)
    {
      next := (if user in memVer then memVer[user] else 1) + 1;
      memVer := memVer[user := next];
      var keys := mem.Keys;
      while keys != {}
        invariant keys <= old(mem).Keys && memVer == R.Bumped(old(memVer), user)
        invariant mem == map k | k in old(mem) && (k in keys || !Contains(k, UserPart(user))) :: old(mem)[k]
        decreases |keys|
      {
        var k :| k in keys;
        keys := keys - {k};
        if Contains(k, UserPart(user)) { mem := mem - {k}; }
      }
    }

    /** A live entry, or none; an expired one is dropped. */
    method GetRaw(k: string, now: R.Time) returns (r: Option<set<R.Perm>>)
      modifies `mem
      ensures if k in old(mem) && now <= old(mem)[k].exp then r == Some(old(mem)[k].value) && mem == old(mem)
              else r.None? && mem == old(mem) - {k}
      ensures r.None? ==> Entries() == old(Entries()) - {k}
    {
      if k !in mem {
        assert mem - {k} == mem;
        return None;
      }
      if now > mem[k].exp {
        mem := mem - {k};
        return None;
      }
      r := Some(mem[k].value);
    }

    method SetRaw(k: string, value: set<R.Perm>, now: R.Time, ghost birth: Birth)
      modifies `mem, `births
      ensures mem == old(mem)[k := Cached(value, now + ttlMs)] && births == old(births)[k := birth]
      ensures Entries() == old(Entries())[k := R.Entry(value, now + ttlMs, birth.at, birth.origin)]
    {
      mem := mem[k := Cached(value, now + ttlMs)];
      births := births[k := birth];
    }
  }

  /** The tables behind the services, with their history. */
  class Store {
    var permissions: set<R.Perm>
    var rolePerms: R.Tables
    var userRoles: seq<Assignment>
    var acl: seq<AclRow>
    var hosts: map<Id, Id>
    ghost var log: seq<R.Tables>
    ghost var marks: map<Id, seq<nat>>

    constructor (permissions: set<R.Perm>, rolePerms: R.Tables, userRoles: seq<Assignment>, acl: seq<AclRow>,
          hosts: map<Id, Id>)
      ensures log == [rolePerms] && marks == map[] && this.rolePerms == rolePerms
      ensures this.permissions == permissions && this.userRoles == userRoles && this.acl == acl && this.hosts == hosts
    {
      this.permissions, this.rolePerms, this.userRoles := permissions, rolePerms, userRoles;
      this.acl, this.hosts := acl, hosts;
      log, marks := [rolePerms], map[];
    }
  }

  ghost function View(cache: RbacCacheService, db: Store): R.World
    reads cache, db
  {
    R.World(db.log, cache.memVer, cache.memRoleVer, cache.Entries(), map[], map[], db.marks)
  }

  ghost predicate Valid(cache: RbacCacheService, db: Store)
    reads cache, db
  {
    && R.Inv(View(cache, db)) && db.rolePerms == R.Db(View(cache, db))
    && cache.mem.Keys <= cache.births.Keys
  }

  lemma UnionStep(db: R.Tables, ids: seq<Id>, i: nat)
    requires i < |ids|
    ensures R.Union(db, ids[..i + 1]) == R.Union(db, ids[..i]) + R.PermsOf(db, ids[i])
  {
    assert ids[..i + 1] == ids[..i] + [ids[i]];
  }

  lemma SameRolesSameUnion(db: R.Tables, a: seq<Id>, b: seq<Id>)
    requires forall r :: r in a <==> r in b
    ensures R.Union(db, a) == R.Union(db, b)
  {
  }

  /** The pairs read for a list of roles, all at the same versions. */
  ghost predicate PairsFor(pairs: seq<RoleVersion>, ids: seq<Id>, ver: map<Id, nat>) {
    |pairs| == |ids| && forall i :: 0 <= i < |ids| ==> pairs[i] == RoleVersion(ids[i], R.Ver(ver, ids[i]))
  }

  lemma PairsGrow(pairs: seq<RoleVersion>, ids: seq<Id>, k: nat, ver: map<Id, nat>)
    requires k < |ids| && PairsFor(pairs, ids[..k], ver)
    ensures PairsFor(pairs + [RoleVersion(ids[k], R.Ver(ver, ids[k]))], ids[..k + 1], R.Touched(ver, ids[k]))
  {
    R.TouchedSame(ver, ids[k]);
  }

  /** Sorting them keeps the roles, and keeps the versions current. */
  lemma SortedPairs(pairs: seq<RoleVersion>, ids: seq<Id>, w: R.World, le: Order<Id>)
    requires PairsFor(pairs, ids, w.roleVer) && R.PlainIds(ids)
    ensures var sorted := Sorted(pairs, ByRole(le));
            && PlainRoles(sorted) && R.Current(w, sorted)
            && forall r :: r in R.RolesOf(sorted) <==> r in ids
  {
    var sorted := Sorted(pairs, ByRole(le));
    SortMembers(pairs, ByRole(le));
    forall i | 0 <= i < |sorted| ensures sorted[i] in pairs { assert sorted[i] in sorted; }
    forall r | r in ids ensures r in R.RolesOf(sorted) {
      var i :| 0 <= i < |ids| && ids[i] == r;
      assert pairs[i] in pairs && pairs[i] in sorted;
      var j :| 0 <= j < |sorted| && sorted[j] == pairs[i];
      assert R.RolesOf(sorted)[j] == r;
    }
  }

  /** An entry under the current stamp holds what the tables say, and may be dropped. */
  lemma FoundEntryOk(w: R.World, o: R.Origin)
    requires R.Inv(w) && Plain(o.user) && Plain(o.scope) && PlainRoles(o.pairs) && R.Current(w, o.pairs)
             && w.writers == map[]
    ensures R.KeyOf(o) in w.cache ==> w.cache[R.KeyOf(o)].value == R.Union(R.Db(w), R.RolesOf(o.pairs))
    ensures R.Inv(w.(cache := w.cache - {R.KeyOf(o)}))
  {
    if R.KeyOf(o) in w.cache { R.CurrentEntry(w, o); }
    R.DropEntries(w, w.cache - {R.KeyOf(o)}, w.userVer);
  }

  /** What is read from the tables now may be stored under the current stamp. */
  lemma NewEntryOk(w: R.World, o: R.Origin, value: set<R.Perm>, exp: R.Time)
    requires R.Inv(w) && Plain(o.user) && Plain(o.scope) && PlainRoles(o.pairs) && R.Current(w, o.pairs)
    requires value == R.Union(R.Db(w), R.RolesOf(o.pairs))
    ensures R.Inv(w.(cache := w.cache[R.KeyOf(o) := R.Entry(value, exp, R.Now(w), o)]))
  {
    forall i | 0 <= i < |o.pairs| ensures R.Covers(w.marks, R.Now(w), o.pairs[i].role, o.pairs[i].version) {
      var r := o.pairs[i].role;
      assert R.RoleMarksOk(|w.log|, R.Ver(w.roleVer, r), R.MarksOf(w.marks, r));
    }
    R.PutKeeps(w, R.KeyOf(o), R.Entry(value, exp, R.Now(w), o));
  }

  class RbacService {
    const cache: RbacCacheService
    const db: Store
    const le: Order<Id>

    constructor (cache: RbacCacheService, db: Store, le: Order<Id>)
      ensures this.cache == cache && this.db == db && this.le == le
    {
      this.cache, this.db, this.le := cache, db, le;
    }

    method RolesInEffect(user: Id, now: R.Time) returns (ids: seq<Id>)
      ensures ids == ActiveRoles(db.userRoles, user, now)
    {
      ids := [];
      for k := 0 to |db.userRoles|
        invariant ids == ActiveRoles(db.userRoles[..k], user, now)
      {
        assert db.userRoles[..k + 1][..k] == db.userRoles[..k];
        if InEffect(db.userRoles[k], user, now) { ids := ids + [db.userRoles[k].role]; }
      }
      assert db.userRoles[..|db.userRoles|] == db.userRoles;
    }

    /** The versions behind a stamp; reading a counter never changes what it stands at. */
    method BuildStamp(user: Id, ids: seq<Id>) returns (userVersion: nat, pairs: seq<RoleVersion>)
      requires Valid(cache, db) && R.PlainIds(ids)
      modifies cache`memVer, cache`memRoleVer
      ensures Valid(cache, db)
      ensures PlainRoles(pairs) && R.Current(View(cache, db), pairs) && forall r :: r in R.RolesOf(pairs) <==> r in ids
    {
      R.TouchedSame(cache.memVer, user);
      R.TouchKeeps(View(cache, db), R.Touched(cache.memVer, user), cache.memRoleVer);
      userVersion := cache.GetVersion(user);
      var read: seq<RoleVersion> := [];
      for k := 0 to |ids|
        invariant Valid(cache, db) && PairsFor(read, ids[..k], cache.memRoleVer)
      {
        R.TouchedSame(cache.memRoleVer, ids[k]);
        R.TouchKeeps(View(cache, db), cache.memVer, R.Touched(cache.memRoleVer, ids[k]));
        PairsGrow(read, ids, k, cache.memRoleVer);
        var v := cache.GetRoleVersion(ids[k]);
        read := read + [RoleVersion(ids[k], v)];
      }
      assert ids[..|ids|] == ids;
      SortedPairs(read, ids, View(cache, db), le);
      pairs := Sorted(read, ByRole(le));
    }

    method LoadPermissions(ids: seq<Id>) returns (perms: set<R.Perm>)
      ensures perms == R.Union(db.rolePerms, ids)
    {
      perms := {};
      for k := 0 to |ids|
        invariant perms == R.Union(db.rolePerms, ids[..k])
      {
        UnionStep(db.rolePerms, ids, k);
        perms := perms + R.PermsOf(db.rolePerms, ids[k]);
      }
      assert ids[..|ids|] == ids;
    }

    /** A hit under the current stamp is what the tables say. */
    method GetPerms(user: Id, scope: Id, userVersion: nat, pairs: seq<RoleVersion>, now: R.Time)
      returns (hit: Option<set<R.Perm>>)
      requires Valid(cache, db) && Plain(user) && Plain(scope) && PlainRoles(pairs) && R.Current(View(cache, db), pairs)
      modifies cache`mem
      ensures Valid(cache, db)
      ensures hit.Some? ==> hit.value == R.Union(db.rolePerms, R.RolesOf(pairs))
    {
      var key := PermKey(user, scope, Stamp(userVersion, pairs));
      ghost var w := View(cache, db);
      FoundEntryOk(w, R.Origin(user, scope, userVersion, pairs));
      hit := cache.GetRaw(key, now);
      if hit.Some? {
        assert View(cache, db) == w;
      } else {
        assert View(cache, db) == w.(cache := w.cache - {key});
      }
    }

    method SetPerms(user: Id, scope: Id, userVersion: nat, pairs: seq<RoleVersion>, perms: set<R.Perm>, now: R.Time)
      requires Valid(cache, db) && Plain(user) && Plain(scope) && PlainRoles(pairs) && R.Current(View(cache, db), pairs)
      requires perms == R.Union(db.rolePerms, R.RolesOf(pairs))
      modifies cache`mem, cache`births
      ensures Valid(cache, db)
    {
      var key := PermKey(user, scope, Stamp(userVersion, pairs));
      hide R.Inv;
      ghost var o := R.Origin(user, scope, userVersion, pairs);
      ghost var w := View(cache, db);
      NewEntryOk(w, o, perms, now + cache.ttlMs);
      cache.SetRaw(key, perms, now, Birth(R.Now(w), o));
      assert View(cache, db) == w.(cache := w.cache[key := R.Entry(perms, now + cache.ttlMs, R.Now(w), o)]);
    }

    /** With no administrator call under way, the expansion returns what the tables say,
        whatever the cache holds. */
    method ExpandUserPermissions(user: Id, scope: Id, now: R.Time) returns (perms: set<R.Perm>)
      requires Valid(cache, db) && Plain(user) && Plain(scope) && R.PlainIds(ActiveRoles(db.userRoles, user, now))
      modifies cache
      ensures Valid(cache, db)
      ensures perms == R.Union(db.rolePerms, ActiveRoles(db.userRoles, user, now))
    {
      var ids := RolesInEffect(user, now);
      var userVersion, pairs := BuildStamp(user, ids);
      SameRolesSameUnion(db.rolePerms, R.RolesOf(pairs), ids);
      var hit := GetPerms(user, scope, userVersion, pairs, now);
      if hit.Some? { return hit.value; }
      perms := {};
      if ids != [] { perms := LoadPermissions(ids); }
      SetPerms(user, scope, userVersion, pairs, perms, now);
    }

    /** Keys of the rows of a resource, denied and allowed. */
    method ApplyAcl(user: Id, owned: set<string>, res: Resource) returns (owned': set<string>, denies: set<string>)
      ensures denies == KeysOf(db.acl, user, res, Deny) && owned' == owned + KeysOf(db.acl, user, res, Allow)
    {
      owned', denies := owned, {};
      for k := 0 to |db.acl|
        invariant denies == KeysOf(db.acl[..k], user, res, Deny)
        invariant owned' == owned + KeysOf(db.acl[..k], user, res, Allow)
      {
        var row := db.acl[k];
        assert db.acl[..k + 1] == db.acl[..k] + [row];
        if About(row, user, res) {
          if row.effect == Deny { denies := denies + {Key(row.resourceType, row.action)}; }
          if row.effect == Allow { owned' := owned' + {Key(row.resourceType, row.action)}; }
        }
      }
      assert db.acl[..|db.acl|] == db.acl;
    }

    method CollectFailed(keys: seq<string>, owned: set<string>, denies: set<string>) returns (failed: seq<string>)
      ensures failed == Failing(keys, owned, denies)
    {
      failed := [];
      for k := 0 to |keys|
        invariant failed == Failing(keys[..k], owned, denies)
      {
        assert keys[..k + 1][..k] == keys[..k];
        if keys[k] in denies || !Match(keys[k], owned) { failed := failed + [keys[k]]; }
      }
      assert keys[..|keys|] == keys;
    }

    /** Exactly the requirements that are denied or not owned fail, in order, and the check is
        passed exactly when there is none. */
    method CheckPermissions(user: Id, needed: seq<string>, res: Option<Resource>, scope: Id, now: R.Time)
      returns (allowed: bool, failed: seq<string>)
      requires Valid(cache, db) && Plain(user) && Plain(scope) && R.PlainIds(ActiveRoles(db.userRoles, user, now))
      requires res.Some? ==> res.value.kind != "" && res.value.id != ""
      modifies cache
      ensures Valid(cache, db)
      ensures var keys := seq(|needed|, i requires 0 <= i < |needed| => ReqKey(Parse(needed[i])));
              failed == Failing(keys, OwnedBy(db.rolePerms, db.userRoles, db.hosts, db.acl, user, res, now),
                                DeniedBy(db.acl, user, res))
      ensures allowed <==>
                forall n :: n in needed ==> May(db.rolePerms, db.userRoles, db.hosts, db.acl, user, res, now, n)
    {
      if needed == [] { return true, []; }
      var keys := seq(|needed|, i requires 0 <= i < |needed| => ReqKey(Parse(needed[i])));
      var owned := ExpandUserPermissions(user, scope, now);
      var denies: set<string> := {};
      if res.Some? {
        owned := owned + Boost(user, res.value, db.hosts);
        owned, denies := ApplyAcl(user, owned, res.value);
      }
      assert owned == OwnedBy(db.rolePerms, db.userRoles, db.hosts, db.acl, user, res, now);
      failed := CollectFailed(keys, owned, denies);
      allowed := failed == [];
      Verdict(needed, keys, owned, denies);
    }
  }

  lemma Verdict(needed: seq<string>, keys: seq<string>, owned: set<string>, denies: set<string>)
    requires |keys| == |needed| && forall i :: 0 <= i < |needed| ==> keys[i] == ReqKey(Parse(needed[i]))
    ensures Failing(keys, owned, denies) == []
            <==> forall n :: n in needed ==> ReqKey(Parse(n)) !in denies && Owns(owned, Parse(n))
  {
    NoneFailing(keys, owned, denies);
    forall n | n in needed
      ensures Fails(ReqKey(Parse(n)), owned, denies) <==> ReqKey(Parse(n)) in denies || !Owns(owned, Parse(n))
    {
      KeyParses(n);
    }
    forall k | k in keys ensures exists n :: n in needed && k == ReqKey(Parse(n)) {
      var i :| 0 <= i < |keys| && keys[i] == k;
      assert needed[i] in needed;
    }
    forall n | n in needed ensures ReqKey(Parse(n)) in keys {
      var i :| 0 <= i < |needed| && needed[i] == n;
      assert keys[i] in keys;
    }
  }

  lemma WriteThenBump(w: R.World, role: Id, perm: R.Perm, grant: bool)
    requires R.Inv(w) && w.writers == map[]
    ensures var w2 := R.Advance(R.Advance(w, R.Write(0, role, perm, grant)), R.BumpRole(0));
            var db := R.Written(R.Db(w), role, perm, grant);
            && R.Inv(w2) && R.Db(w2) == db
            && w2 == w.(log := w.log + [db], roleVer := R.Bumped(w.roleVer, role), marks := w2.marks)
  {
    var w1 := R.Advance(w, R.Write(0, role, perm, grant));
    R.AdvanceKeeps(w, R.Write(0, role, perm, grant));
    R.AdvanceKeeps(w1, R.BumpRole(0));
    assert R.Advance(w1, R.BumpRole(0)).writers == map[];
  }

  class RbacAdminService {
    const cache: RbacCacheService
    const db: Store

    constructor (cache: RbacCacheService, db: Store)
      ensures this.cache == cache && this.db == db
    {
      this.cache, this.db := cache, db;
    }

    /** A change of a role's permissions: the write, then the bump. */
    method ChangeRole(role: Id, perm: R.Perm, grant: bool)
      requires Valid(cache, db)
      modifies cache`memRoleVer, db`rolePerms, db`log, db`marks
      ensures Valid(cache, db) && db.rolePerms == R.Written(old(db.rolePerms), role, perm, grant)
      ensures View(cache, db)
              == R.Advance(R.Advance(old(View(cache, db)), R.Write(0, role, perm, grant)), R.BumpRole(0))
    {
      ghost var w0 := View(cache, db);
      ghost var w2 := R.Advance(R.Advance(w0, R.Write(0, role, perm, grant)), R.BumpRole(0));
      WriteThenBump(w0, role, perm, grant);
      db.rolePerms := if grant then db.rolePerms[role := R.PermsOf(db.rolePerms, role) + {perm}]
                      else db.rolePerms[role := R.PermsOf(db.rolePerms, role) - {perm}];
      db.log := db.log + [db.rolePerms];
      var _ := cache.BumpRole(role);
      db.marks := w2.marks;
      assert View(cache, db) == w2;
    }

    method AddPermissionToRole(role: Id, subject: string, action: string)
      requires Valid(cache, db)
      modifies cache`memRoleVer, db`permissions, db`rolePerms, db`log, db`marks
      ensures Valid(cache, db) && db.permissions == old(db.permissions) + {Key(subject, action)}
      ensures db.rolePerms == R.Written(old(db.rolePerms), role, Key(subject, action), true)
      ensures R.Ver(cache.memRoleVer, role) == R.Ver(old(cache.memRoleVer), role) + 1
    {
      db.permissions := db.permissions + {Key(subject, action)};
      ChangeRole(role, Key(subject, action), true);
    }

    /** A permission that does not exist is not looked for in the role, and nothing is bumped. */
    method RemovePermissionFromRole(role: Id, subject: string, action: string) returns (already: bool)
      requires Valid(cache, db)
      modifies cache`memRoleVer, db`rolePerms, db`log, db`marks
      ensures Valid(cache, db) && already == (Key(subject, action) !in db.permissions)
      ensures already ==> View(cache, db) == old(View(cache, db))
      ensures !already ==> && db.rolePerms == R.Written(old(db.rolePerms), role, Key(subject, action), false)
                           && R.Ver(cache.memRoleVer, role) == R.Ver(old(cache.memRoleVer), role) + 1
    {
      if Key(subject, action) !in db.permissions { return true; }
      ChangeRole(role, Key(subject, action), false);
      already := false;
    }

    /** A change of a user's roles: the write, then the bump that forgets the user's entries. */
    method AddRoleToUser(user: Id, role: Id)
      requires Valid(cache, db)
      modifies cache`memVer, cache`mem, db`userRoles
      ensures Valid(cache, db) && View(cache, db) == R.Advance(old(View(cache, db)), R.BumpUser(user))
      ensures db.userRoles
              == if exists a :: a in old(db.userRoles) && a.user == user && a.role == role then old(db.userRoles)
                              else old(db.userRoles) + [Assignment(user, role, None, None)]
    {
      if !exists a :: a in db.userRoles && a.user == user && a.role == role {
        db.userRoles := db.userRoles + [Assignment(user, role, None, None)];
      }
      ghost var w := View(cache, db);
      R.DropEntries(w, R.Forgotten(w.cache, user), R.Bumped(w.userVer, user));
      var _ := cache.BumpUser(user);
    }
  }

  /** A permission added to a role passes the next check of whoever holds the role, unless an
      access list denies it. */
  method AddThenCheck(admin: RbacAdminService, rbac: RbacService, role: Id, subject: string, action: string,
                      x: Assignment, res: Option<Resource>, scope: Id, now: R.Time)
    returns (allowed: bool)
    requires admin.cache == rbac.cache && admin.db == rbac.db && Valid(rbac.cache, rbac.db)
    requires Plain(x.user) && Plain(scope) && R.PlainIds(ActiveRoles(rbac.db.userRoles, x.user, now))
    requires res.Some? ==> res.value.kind != "" && res.value.id != ""
    requires ':' !in subject && ':' !in action && x in rbac.db.userRoles && x.role == role
    requires (x.effectiveAt == None || x.effectiveAt.value <= now) && (x.expiresAt == None || now < x.expiresAt.value)
    modifies rbac.cache, rbac.db`permissions, rbac.db`rolePerms, rbac.db`log, rbac.db`marks
    ensures allowed <==> Lower(subject) + ":" + Lower(action) !in DeniedBy(rbac.db.acl, x.user, res)
  {
    hide R.Inv, Failing;
    admin.AddPermissionToRole(role, subject, action);
    var failed;
    allowed, failed := rbac.CheckPermissions(x.user, [subject + ":" + action], res, scope, now);
    MayIff(rbac.db.rolePerms, rbac.db.userRoles, rbac.db.hosts, rbac.db.acl, x.user, res, now, subject, action);
    OwnedIff(rbac.db.rolePerms, rbac.db.userRoles, rbac.db.hosts, rbac.db.acl, x.user, res, now, Key(subject, action));
  }

  /** A permission taken from the only role that gave it, in any of its four ways, no longer
      passes a check without a resource. */
  method RemoveThenCheck(admin: RbacAdminService, rbac: RbacService, role: Id, subject: string, action: string,
                         user: Id, scope: Id, now: R.Time)
    returns (allowed: bool)
    requires admin.cache == rbac.cache && admin.db == rbac.db && Valid(rbac.cache, rbac.db)
    requires Plain(user) && Plain(scope) && R.PlainIds(ActiveRoles(rbac.db.userRoles, user, now))
    requires ':' !in subject && ':' !in action && Key(subject, action) in rbac.db.permissions
    requires forall r, p :: p in R.PermsOf(rbac.db.rolePerms, r) && (r != role || p != Key(subject, action)) ==>
               p !in {Key(subject, action), Lower(subject) + ":manage", "*:" + Lower(action), "manage:*"}
    modifies rbac.cache, rbac.db`rolePerms, rbac.db`log, rbac.db`marks
    ensures !allowed
  {
    ghost var before := rbac.db.rolePerms;
    var already := admin.RemovePermissionFromRole(role, subject, action);
    var failed;
    allowed, failed := rbac.CheckPermissions(user, [subject + ":" + action], None, scope, now);
    assert subject + ":" + action in [subject + ":" + action];
    if allowed {
      ghost var x, key := OnlyHoldersPass(rbac.db.rolePerms, rbac.db.userRoles, rbac.db.hosts, rbac.db.acl, user, now,
                                          subject, action);
      R.WrittenPerms(before, role, Key(subject, action), false, x.role, key);
    }
  }
}
