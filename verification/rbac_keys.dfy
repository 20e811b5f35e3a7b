/** The strings the permission cache is keyed by.  They are shown to determine the user, the
    scope, the user version and the list of role versions they were built from, as long as
    identifiers hold none of the separators. */
module RbacKeys {
  type Id = string

  datatype RoleVersion = RoleVersion(role: Id, version: nat)

  /** Identifiers without the separators of keys and stamps. */
  predicate Plain(id: Id) { ':' !in id && ',' !in id && '|' !in id }

  predicate PlainRoles(pairs: seq<RoleVersion>) { forall i :: 0 <= i < |pairs| ==> Plain(pairs[i].role) }

  function Digit(d: nat): char
    requires d < 10
  {
    "0123456789"[d]
  }

  function Decimal(n: nat): string {
    if n < 10 then [Digit(n)] else Decimal(n / 10) + [Digit(n % 10)]
  }

  predicate IsDigit(c: char) { '0' <= c <= '9' }

  lemma {:induction false} DecimalDigits(n: nat)
    ensures Decimal(n) != [] && forall c :: c in Decimal(n) ==> IsDigit(c)
  {
    if n >= 10 { DecimalDigits(n / 10); }
  }

  lemma DigitInjective(d: nat, e: nat)
    requires d < 10 && e < 10 && Digit(d) == Digit(e)
    ensures d == e
  {
  }

  lemma {:induction false} DecimalInjective(m: nat, n: nat)
    requires Decimal(m) == Decimal(n)
    ensures m == n
  {
    DecimalDigits(m / 10);
    DecimalDigits(n / 10);
    var s := Decimal(m);
    assert s[|s| - 1] == Digit(m % 10) == Digit(n % 10);
    DigitInjective(m % 10, n % 10);
    if m >= 10 && n >= 10 {
      assert Decimal(m / 10) == s[..|s| - 1] == Decimal(n / 10);
      DecimalInjective(m / 10, n / 10);
    }
  }

  /** Text before the first separator, and after it, is determined by the whole. */
  lemma SplitUnique(a: string, x: string, b: string, y: string, sep: char)
    requires sep !in a && sep !in b && a + [sep] + x == b + [sep] + y
    ensures a == b && x == y
  {
    var whole := a + [sep] + x;
    assert whole[|a|] == sep && (b + [sep] + y)[|b|] == sep;
    assert forall k :: 0 <= k < |a| ==> whole[k] == a[k] && a[k] in a;
    assert forall k :: 0 <= k < |b| ==> (b + [sep] + y)[k] == b[k] && b[k] in b;
    assert |a| == |b|;
    assert whole[..|a|] == a && (b + [sep] + y)[..|b|] == b;
    assert whole[|a| + 1..] == x && (b + [sep] + y)[|b| + 1..] == y;
  }

  function Item(p: RoleVersion): string { p.role + ":" + Decimal(p.version) }

  function Joined(pairs: seq<RoleVersion>): string {
    if pairs == [] then ""
    else if |pairs| == 1 then Item(pairs[0])
    else Item(pairs[0]) + "," + Joined(pairs[1..])
  }

  /** The stamp, for the pairs in whatever order the sort left them. */
  function Stamp(userVersion: nat, pairs: seq<RoleVersion>): string { Decimal(userVersion) + "|" + Joined(pairs) }

  function UserPart(user: Id): string { "perm:user:" + user + ":" }

  function PermKey(user: Id, scope: Id, stamp: string): string { "rbac:" + UserPart(user) + scope + ":" + stamp }

  lemma ItemInjective(p: RoleVersion, q: RoleVersion)
    requires Plain(p.role) && Plain(q.role) && Item(p) == Item(q)
    ensures p == q
  {
    SplitUnique(p.role, Decimal(p.version), q.role, Decimal(q.version), ':');
    DecimalInjective(p.version, q.version);
  }

  lemma ItemHasNoComma(p: RoleVersion)
    requires Plain(p.role)
    ensures ',' !in Item(p) && Item(p) != ""
  {
    DecimalDigits(p.version);
  }

  lemma {:induction false} JoinedInjective(a: seq<RoleVersion>, b: seq<RoleVersion>)
    requires PlainRoles(a) && PlainRoles(b) && Joined(a) == Joined(b)
    ensures a == b
    decreases |a|
  {
    if a == [] || b == [] {
      if a != [] { ItemHasNoComma(a[0]); }
      if b != [] { ItemHasNoComma(b[0]); }
    } else {
      ItemHasNoComma(a[0]);
      ItemHasNoComma(b[0]);
      if |a| == 1 || |b| == 1 {
        OneItemOrMore(a, b);
        ItemInjective(a[0], b[0]);
      } else {
        SplitUnique(Item(a[0]), Joined(a[1..]), Item(b[0]), Joined(b[1..]), ',');
        ItemInjective(a[0], b[0]);
        JoinedInjective(a[1..], b[1..]);
      }
    }
  }

  lemma OneItemOrMore(a: seq<RoleVersion>, b: seq<RoleVersion>)
    requires a != [] && b != [] && Joined(a) == Joined(b) && (|a| == 1 || |b| == 1)
    requires ',' !in Item(a[0]) && ',' !in Item(b[0])
    ensures |a| == 1 && |b| == 1 && Item(a[0]) == Item(b[0])
  {
    CommaIff(a);
    CommaIff(b);
  }

  lemma CommaIff(pairs: seq<RoleVersion>)
    requires pairs != [] && ',' !in Item(pairs[0])
    ensures ',' in Joined(pairs) <==> |pairs| > 1
  {
    if |pairs| > 1 { assert Joined(pairs)[|Item(pairs[0])|] == ','; }
  }

  lemma StampInjective(m: nat, a: seq<RoleVersion>, n: nat, b: seq<RoleVersion>)
    requires PlainRoles(a) && PlainRoles(b) && Stamp(m, a) == Stamp(n, b)
    ensures m == n && a == b
  {
    DecimalDigits(m);
    DecimalDigits(n);
    SplitUnique(Decimal(m), Joined(a), Decimal(n), Joined(b), '|');
    DecimalInjective(m, n);
    JoinedInjective(a, b);
  }

  lemma PermKeyInjective(u: Id, s: Id, x: string, u': Id, s': Id, x': string)
    requires Plain(u) && Plain(s) && Plain(u') && Plain(s') && PermKey(u, s, x) == PermKey(u', s', x')
    ensures u == u' && s == s' && x == x'
  {
    var pre := "rbac:perm:user:";
    assert PermKey(u, s, x) == pre + (u + ":" + (s + ":" + x));
    assert PermKey(u', s', x') == pre + (u' + ":" + (s' + ":" + x'));
    assert PermKey(u, s, x)[|pre|..] == u + ":" + (s + ":" + x);
    assert PermKey(u', s', x')[|pre|..] == u' + ":" + (s' + ":" + x');
    SplitUnique(u, s + ":" + x, u', s' + ":" + x', ':');
    SplitUnique(s, x, s', x', ':');
  }

  predicate Contains(text: string, part: string) {
    exists i :: 0 <= i <= |text| && part <= text[i..]
  }

  lemma KeyContainsUser(user: Id, scope: Id, stamp: string)
    ensures Contains(PermKey(user, scope, stamp), UserPart(user))
  {
    var text, part := PermKey(user, scope, stamp), UserPart(user);
    assert text == "rbac:" + part + scope + ":" + stamp;
    assert text[5..] == part + (scope + ":" + stamp);
  }
}
