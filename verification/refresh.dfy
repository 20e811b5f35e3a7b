/** Refresh-token rotation for one session.  Any number of refresh calls run at once, each
    step of theirs (a row read, a compare-and-swap, a cache read or write) taken alone; the
    single-flight lock is allowed to do anything at all, so that what is proved rests on the
    compare-and-swap. */
module Refresh {
  import opened Common

  type TokenPart = nat
  type CallId = nat
  type Time = int

  /** Hashing is taken to be injective. */
  datatype Hash = Sha(part: TokenPart)

  /** What a client is handed: the new token part and when the session expires. */
  datatype Grant = Grant(part: TokenPart, expiresAt: Time)

  datatype Previous = Previous(hash: Hash, graceUntil: Time)

  datatype Session =
    Session(hash: Hash, prev: Option<Previous>, version: nat, expiresAt: Time, revoked: bool, approved: bool)

  datatype Config = Config(refreshTtlMs: nat, graceMs: nat)

  datatype Error = SessionRevoked | SessionExpired | ApprovalRequired | TooManyRequests | Conflict | InvalidToken

  /** Where a call stands.  `h` is the hash it read as current and wants to rotate away from,
      `viaGrace` says that it got there with the previous token. */
  datatype Pc =
    | Suspecting
    | Peeking(prev: Hash, h: Hash)
    | Locking(h: Hash, viaGrace: bool)
    | Polling(h: Hash, viaGrace: bool)
    | Rotating(h: Hash, viaGrace: bool)
    | Publishing(h: Hash, g: Grant, viaGrace: bool)
    | Fetching(h: Hash, viaGrace: bool)
    | Clearing(g: Grant, rotated: bool)
    | Punishing(revoked: bool, bumped: bool)
    | Granted(g: Grant, rotated: bool)
    | Failed(error: Error)

  /** A call presenting token `t`; `seenVersion` is the user's access version when it started. */
  datatype Call = Call(t: TokenPart, seenVersion: nat, pc: Pc)

  /** `chain` is a history variable: every grant of the session so far, oldest first. */
  datatype World = World(
    session: Session,
    pending: map<Hash, Grant>,
    accessVersion: nat,
    userLocked: bool,
    calls: map<CallId, Call>,
    chain: seq<Grant>)

  function NewSession(first: TokenPart, now: Time, cfg: Config): World {
    var g := Grant(first, now + cfg.refreshTtlMs);
    World(Session(Sha(first), None, 0, g.expiresAt, false, true), map[], 1, false, map[], [g])
  }

  // ---------- the steps of a call ----------

  predicate InGrace(s: Session, t: TokenPart, now: Time) {
    s.prev.Some? && s.prev.value.graceUntil > now && s.prev.value.hash == Sha(t)
  }

  /** The row read and every branch decided on it.  `limited` is the rate limiter's answer and
      `suspicious` the comparison of user agent and device. */
  function Decide(s: Session, t: TokenPart, now: Time, limited: bool, suspicious: bool): Pc {
    if s.revoked then Failed(SessionRevoked)
    else if s.expiresAt <= now then Failed(SessionExpired)
    else if !s.approved then Failed(ApprovalRequired)
    else if limited then Failed(TooManyRequests)
    else if suspicious then Suspecting
    else if s.hash == Sha(t) then Locking(s.hash, false)
    else if InGrace(s, t, now) then Peeking(s.prev.value.hash, s.hash)
    else Punishing(false, false)
  }

  /** The compare-and-swap on the session row. */
  predicate Swaps(s: Session, h: Hash) { s.hash == h && !s.revoked }

  function Swapped(s: Session, h: Hash, g: Grant, now: Time, cfg: Config): Session {
    s.(hash := Sha(g.part), prev := Some(Previous(h, now + cfg.graceMs)),
       version := s.version + 1, expiresAt := g.expiresAt)
  }

  function Goto(w: World, c: CallId, pc: Pc): World
    requires c in w.calls
  {
    w.(calls := w.calls[c := w.calls[c].(pc := pc)])
  }

  /** A grant in hand: the grace branch still clears the previous pair first. */
  function Obtained(g: Grant, viaGrace: bool, rotated: bool): Pc {
    if viaGrace then Clearing(g, rotated) else Granted(g, rotated)
  }

  datatype Turn =
    | Read(c: CallId, t: TokenPart, now: Time, limited: bool, suspicious: bool)
    | Suspect(c: CallId)
    | Peek(c: CallId)
    | TryLock(c: CallId, got: bool)
    | Poll(c: CallId)
    | GiveUpPolling(c: CallId)
    | Swap(c: CallId, minted: TokenPart, now: Time)
    | Publish(c: CallId, stored: bool)
    | Fetch(c: CallId)
    | Clear(c: CallId, written: bool)
    | Punish(c: CallId)
    | Crash(c: CallId)
    | Logout
    | BumpAccess
    | Approve
    | Evict(h: Hash)
    | UnlockUser

  function At(w: World, c: CallId): Option<Pc> { if c in w.calls then Some(w.calls[c].pc) else None }

  function Extend(w: World, s: Session, g: Grant): World { w.(session := s, chain := w.chain + [g]) }

  function GrantTurn(w: World, c: CallId, h: Hash, viaGrace: bool, g: Grant, now: Time, cfg: Config): World
    requires c in w.calls
  {
    Goto(Extend(w, Swapped(w.session, h, g, now, cfg), g), c, Publishing(h, g, viaGrace))
  }

  function SwapTurn(w: World, c: CallId, h: Hash, viaGrace: bool, minted: TokenPart, now: Time, cfg: Config): World
    requires c in w.calls
  {
    if Swaps(w.session, h) then GrantTurn(w, c, h, viaGrace, Grant(minted, now + cfg.refreshTtlMs), now, cfg)
    else Goto(w, c, Fetching(h, viaGrace))
  }

  function PunishTurn(w: World, c: CallId, revoked: bool, bumped: bool): World
    requires c in w.calls
  {
    if !revoked then Goto(w.(session := w.session.(revoked := true)), c, Punishing(true, false))
    else if !bumped then Goto(w.(accessVersion := w.accessVersion + 1), c, Punishing(true, true))
    else Goto(w.(userLocked := true), c, Failed(InvalidToken))
  }

  function Advance(w: World, cfg: Config, turn: Turn): World {
    match turn
    case Read(c, t, now, limited, suspicious) =>
      if c in w.calls then w
      else w.(calls := w.calls[c := Call(t, w.accessVersion, Decide(w.session, t, now, limited, suspicious))])
    case Suspect(c) =>
      if At(w, c) == Some(Suspecting) then
        Goto(w.(session := w.session.(approved := false)), c, Failed(ApprovalRequired))
      else w
    case Peek(c) =>
      (match At(w, c)
       case Some(Peeking(prev, h)) =>
         Goto(w, c, if prev in w.pending then Clearing(w.pending[prev], false) else Locking(h, true))
       case _ => w)
    case TryLock(c, got) =>
      (match At(w, c)
       case Some(Locking(h, viaGrace)) => Goto(w, c, if got then Rotating(h, viaGrace) else Polling(h, viaGrace))
       case _ => w)
    case Poll(c) =>
      (match At(w, c)
       case Some(Polling(h, viaGrace)) =>
         if h in w.pending then Goto(w, c, Obtained(w.pending[h], viaGrace, viaGrace)) else w
       case _ => w)
    case GiveUpPolling(c) =>
      (match At(w, c)
       case Some(Polling(h, viaGrace)) => Goto(w, c, Rotating(h, viaGrace))
       case _ => w)
    case Swap(c, minted, now) =>
      (match At(w, c)
       case Some(Rotating(h, viaGrace)) =>
         if Grantable(w.chain, minted) then SwapTurn(w, c, h, viaGrace, minted, now, cfg) else w
       case _ => w)
    case Publish(c, stored) =>
      (match At(w, c)
       case Some(Publishing(h, g, viaGrace)) =>
         Goto(if stored then w.(pending := w.pending[h := g]) else w, c, Obtained(g, viaGrace, viaGrace))
       case _ => w)
    case Fetch(c) =>
      (match At(w, c)
       case Some(Fetching(h, viaGrace)) =>
         Goto(w, c, if h in w.pending then Obtained(w.pending[h], viaGrace, viaGrace) else Failed(Conflict))
       case _ => w)
    case Clear(c, written) =>
      (match At(w, c)
       case Some(Clearing(g, rotated)) =>
         Goto(if written then w.(session := w.session.(prev := None)) else w, c, Granted(g, rotated))
       case _ => w)
    case Punish(c) =>
      (match At(w, c)
       case Some(Punishing(revoked, bumped)) => PunishTurn(w, c, revoked, bumped)
       case _ => w)
    case Crash(c) => w.(calls := w.calls - {c})
    case Logout => w.(session := w.session.(revoked := true))
    case BumpAccess => w.(accessVersion := w.accessVersion + 1)
    case Approve => if w.session.revoked then w else w.(session := w.session.(approved := true))
    case Evict(h) => w.(pending := w.pending - {h})
    case UnlockUser => w.(userLocked := false)
  }

  function Schedule(w: World, cfg: Config, turns: seq<Turn>): World
    decreases |turns|
  {
    if turns == [] then w else Schedule(Advance(w, cfg, turns[0]), cfg, turns[1..])
  }

  // ---------- the chain of grants ----------

  /** Random parts do not repeat. */
  predicate Grantable(chain: seq<Grant>, minted: TokenPart) {
    forall i :: 0 <= i < |chain| ==> chain[i].part != minted
  }

  ghost predicate DistinctParts(chain: seq<Grant>) {
    forall i, j :: 0 <= i < j < |chain| ==> chain[i].part != chain[j].part
  }

  /** `g` is the grant that replaced token `t`. */
  ghost predicate Succeeds(chain: seq<Grant>, t: TokenPart, g: Grant) {
    exists i :: 0 <= i < |chain| - 1 && chain[i].part == t && chain[i + 1] == g
  }

  /** `g` is the grant that replaced the one that replaced `t`. */
  ghost predicate SucceedsTwice(chain: seq<Grant>, t: TokenPart, g: Grant) {
    exists i :: 0 <= i < |chain| - 2 && chain[i].part == t && chain[i + 2] == g
  }

  /** `h` is the hash of the grant that replaced `t`. */
  ghost predicate HashSucceeds(chain: seq<Grant>, t: TokenPart, h: Hash) {
    exists i :: 0 <= i < |chain| - 1 && chain[i].part == t && Sha(chain[i + 1].part) == h
  }

  ghost predicate InChain(chain: seq<Grant>, t: TokenPart) {
    exists i :: 0 <= i < |chain| && chain[i].part == t
  }

  lemma SamePlace(chain: seq<Grant>, i: nat, j: nat)
    requires DistinctParts(chain) && i < |chain| && j < |chain| && chain[i].part == chain[j].part
    ensures i == j
  {
  }

  /** No hash has two successors, and no grant succeeds two hashes. */
  lemma SuccessorUnique(chain: seq<Grant>, t: TokenPart, u: TokenPart, g: Grant, g': Grant)
    requires DistinctParts(chain) && Succeeds(chain, t, g) && Succeeds(chain, u, g')
    ensures t == u <==> g == g'
  {
    var i :| 0 <= i < |chain| - 1 && chain[i].part == t && chain[i + 1] == g;
    var j :| 0 <= j < |chain| - 1 && chain[j].part == u && chain[j + 1] == g';
    if t == u { SamePlace(chain, i, j); }
    if g == g' { SamePlace(chain, i + 1, j + 1); }
  }

  lemma SecondSuccessorUnique(chain: seq<Grant>, t: TokenPart, g: Grant, g': Grant)
    requires DistinctParts(chain) && SucceedsTwice(chain, t, g) && SucceedsTwice(chain, t, g')
    ensures g == g'
  {
    var i :| 0 <= i < |chain| - 2 && chain[i].part == t && chain[i + 2] == g;
    var j :| 0 <= j < |chain| - 2 && chain[j].part == t && chain[j + 2] == g';
    SamePlace(chain, i, j);
  }

  lemma TwoSteps(chain: seq<Grant>, t: TokenPart, h: Hash, g: Grant)
    requires DistinctParts(chain) && HashSucceeds(chain, t, h) && Succeeds(chain, h.part, g)
    ensures SucceedsTwice(chain, t, g)
  {
    var i :| 0 <= i < |chain| - 1 && chain[i].part == t && Sha(chain[i + 1].part) == h;
    var j :| 0 <= j < |chain| - 1 && chain[j].part == h.part && chain[j + 1] == g;
    SamePlace(chain, i + 1, j);
    assert chain[i].part == t && chain[i + 2] == g;
  }

  lemma ChainGrows(chain: seq<Grant>, g: Grant, t: TokenPart)
    ensures forall x :: Succeeds(chain, t, x) ==> Succeeds(chain + [g], t, x)
    ensures forall x :: SucceedsTwice(chain, t, x) ==> SucceedsTwice(chain + [g], t, x)
    ensures forall h :: HashSucceeds(chain, t, h) ==> HashSucceeds(chain + [g], t, h)
    ensures InChain(chain, t) ==> InChain(chain + [g], t)
  {
    var more := chain + [g];
    assert forall i :: 0 <= i < |chain| ==> more[i] == chain[i];
    forall x | Succeeds(chain, t, x) ensures Succeeds(more, t, x) {
      var i :| 0 <= i < |chain| - 1 && chain[i].part == t && chain[i + 1] == x;
      assert more[i].part == t && more[i + 1] == x;
    }
    forall x | SucceedsTwice(chain, t, x) ensures SucceedsTwice(more, t, x) {
      var i :| 0 <= i < |chain| - 2 && chain[i].part == t && chain[i + 2] == x;
      assert more[i].part == t && more[i + 2] == x;
    }
    forall h | HashSucceeds(chain, t, h) ensures HashSucceeds(more, t, h) {
      var i :| 0 <= i < |chain| - 1 && chain[i].part == t && Sha(chain[i + 1].part) == h;
      assert more[i].part == t && Sha(more[i + 1].part) == h;
    }
    if InChain(chain, t) {
      var i :| 0 <= i < |chain| && chain[i].part == t;
      assert more[i].part == t;
    }
  }

  // ---------- the invariant ----------

  /** The row holds the last grant, its version counts the rotations, and the previous pair,
      when set, is the predecessor of the current hash. */
  ghost predicate SessionOk(s: Session, chain: seq<Grant>) {
    && chain != [] && DistinctParts(chain) && s.version == |chain| - 1
    && s.hash == Sha(chain[|chain| - 1].part) && s.expiresAt == chain[|chain| - 1].expiresAt
    && (s.prev.Some? ==> |chain| >= 2 && s.prev.value.hash == Sha(chain[|chain| - 2].part))
  }

  ghost predicate PendingOk(pending: map<Hash, Grant>, chain: seq<Grant>) {
    forall h :: h in pending ==> Succeeds(chain, h.part, pending[h])
  }

  /** How the hash a call works on relates to the token it presented. */
  ghost predicate Target(chain: seq<Grant>, t: TokenPart, h: Hash, viaGrace: bool) {
    if viaGrace then HashSucceeds(chain, t, h) else h == Sha(t) && InChain(chain, t)
  }

  ghost predicate Answer(chain: seq<Grant>, t: TokenPart, g: Grant, rotated: bool) {
    if rotated then SucceedsTwice(chain, t, g) else Succeeds(chain, t, g)
  }

  ghost predicate PcOk(chain: seq<Grant>, t: TokenPart, pc: Pc) {
    match pc
    case Peeking(prev, h) => prev == Sha(t) && HashSucceeds(chain, t, h)
    case Locking(h, viaGrace) => Target(chain, t, h, viaGrace)
    case Polling(h, viaGrace) => Target(chain, t, h, viaGrace)
    case Rotating(h, viaGrace) => Target(chain, t, h, viaGrace)
    case Publishing(h, g, viaGrace) => Target(chain, t, h, viaGrace) && Succeeds(chain, h.part, g)
    case Fetching(h, viaGrace) => Target(chain, t, h, viaGrace)
    case Clearing(g, rotated) => Answer(chain, t, g, rotated)
    case Granted(g, rotated) => Answer(chain, t, g, rotated)
    case _ => true
  }

  ghost predicate CallsOk(calls: map<CallId, Call>, chain: seq<Grant>) {
    forall c :: c in calls ==> PcOk(chain, calls[c].t, calls[c].pc)
  }

  ghost predicate Inv(w: World) {
    SessionOk(w.session, w.chain) && PendingOk(w.pending, w.chain) && CallsOk(w.calls, w.chain)
  }

  lemma ObtainedOk(chain: seq<Grant>, t: TokenPart, h: Hash, g: Grant, viaGrace: bool)
    requires DistinctParts(chain) && Target(chain, t, h, viaGrace) && Succeeds(chain, h.part, g)
    ensures PcOk(chain, t, Obtained(g, viaGrace, viaGrace))
  {
    if viaGrace { TwoSteps(chain, t, h, g); }
  }

  lemma GotoKeeps(w: World, c: CallId, pc: Pc)
    requires Inv(w) && c in w.calls && PcOk(w.chain, w.calls[c].t, pc)
    ensures Inv(Goto(w, c, pc))
  {
  }

  lemma DecideOk(s: Session, chain: seq<Grant>, t: TokenPart, now: Time, limited: bool, suspicious: bool)
    requires SessionOk(s, chain)
    ensures PcOk(chain, t, Decide(s, t, now, limited, suspicious))
  {
    var n := |chain|;
    assert chain[n - 1].part == s.hash.part;
    if InGrace(s, t, now) { assert chain[n - 2].part == t && Sha(chain[n - 2 + 1].part) == s.hash; }
  }

  lemma PcGrows(chain: seq<Grant>, g: Grant, t: TokenPart, pc: Pc)
    requires PcOk(chain, t, pc)
    ensures PcOk(chain + [g], t, pc)
  {
    ChainGrows(chain, g, t);
    if pc.Publishing? { ChainGrows(chain, g, pc.h.part); }
  }

  lemma ChainGrowsInv(w: World, g: Grant)
    requires PendingOk(w.pending, w.chain) && CallsOk(w.calls, w.chain)
    ensures PendingOk(w.pending, w.chain + [g]) && CallsOk(w.calls, w.chain + [g])
  {
    forall h | h in w.pending ensures Succeeds(w.chain + [g], h.part, w.pending[h]) { ChainGrows(w.chain, g, h.part); }
    forall c | c in w.calls ensures PcOk(w.chain + [g], w.calls[c].t, w.calls[c].pc) {
      PcGrows(w.chain, g, w.calls[c].t, w.calls[c].pc);
    }
  }

  lemma SwappedOk(s: Session, chain: seq<Grant>, h: Hash, g: Grant, now: Time, cfg: Config)
    requires SessionOk(s, chain) && Swaps(s, h) && Grantable(chain, g.part)
    ensures SessionOk(Swapped(s, h, g, now, cfg), chain + [g]) && Succeeds(chain + [g], h.part, g)
  {
    var more := chain + [g];
    assert more[|chain| - 1].part == h.part && more[|chain| - 1 + 1] == g;
  }

  lemma ExtendKeeps(w: World, s: Session, g: Grant)
    requires Inv(w) && SessionOk(s, w.chain + [g])
    ensures Inv(Extend(w, s, g))
  {
    ChainGrowsInv(w, g);
  }

  lemma PublishingOk(w: World, t: TokenPart, h: Hash, viaGrace: bool, g: Grant, now: Time, cfg: Config)
    requires SessionOk(w.session, w.chain) && Target(w.chain, t, h, viaGrace)
    requires Swaps(w.session, h) && Grantable(w.chain, g.part) && g.expiresAt == now + cfg.refreshTtlMs
    ensures SessionOk(Swapped(w.session, h, g, now, cfg), w.chain + [g])
    ensures PcOk(w.chain + [g], t, Publishing(h, g, viaGrace))
  {
    SwappedOk(w.session, w.chain, h, g, now, cfg);
    PcGrows(w.chain, g, t, Rotating(h, viaGrace));
  }

  lemma GrantKeeps(w: World, c: CallId, s: Session, g: Grant, pc: Pc)
    requires Inv(w) && c in w.calls && SessionOk(s, w.chain + [g]) && PcOk(w.chain + [g], w.calls[c].t, pc)
    ensures Inv(Goto(Extend(w, s, g), c, pc))
  {
    ExtendKeeps(w, s, g);
    GotoKeeps(Extend(w, s, g), c, pc);
  }

  lemma SwapWins(w: World, c: CallId, h: Hash, viaGrace: bool, g: Grant, now: Time, cfg: Config)
    requires Inv(w) && c in w.calls && Target(w.chain, w.calls[c].t, h, viaGrace) && Grantable(w.chain, g.part)
    requires Swaps(w.session, h) && g.expiresAt == now + cfg.refreshTtlMs
    ensures Inv(GrantTurn(w, c, h, viaGrace, g, now, cfg))
  {
    PublishingOk(w, w.calls[c].t, h, viaGrace, g, now, cfg);
    GrantKeeps(w, c, Swapped(w.session, h, g, now, cfg), g, Publishing(h, g, viaGrace));
  }

  lemma SwapLoses(w: World, c: CallId, h: Hash, viaGrace: bool)
    requires Inv(w) && c in w.calls && Target(w.chain, w.calls[c].t, h, viaGrace)
    ensures Inv(Goto(w, c, Fetching(h, viaGrace)))
  {
    GotoKeeps(w, c, Fetching(h, viaGrace));
  }

  lemma SwapTurnKeeps(w: World, c: CallId, h: Hash, viaGrace: bool, minted: TokenPart, now: Time, cfg: Config)
    requires Inv(w) && c in w.calls && Target(w.chain, w.calls[c].t, h, viaGrace) && Grantable(w.chain, minted)
    ensures Inv(SwapTurn(w, c, h, viaGrace, minted, now, cfg))
  {
    if Swaps(w.session, h) {
      SwapWins(w, c, h, viaGrace, Grant(minted, now + cfg.refreshTtlMs), now, cfg);
    } else {
      SwapLoses(w, c, h, viaGrace);
    }
  }

  lemma SwapKeeps(w: World, cfg: Config, c: CallId, minted: TokenPart, now: Time)
    requires Inv(w)
    ensures Inv(Advance(w, cfg, Swap(c, minted, now)))
  {
    if c in w.calls && w.calls[c].pc.Rotating? && Grantable(w.chain, minted) {
      var Rotating(h, viaGrace) := w.calls[c].pc;
      assert PcOk(w.chain, w.calls[c].t, Rotating(h, viaGrace));
      SwapTurnKeeps(w, c, h, viaGrace, minted, now, cfg);
    }
  }

  lemma PublishKeeps(w: World, cfg: Config, c: CallId, stored: bool)
    requires Inv(w)
    ensures Inv(Advance(w, cfg, Publish(c, stored)))
  {
    if c in w.calls && w.calls[c].pc.Publishing? {
      var Publishing(h, g, viaGrace) := w.calls[c].pc;
      assert PcOk(w.chain, w.calls[c].t, w.calls[c].pc);
      ObtainedOk(w.chain, w.calls[c].t, h, g, viaGrace);
      GotoKeeps(if stored then w.(pending := w.pending[h := g]) else w, c, Obtained(g, viaGrace, viaGrace));
    }
  }

  lemma PendingAnswer(w: World, c: CallId, h: Hash, viaGrace: bool)
    requires Inv(w) && c in w.calls && Target(w.chain, w.calls[c].t, h, viaGrace) && h in w.pending
    ensures Inv(Goto(w, c, Obtained(w.pending[h], viaGrace, viaGrace)))
  {
    ObtainedOk(w.chain, w.calls[c].t, h, w.pending[h], viaGrace);
    GotoKeeps(w, c, Obtained(w.pending[h], viaGrace, viaGrace));
  }

  lemma PeekKeeps(w: World, cfg: Config, c: CallId)
    requires Inv(w)
    ensures Inv(Advance(w, cfg, Peek(c)))
  {
    if c in w.calls && w.calls[c].pc.Peeking? {
      var Peeking(prev, h) := w.calls[c].pc;
      assert PcOk(w.chain, w.calls[c].t, Peeking(prev, h));
      GotoKeeps(w, c, if prev in w.pending then Clearing(w.pending[prev], false) else Locking(h, true));
    }
  }

  lemma LockKeeps(w: World, cfg: Config, c: CallId, got: bool)
    requires Inv(w)
    ensures Inv(Advance(w, cfg, TryLock(c, got)))
  {
    if c in w.calls && w.calls[c].pc.Locking? {
      var Locking(h, viaGrace) := w.calls[c].pc;
      assert PcOk(w.chain, w.calls[c].t, Locking(h, viaGrace));
      GotoKeeps(w, c, if got then Rotating(h, viaGrace) else Polling(h, viaGrace));
    }
  }

  lemma PollKeeps(w: World, cfg: Config, c: CallId)
    requires Inv(w)
    ensures Inv(Advance(w, cfg, Poll(c))) && Inv(Advance(w, cfg, GiveUpPolling(c)))
  {
    if c in w.calls && w.calls[c].pc.Polling? {
      var Polling(h, viaGrace) := w.calls[c].pc;
      assert PcOk(w.chain, w.calls[c].t, Polling(h, viaGrace));
      GotoKeeps(w, c, Rotating(h, viaGrace));
      if h in w.pending { PendingAnswer(w, c, h, viaGrace); }
    }
  }

  lemma FetchKeeps(w: World, cfg: Config, c: CallId)
    requires Inv(w)
    ensures Inv(Advance(w, cfg, Fetch(c)))
  {
    if c in w.calls && w.calls[c].pc.Fetching? {
      var Fetching(h, viaGrace) := w.calls[c].pc;
      assert PcOk(w.chain, w.calls[c].t, Fetching(h, viaGrace));
      if h in w.pending { PendingAnswer(w, c, h, viaGrace); } else { GotoKeeps(w, c, Failed(Conflict)); }
    }
  }

  lemma SuspectKeeps(w: World, cfg: Config, c: CallId)
    requires Inv(w)
    ensures Inv(Advance(w, cfg, Suspect(c)))
  {
    if At(w, c) == Some(Suspecting) {
      GotoKeeps(w.(session := w.session.(approved := false)), c, Failed(ApprovalRequired));
    }
  }

  lemma ClearKeeps(w: World, cfg: Config, c: CallId, written: bool)
    requires Inv(w)
    ensures Inv(Advance(w, cfg, Clear(c, written)))
  {
    if c in w.calls && w.calls[c].pc.Clearing? {
      var Clearing(g, rotated) := w.calls[c].pc;
      assert PcOk(w.chain, w.calls[c].t, Clearing(g, rotated));
      GotoKeeps(if written then w.(session := w.session.(prev := None)) else w, c, Granted(g, rotated));
    }
  }

  lemma PunishKeeps(w: World, cfg: Config, c: CallId)
    requires Inv(w)
    ensures Inv(Advance(w, cfg, Punish(c)))
  {
    if c in w.calls && w.calls[c].pc.Punishing? {
      GotoKeeps(w.(session := w.session.(revoked := true)), c, Punishing(true, false));
      GotoKeeps(w.(accessVersion := w.accessVersion + 1), c, Punishing(true, true));
      GotoKeeps(w.(userLocked := true), c, Failed(InvalidToken));
    }
  }

  lemma CrashKeeps(w: World, cfg: Config, c: CallId)
    requires Inv(w)
    ensures Inv(Advance(w, cfg, Crash(c)))
  {
  }

  lemma AdvanceKeeps(w: World, cfg: Config, turn: Turn)
    requires Inv(w)
    ensures Inv(Advance(w, cfg, turn))
  {
    match turn
    case Read(c, t, now, limited, suspicious) => DecideOk(w.session, w.chain, t, now, limited, suspicious);
    case Suspect(c) => SuspectKeeps(w, cfg, c);
    case Clear(c, written) => ClearKeeps(w, cfg, c, written);
    case Punish(c) => PunishKeeps(w, cfg, c);
    case Crash(c) => CrashKeeps(w, cfg, c);
    case Swap(c, minted, now) => SwapKeeps(w, cfg, c, minted, now);
    case Publish(c, stored) => PublishKeeps(w, cfg, c, stored);
    case Peek(c) => PeekKeeps(w, cfg, c);
    case TryLock(c, got) => LockKeeps(w, cfg, c, got);
    case Poll(c) => PollKeeps(w, cfg, c);
    case GiveUpPolling(c) => PollKeeps(w, cfg, c);
    case Fetch(c) => FetchKeeps(w, cfg, c);
    case _ =>
  }

  /** In every interleaving: one chain of distinct hashes of length version + 1 that ends in
      the current one, the previous hash is its predecessor, and a pending entry for a hash
      holds that hash's one successor. */
  lemma {:induction false} RotationKeepsChain(w: World, cfg: Config, turns: seq<Turn>)
    requires Inv(w)
    ensures Inv(Schedule(w, cfg, turns))
    decreases |turns|
  {
    if turns != [] {
      AdvanceKeeps(w, cfg, turns[0]);
      RotationKeepsChain(Advance(w, cfg, turns[0]), cfg, turns[1..]);
    }
  }

  lemma NewSessionOk(first: TokenPart, now: Time, cfg: Config)
    ensures Inv(NewSession(first, now, cfg))
  {
  }

  // ---------- what follows for every run ----------

  /** Whoever got a grant presented a token of the session and got its successor, or, on the
      grace fallback only, its successor's successor.  Winners of the same kind for one token
      got the same grant. */
  lemma WinnersAgree(first: TokenPart, now: Time, cfg: Config, turns: seq<Turn>, c: CallId, d: CallId)
    requires var w := Schedule(NewSession(first, now, cfg), cfg, turns);
             c in w.calls && d in w.calls && w.calls[c].pc.Granted? && w.calls[d].pc.Granted?
    ensures var w := Schedule(NewSession(first, now, cfg), cfg, turns);
            var x, y := w.calls[c], w.calls[d];
            && Answer(w.chain, x.t, x.pc.g, x.pc.rotated)
            && (x.t == y.t && x.pc.rotated == y.pc.rotated ==> x.pc.g == y.pc.g)
            && (x.pc.g == y.pc.g && !x.pc.rotated && !y.pc.rotated ==> x.t == y.t)
  {
    var w := Schedule(NewSession(first, now, cfg), cfg, turns);
    NewSessionOk(first, now, cfg);
    RotationKeepsChain(NewSession(first, now, cfg), cfg, turns);
    var x, y := w.calls[c], w.calls[d];
    assert PcOk(w.chain, x.t, x.pc) && PcOk(w.chain, y.t, y.pc);
    if !x.pc.rotated && !y.pc.rotated { SuccessorUnique(w.chain, x.t, y.t, x.pc.g, y.pc.g); }
    if x.pc.rotated && y.pc.rotated && x.t == y.t { SecondSuccessorUnique(w.chain, x.t, x.pc.g, y.pc.g); }
  }

  lemma StaysDirect(w: World, cfg: Config, turn: Turn, c: CallId)
    requires c in w.calls && DirectOnly(w.calls[c].pc) && turn != Crash(c)
    ensures var w1 := Advance(w, cfg, turn); c in w1.calls && DirectOnly(w1.calls[c].pc)
  {
  }

  /** The grace fallback is only ever taken by a call that read its token as the previous one. */
  lemma {:induction false} FallbackNeedsGrace(w: World, cfg: Config, turns: seq<Turn>, c: CallId)
    requires c in w.calls && DirectOnly(w.calls[c].pc) && Crash(c) !in turns
    ensures var w' := Schedule(w, cfg, turns); c in w'.calls && DirectOnly(w'.calls[c].pc)
    decreases |turns|
  {
    if turns != [] {
      assert turns[0] in turns;
      StaysDirect(w, cfg, turns[0], c);
      FallbackNeedsGrace(Advance(w, cfg, turns[0]), cfg, turns[1..], c);
    }
  }

  /** A call on the path of the current hash. */
  predicate DirectOnly(pc: Pc) {
    match pc
    case Locking(_, viaGrace) => !viaGrace
    case Polling(_, viaGrace) => !viaGrace
    case Rotating(_, viaGrace) => !viaGrace
    case Publishing(_, _, viaGrace) => !viaGrace
    case Fetching(_, viaGrace) => !viaGrace
    case Granted(_, rotated) => !rotated
    case Failed(_) => true
    case _ => false
  }

  /** Everything of the row except the previous pair and the approval. */
  predicate SameRow(s: Session, s': Session) {
    s'.hash == s.hash && s'.version == s.version && s'.expiresAt == s.expiresAt && s'.revoked == s.revoked
  }

  lemma RevokedStays(w: World, cfg: Config, turn: Turn)
    requires w.session.revoked
    ensures var w1 := Advance(w, cfg, turn); SameRow(w.session, w1.session) && w1.chain == w.chain
  {
  }

  /** A revoked session grants nothing more, whatever comes after and whatever was under way. */
  lemma {:induction false} RevokedIsFrozen(w: World, cfg: Config, turns: seq<Turn>)
    requires w.session.revoked
    ensures var w' := Schedule(w, cfg, turns);
            SameRow(w.session, w'.session) && w'.chain == w.chain
    decreases |turns|
  {
    if turns != [] {
      RevokedStays(w, cfg, turns[0]);
      RevokedIsFrozen(Advance(w, cfg, turns[0]), cfg, turns[1..]);
    }
  }

  /** What a call that detected reuse has done so far. */
  predicate PenaltyOk(w: World, call: Call) {
    && call.seenVersion <= w.accessVersion
    && (call.pc.Punishing? && call.pc.revoked ==> w.session.revoked)
    && (call.pc.Punishing? && call.pc.bumped ==> w.session.revoked && call.seenVersion < w.accessVersion)
    && (call.pc == Failed(InvalidToken) ==> w.session.revoked && call.seenVersion < w.accessVersion)
  }

  ghost predicate Penalties(w: World) { forall c :: c in w.calls ==> PenaltyOk(w, w.calls[c]) }

  lemma AdvancePenalties(w: World, cfg: Config, turn: Turn)
    requires Penalties(w)
    ensures Penalties(Advance(w, cfg, turn))
  {
    var w' := Advance(w, cfg, turn);
    forall c | c in w'.calls ensures PenaltyOk(w', w'.calls[c]) {
      if c in w.calls { PenaltyStays(w, cfg, turn, c); }
    }
  }

  lemma PenaltyStays(w: World, cfg: Config, turn: Turn, c: CallId)
    requires c in w.calls && PenaltyOk(w, w.calls[c])
    ensures var w' := Advance(w, cfg, turn); c in w'.calls ==> PenaltyOk(w', w'.calls[c])
  {
    if turn.Punish? { PunishPenalty(w, cfg, turn, c); } else { OtherPenalty(w, cfg, turn, c); }
  }

  lemma PunishPenalty(w: World, cfg: Config, turn: Turn, c: CallId)
    requires c in w.calls && PenaltyOk(w, w.calls[c]) && turn.Punish?
    ensures var w' := Advance(w, cfg, turn); c in w'.calls ==> PenaltyOk(w', w'.calls[c])
  {
  }

  lemma OtherPenalty(w: World, cfg: Config, turn: Turn, c: CallId)
    requires c in w.calls && PenaltyOk(w, w.calls[c]) && !turn.Punish?
    ensures var w' := Advance(w, cfg, turn); c in w'.calls ==> PenaltyOk(w', w'.calls[c])
  {
  }

  predicate Detected(pc: Pc) { pc.Punishing? || pc == Failed(InvalidToken) }

  lemma StaysDetected(w: World, cfg: Config, turn: Turn, c: CallId)
    requires c in w.calls && Detected(w.calls[c].pc) && turn != Crash(c)
    ensures var w1 := Advance(w, cfg, turn);
            c in w1.calls && Detected(w1.calls[c].pc) && w1.calls[c].seenVersion == w.calls[c].seenVersion
  {
  }

  /** A call that read a token neither current nor in grace is never granted anything; and
      when it ends, the session is revoked and the access version was raised since it began. */
  lemma {:induction false} ReuseIsPunished(w: World, cfg: Config, turns: seq<Turn>, c: CallId)
    requires Penalties(w) && c in w.calls && Detected(w.calls[c].pc) && Crash(c) !in turns
    ensures var w' := Schedule(w, cfg, turns);
            && Penalties(w') && c in w'.calls && Detected(w'.calls[c].pc)
            && (w'.calls[c].pc.Failed? ==> w'.session.revoked && w.calls[c].seenVersion < w'.accessVersion)
    decreases |turns|
  {
    if turns == [] {
      assert PenaltyOk(w, w.calls[c]);
    } else {
      assert turns[0] in turns;
      AdvancePenalties(w, cfg, turns[0]);
      StaysDetected(w, cfg, turns[0], c);
      ReuseIsPunished(Advance(w, cfg, turns[0]), cfg, turns[1..], c);
    }
  }

  /** The branch a call takes at its row read, as a condition on the chain: reuse is detected
      exactly for tokens that are neither the last part nor, in grace, the one before it. */
  lemma ReuseDetectedIff(w: World, t: TokenPart, now: Time)
    requires Inv(w) && !w.session.revoked && w.session.approved && w.session.expiresAt > now
    ensures var n := |w.chain|;
            Decide(w.session, t, now, false, false).Punishing?
            <==> t != w.chain[n - 1].part
                 && !(n >= 2 && t == w.chain[n - 2].part && w.session.prev.Some?
                    && w.session.prev.value.graceUntil > now)
  {
  }

  lemma StaysUndetected(w: World, cfg: Config, turn: Turn, c: CallId)
    requires c in w.calls && !Detected(w.calls[c].pc) && turn != Crash(c)
    ensures var w1 := Advance(w, cfg, turn); c in w1.calls && !Detected(w1.calls[c].pc)
  {
  }

  lemma {:induction false} NeverDetectedLater(w: World, cfg: Config, turns: seq<Turn>, c: CallId)
    requires c in w.calls && !Detected(w.calls[c].pc) && Crash(c) !in turns
    ensures var w' := Schedule(w, cfg, turns); c in w'.calls && !Detected(w'.calls[c].pc)
    decreases |turns|
  {
    if turns != [] {
      assert turns[0] in turns;
      StaysUndetected(w, cfg, turns[0], c);
      NeverDetectedLater(Advance(w, cfg, turns[0]), cfg, turns[1..], c);
    }
  }

  lemma {:induction false} PenaltiesHold(w: World, cfg: Config, turns: seq<Turn>)
    requires Penalties(w)
    ensures Penalties(Schedule(w, cfg, turns))
    decreases |turns|
  {
    if turns != [] {
      AdvancePenalties(w, cfg, turns[0]);
      PenaltiesHold(Advance(w, cfg, turns[0]), cfg, turns[1..]);
    }
  }

  // ---------- the grace window ----------

  /** When the session was created or last rotated, and whether the pair of that rotation has
      not been cleared since.  Both are read off the turns, not off the row. */
  datatype Window = Window(rotatedAt: Time, open: bool)

  function NextWindow(w: World, cfg: Config, turn: Turn, win: Window): Window {
    if turn.Swap? && |Advance(w, cfg, turn).chain| > |w.chain| then Window(turn.now, true)
    else if turn.Clear? && turn.written && At(w, turn.c).Some? && At(w, turn.c).value.Clearing? then win.(open := false)
    else win
  }

  function WindowAfter(w: World, cfg: Config, turns: seq<Turn>, win: Window): Window
    decreases |turns|
  {
    if turns == [] then win
    else WindowAfter(Advance(w, cfg, turns[0]), cfg, turns[1..], NextWindow(w, cfg, turns[0], win))
  }

  /** The row shows the window: it expires the lifetime after the rotation, and its previous pair
      is usable for the grace time after it. */
  predicate ShowsWindow(s: Session, cfg: Config, win: Window) {
    && s.expiresAt == win.rotatedAt + cfg.refreshTtlMs
    && (s.prev.Some? <==> win.open)
    && (s.prev.Some? ==> s.prev.value.graceUntil == win.rotatedAt + cfg.graceMs)
  }

  lemma AdvanceShows(w: World, cfg: Config, turn: Turn, win: Window)
    requires ShowsWindow(w.session, cfg, win)
    ensures ShowsWindow(Advance(w, cfg, turn).session, cfg, NextWindow(w, cfg, turn, win))
  {
    if turn.Swap? { SwapShows(w, cfg, turn, win); }
  }

  lemma SwapShows(w: World, cfg: Config, turn: Turn, win: Window)
    requires ShowsWindow(w.session, cfg, win) && turn.Swap?
    ensures ShowsWindow(Advance(w, cfg, turn).session, cfg, NextWindow(w, cfg, turn, win))
  {
  }

  lemma {:induction false} ScheduleShows(w: World, cfg: Config, turns: seq<Turn>, win: Window)
    requires ShowsWindow(w.session, cfg, win)
    ensures ShowsWindow(Schedule(w, cfg, turns).session, cfg, WindowAfter(w, cfg, turns, win))
    decreases |turns|
  {
    if turns != [] {
      AdvanceShows(w, cfg, turns[0], win);
      ScheduleShows(Advance(w, cfg, turns[0]), cfg, turns[1..], NextWindow(w, cfg, turns[0], win));
    }
  }

  /** The window of a run from the creation of the session. */
  function WindowOf(first: TokenPart, start: Time, cfg: Config, turns: seq<Turn>): Window {
    WindowAfter(NewSession(first, start, cfg), cfg, turns, Window(start, false))
  }

  /** In every run from its creation, a session expires `refreshTtlMs` after its last rotation,
      and the token before the last is let through for `graceMs` after it at most. */
  lemma WindowHolds(first: TokenPart, start: Time, cfg: Config, turns: seq<Turn>)
    ensures var s := Schedule(NewSession(first, start, cfg), cfg, turns).session;
            var win := WindowOf(first, start, cfg, turns);
            && s.expiresAt == win.rotatedAt + cfg.refreshTtlMs && (s.prev.Some? <==> win.open)
            && (s.prev.Some? ==> s.prev.value.graceUntil == win.rotatedAt + cfg.graceMs)
  {
    ScheduleShows(NewSession(first, start, cfg), cfg, turns, Window(start, false));
  }

  /** The token is neither the last of the chain nor, less than the grace time after the last
      rotation and with its pair not cleared, the one before it. */
  ghost predicate Stale(chain: seq<Grant>, win: Window, cfg: Config, t: TokenPart, now: Time)
    requires chain != []
  {
    var n := |chain|;
    && t != chain[n - 1].part
    && !(n >= 2 && t == chain[n - 2].part && win.open && now < win.rotatedAt + cfg.graceMs)
  }

  /** The whole story of a token shown to a live session, over every run from its creation,
      whatever came before the row read (`pre`) and comes after it (`post`): the call is treated
      as reuse if and only if the token was stale at the read.  Then it is never granted
      anything, and once it has ended the session is revoked for good and the access version is
      above what it was at the read. */
  lemma ReuseEndsSessionIff(first: TokenPart, start: Time, cfg: Config, pre: seq<Turn>, read: Turn, post: seq<Turn>)
    requires read.Read? && !read.limited && !read.suspicious && Crash(read.c) !in post
    requires var w0 := Schedule(NewSession(first, start, cfg), cfg, pre);
             !w0.session.revoked && w0.session.approved && read.c !in w0.calls
    requires read.now < WindowOf(first, start, cfg, pre).rotatedAt + cfg.refreshTtlMs
    ensures var w0 := Schedule(NewSession(first, start, cfg), cfg, pre);
            var w := Schedule(Advance(w0, cfg, read), cfg, post);
            && w0.chain != [] && read.c in w.calls
            && var stale := Stale(w0.chain, WindowOf(first, start, cfg, pre), cfg, read.t, read.now);
               && (stale <==> Detected(w.calls[read.c].pc))
               && (stale && w.calls[read.c].pc.Failed? ==> w.session.revoked && w0.accessVersion < w.accessVersion)
  {
    var new0 := NewSession(first, start, cfg);
    var w0 := Schedule(new0, cfg, pre);
    NewSessionOk(first, start, cfg);
    RotationKeepsChain(new0, cfg, pre);
    PenaltiesHold(new0, cfg, pre);
    WindowHolds(first, start, cfg, pre);
    ReuseDetectedIff(w0, read.t, read.now);
    AdvancePenalties(w0, cfg, read);
    if Stale(w0.chain, WindowOf(first, start, cfg, pre), cfg, read.t, read.now) {
      ReuseIsPunished(Advance(w0, cfg, read), cfg, post, read.c);
    } else {
      NeverDetectedLater(Advance(w0, cfg, read), cfg, post, read.c);
    }
  }

  /** The end of a call that can come to nothing. */
  predicate Doomed(pc: Pc) { pc.Suspecting? || pc.Punishing? || pc.Failed? }

  lemma StaysDoomed(w: World, cfg: Config, turn: Turn, c: CallId)
    requires c in w.calls && Doomed(w.calls[c].pc) && turn != Crash(c)
    ensures var w1 := Advance(w, cfg, turn); c in w1.calls && Doomed(w1.calls[c].pc)
  {
  }

  lemma {:induction false} DoomedForGood(w: World, cfg: Config, turns: seq<Turn>, c: CallId)
    requires c in w.calls && Doomed(w.calls[c].pc) && Crash(c) !in turns
    ensures var w' := Schedule(w, cfg, turns); c in w'.calls && Doomed(w'.calls[c].pc)
    decreases |turns|
  {
    hide Advance;
    if turns != [] {
      assert turns[0] in turns;
      StaysDoomed(w, cfg, turns[0], c);
      DoomedForGood(Advance(w, cfg, turns[0]), cfg, turns[1..], c);
    }
  }

  /** What a grant takes, over every run from the creation of the session: at its row read the
      session was live and approved, less than its lifetime had passed since the last rotation,
      the call was neither limited nor suspicious, and the token was not stale. */
  lemma GrantNeeds(first: TokenPart, start: Time, cfg: Config, pre: seq<Turn>, read: Turn, post: seq<Turn>)
    requires read.Read? && Crash(read.c) !in post
    requires read.c !in Schedule(NewSession(first, start, cfg), cfg, pre).calls
    requires var w := Schedule(Advance(Schedule(NewSession(first, start, cfg), cfg, pre), cfg, read), cfg, post);
             read.c in w.calls && w.calls[read.c].pc.Granted?
    ensures var w0 := Schedule(NewSession(first, start, cfg), cfg, pre);
            var win := WindowOf(first, start, cfg, pre);
            && !w0.session.revoked && w0.session.approved && read.now < win.rotatedAt + cfg.refreshTtlMs
            && !read.limited && !read.suspicious
            && w0.chain != [] && !Stale(w0.chain, win, cfg, read.t, read.now)
  {
    var new0 := NewSession(first, start, cfg);
    var w0 := Schedule(new0, cfg, pre);
    NewSessionOk(first, start, cfg);
    RotationKeepsChain(new0, cfg, pre);
    WindowHolds(first, start, cfg, pre);
    if Doomed(Decide(w0.session, read.t, read.now, read.limited, read.suspicious)) {
      DoomedForGood(Advance(w0, cfg, read), cfg, post, read.c);
    } else {
      ReuseDetectedIff(w0, read.t, read.now);
    }
  }

  // ---------- waiting for another call's grant ----------

  /** When the k-th look at the pending map happens: waits of 40, 80, 160, then 320 ms. */
  function PollTime(k: nat): nat {
    if k == 0 then 0 else if k == 1 then 40 else if k == 2 then 120 else 280 + 320 * (k - 3)
  }

  lemma PollTimes(k: nat)
    ensures PollTime(0) == 0 && PollTime(1) == 40 && PollTime(2) == 40 + 80 && PollTime(3) == 40 + 80 + 160
    ensures k >= 3 ==> PollTime(k + 1) == PollTime(k) + 320
  {
  }

  /** The polling loop of a call that did not get the lock; `seen` is what the pending map
      shows at each moment.  It returns the first grant seen, after so many looks in vain, or
      has looked at every poll time before the deadline. */
  method AwaitPending(ttlMs: nat, seen: nat -> Option<Grant>) returns (r: Option<Grant>, vain: nat)
    ensures forall j: nat :: j < vain ==> PollTime(j) < ttlMs && seen(PollTime(j)).None?
    ensures r.Some? ==> PollTime(vain) < ttlMs && seen(PollTime(vain)) == r
    ensures r.None? ==> PollTime(vain) >= ttlMs
  {
    var clock, wait := 0, 40;
    vain := 0;
    while clock < ttlMs
      invariant clock == PollTime(vain) && wait == PollTime(vain + 1) - PollTime(vain) && wait > 0
      invariant forall j: nat :: j < vain ==> PollTime(j) < ttlMs && seen(PollTime(j)).None?
      decreases ttlMs - clock
    {
      if seen(clock).Some? { return seen(clock), vain; }
      clock := clock + wait;
      wait := if wait * 2 < 320 then wait * 2 else 320;
      vain := vain + 1;
    }
    r := None;
  }

  // ---------- the service ----------

  /** The world with one call under way. */
  function With(w: World, call: Call): World { w.(calls := map[0 := call]) }

  lemma {:induction false} ScheduleConcat(w: World, cfg: Config, a: seq<Turn>, b: seq<Turn>)
    ensures Schedule(w, cfg, a + b) == Schedule(Schedule(w, cfg, a), cfg, b)
    decreases |a|
  {
    if a == [] {
      assert a + b == b;
    } else {
      ScheduleConcat(Advance(w, cfg, a[0]), cfg, a[1..], b);
      assert (a + b)[1..] == a[1..] + b;
    }
  }

  lemma OneTurn(w: World, cfg: Config, turn: Turn)
    ensures Schedule(w, cfg, [turn]) == Advance(w, cfg, turn)
  {
    assert [turn][1..] == [];
  }

  lemma GotoWith(w: World, call: Call, pc: Pc)
    ensures Goto(With(w, call), 0, pc) == With(w, call.(pc := pc))
  {
    assert map[0 := call][0 := call.(pc := pc)] == map[0 := call.(pc := pc)];
  }

  lemma ReadRun(w: World, cfg: Config, t: TokenPart, now: Time, limited: bool, suspicious: bool)
    requires w.calls == map[]
    ensures Schedule(w, cfg, [Read(0, t, now, limited, suspicious)])
            == With(w, Call(t, w.accessVersion, Decide(w.session, t, now, limited, suspicious)))
  {
    OneTurn(w, cfg, Read(0, t, now, limited, suspicious));
  }

  lemma SuspectRun(w: World, cfg: Config, call: Call)
    requires call.pc == Suspecting
    ensures Schedule(With(w, call), cfg, [Suspect(0)])
            == With(w.(session := w.session.(approved := false)), call.(pc := Failed(ApprovalRequired)))
  {
    OneTurn(With(w, call), cfg, Suspect(0));
    GotoWith(w.(session := w.session.(approved := false)), call, Failed(ApprovalRequired));
  }

  lemma PeekRun(w: World, cfg: Config, call: Call)
    requires call.pc.Peeking?
    ensures Schedule(With(w, call), cfg, [Peek(0)])
            == With(w, call.(pc := if call.pc.prev in w.pending then Clearing(w.pending[call.pc.prev], false)
                                   else Locking(call.pc.h, true)))
  {
    OneTurn(With(w, call), cfg, Peek(0));
    GotoWith(w, call, if call.pc.prev in w.pending then Clearing(w.pending[call.pc.prev], false)
      else Locking(call.pc.h, true));
  }

  lemma ClearRun(w: World, cfg: Config, call: Call)
    requires call.pc.Clearing?
    ensures Schedule(With(w, call), cfg, [Clear(0, true)])
            == With(w.(session := w.session.(prev := None)), call.(pc := Granted(call.pc.g, call.pc.rotated)))
  {
    OneTurn(With(w, call), cfg, Clear(0, true));
    GotoWith(w.(session := w.session.(prev := None)), call, Granted(call.pc.g, call.pc.rotated));
  }

  function Rotated(w: World, h: Hash, g: Grant, now: Time, cfg: Config, stored: bool): World {
    var w1 := Extend(w, Swapped(w.session, h, g, now, cfg), g);
    if stored then w1.(pending := w1.pending[h := g]) else w1
  }

  lemma RotateRun(w: World, cfg: Config, call: Call, minted: TokenPart, now: Time, stored: bool)
    requires call.pc.Locking? && Swaps(w.session, call.pc.h) && Grantable(w.chain, minted)
    ensures var g := Grant(minted, now + cfg.refreshTtlMs);
            Schedule(With(w, call), cfg, [TryLock(0, true)] + [Swap(0, minted, now)] + [Publish(0, stored)])
            == With(Rotated(w, call.pc.h, g, now, cfg, stored),
                    call.(pc := Obtained(g, call.pc.viaGrace, call.pc.viaGrace)))
  {
    var Locking(h, viaGrace) := call.pc;
    var g := Grant(minted, now + cfg.refreshTtlMs);
    var call1, call2 := call.(pc := Rotating(h, viaGrace)), call.(pc := Publishing(h, g, viaGrace));
    var w2 := Extend(w, Swapped(w.session, h, g, now, cfg), g);
    ScheduleConcat(With(w, call), cfg, [TryLock(0, true)] + [Swap(0, minted, now)], [Publish(0, stored)]);
    ScheduleConcat(With(w, call), cfg, [TryLock(0, true)], [Swap(0, minted, now)]);
    OneTurn(With(w, call), cfg, TryLock(0, true));
    GotoWith(w, call, Rotating(h, viaGrace));
    OneTurn(With(w, call1), cfg, Swap(0, minted, now));
    GotoWith(w2, call1, Publishing(h, g, viaGrace));
    OneTurn(With(w2, call2), cfg, Publish(0, stored));
    GotoWith(Rotated(w, h, g, now, cfg, stored), call2, Obtained(g, viaGrace, viaGrace));
  }

  function Punished(w: World): World {
    w.(session := w.session.(revoked := true), accessVersion := w.accessVersion + 1, userLocked := true)
  }

  lemma PunishRun(w: World, cfg: Config, call: Call)
    requires call.pc == Punishing(false, false)
    ensures Schedule(With(w, call), cfg, [Punish(0)] + [Punish(0)] + [Punish(0)])
            == With(Punished(w), call.(pc := Failed(InvalidToken)))
  {
    var w1 := w.(session := w.session.(revoked := true));
    var w2 := w1.(accessVersion := w1.accessVersion + 1);
    var call1, call2 := call.(pc := Punishing(true, false)), call.(pc := Punishing(true, true));
    ScheduleConcat(With(w, call), cfg, [Punish(0)] + [Punish(0)], [Punish(0)]);
    ScheduleConcat(With(w, call), cfg, [Punish(0)], [Punish(0)]);
    OneTurn(With(w, call), cfg, Punish(0));
    GotoWith(w1, call, Punishing(true, false));
    OneTurn(With(w1, call1), cfg, Punish(0));
    GotoWith(w2, call1, Punishing(true, true));
    OneTurn(With(w2, call2), cfg, Punish(0));
    GotoWith(w2.(userLocked := true), call2, Failed(InvalidToken));
  }

  function Outcome(r: Result<Grant, Error>, rotated: bool): Pc {
    match r case Ok(g) => Granted(g, rotated) case Err(e) => Failed(e)
  }

  /** The grace branch without interference. */
  function Followed(w: World, cfg: Config, redis: bool, now: Time, minted: TokenPart): (World, Grant)
    requires w.session.prev.Some?
  {
    var prev, g := w.session.prev.value.hash, Grant(minted, now + cfg.refreshTtlMs);
    if redis && prev in w.pending then (w.(session := w.session.(prev := None)), w.pending[prev])
    else
      var w1 := Rotated(w, w.session.hash, g, now, cfg, redis);
      (w1.(session := w1.session.(prev := None)), g)
  }

  /** One refresh without interference: the state afterwards and the answer. */
  function Solo(w: World, cfg: Config, redis: bool, t: TokenPart, now: Time, limited: bool, suspicious: bool,
                minted: TokenPart): (World, Result<Grant, Error>)
  {
    var g := Grant(minted, now + cfg.refreshTtlMs);
    match Decide(w.session, t, now, limited, suspicious)
    case Failed(e) => (w, Err(e))
    case Suspecting => (w.(session := w.session.(approved := false)), Err(ApprovalRequired))
    case Locking(h, _) => (Rotated(w, h, g, now, cfg, redis), Ok(g))
    case Peeking(_, _) =>
      var (w', g') := Followed(w, cfg, redis, now, minted);
      (w', Ok(g'))
    case _ => (Punished(w), Err(InvalidToken))
  }

  lemma RefreshKeeps(w0: World, cfg: Config, turns: seq<Turn>, w: World, call: Call)
    requires Inv(w0) && w.calls == map[] && Schedule(w0, cfg, turns) == With(w, call)
    ensures Inv(w) && PcOk(w.chain, call.t, call.pc)
  {
    RotationKeepsChain(w0, cfg, turns);
    assert With(w, call).calls[0] == call;
  }

  lemma RefusalIsRun(w: World, cfg: Config, t: TokenPart, now: Time, limited: bool, suspicious: bool)
    returns (turns: seq<Turn>)
    requires w.calls == map[]
    requires var pc := Decide(w.session, t, now, limited, suspicious); pc.Failed? || pc.Suspecting? || pc.Punishing?
    ensures var (w', r) := Solo(w, cfg, true, t, now, limited, suspicious, 0);
            r.Err? && Schedule(w, cfg, turns) == With(w', Call(t, w.accessVersion, Failed(r.error)))
  {
    var call := Call(t, w.accessVersion, Decide(w.session, t, now, limited, suspicious));
    turns := [Read(0, t, now, limited, suspicious)];
    ReadRun(w, cfg, t, now, limited, suspicious);
    if call.pc.Suspecting? {
      SuspectRun(w, cfg, call);
      ScheduleConcat(w, cfg, turns, [Suspect(0)]);
      turns := turns + [Suspect(0)];
    } else if call.pc.Punishing? {
      PunishRun(w, cfg, call);
      ScheduleConcat(w, cfg, turns, [Punish(0)] + [Punish(0)] + [Punish(0)]);
      turns := turns + ([Punish(0)] + [Punish(0)] + [Punish(0)]);
    }
  }

  lemma CurrentIsRun(w: World, cfg: Config, redis: bool, t: TokenPart, now: Time, minted: TokenPart)
    returns (turns: seq<Turn>)
    requires w.calls == map[] && Grantable(w.chain, minted) && Decide(w.session, t, now, false, false).Locking?
    ensures var (w', r) := Solo(w, cfg, redis, t, now, false, false, minted);
            r.Ok? && Schedule(w, cfg, turns) == With(w', Call(t, w.accessVersion, Granted(r.value, false)))
  {
    var call := Call(t, w.accessVersion, Locking(w.session.hash, false));
    var rotate := [TryLock(0, true)] + [Swap(0, minted, now)] + [Publish(0, redis)];
    ReadRun(w, cfg, t, now, false, false);
    RotateRun(w, cfg, call, minted, now, redis);
    ScheduleConcat(w, cfg, [Read(0, t, now, false, false)], rotate);
    turns := [Read(0, t, now, false, false)] + rotate;
  }

  lemma GraceIsRun(w: World, cfg: Config, redis: bool, t: TokenPart, now: Time, minted: TokenPart)
    returns (rotated: bool, turns: seq<Turn>)
    requires w.calls == map[] && Grantable(w.chain, minted) && (redis || w.pending == map[])
    requires Decide(w.session, t, now, false, false).Peeking?
    ensures var (w', r) := Solo(w, cfg, redis, t, now, false, false, minted);
            r.Ok? && Schedule(w, cfg, turns) == With(w', Call(t, w.accessVersion, Granted(r.value, rotated)))
  {
    var prev, h := w.session.prev.value.hash, w.session.hash;
    var call := Call(t, w.accessVersion, Peeking(prev, h));
    var g := Grant(minted, now + cfg.refreshTtlMs);
    turns := [Read(0, t, now, false, false)] + [Peek(0)];
    ReadRun(w, cfg, t, now, false, false);
    PeekRun(w, cfg, call);
    ScheduleConcat(w, cfg, [Read(0, t, now, false, false)], [Peek(0)]);
    rotated := prev !in w.pending;
    var w1 := w;
    if rotated {
      var rotate := [TryLock(0, true)] + [Swap(0, minted, now)] + [Publish(0, redis)];
      RotateRun(w, cfg, call.(pc := Locking(h, true)), minted, now, redis);
      ScheduleConcat(w, cfg, turns, rotate);
      turns := turns + rotate;
      w1 := Rotated(w, h, g, now, cfg, redis);
    }
    ClearRun(w1, cfg, call.(pc := Clearing(if rotated then g else w.pending[prev], rotated)));
    ScheduleConcat(w, cfg, turns, [Clear(0, true)]);
    turns := turns + [Clear(0, true)];
  }

  /** A refresh without interference is a run of the turns of one call. */
  lemma SoloIsRun(w: World, cfg: Config, redis: bool, t: TokenPart, now: Time, limited: bool, suspicious: bool,
                  minted: TokenPart)
    returns (rotated: bool, turns: seq<Turn>)
    requires Inv(w) && w.calls == map[] && Grantable(w.chain, minted) && (redis || w.pending == map[])
    ensures var (w', r) := Solo(w, cfg, redis, t, now, limited, suspicious, minted);
            && Schedule(w, cfg, turns) == With(w', Call(t, w.accessVersion, Outcome(r, rotated)))
            && Inv(w') && (r.Ok? ==> Answer(w'.chain, t, r.value, rotated))
  {
    hide Schedule;
    rotated := false;
    var pc := Decide(w.session, t, now, limited, suspicious);
    if pc.Locking? {
      turns := CurrentIsRun(w, cfg, redis, t, now, minted);
    } else if pc.Peeking? {
      rotated, turns := GraceIsRun(w, cfg, redis, t, now, minted);
    } else {
      turns := RefusalIsRun(w, cfg, t, now, limited, suspicious);
    }
    var (w', r) := Solo(w, cfg, redis, t, now, limited, suspicious, minted);
    RefreshKeeps(w, cfg, turns, w', Call(t, w.accessVersion, Outcome(r, rotated)));
  }

  /** When each refusal is given. */
  lemma SoloRefuses(w: World, cfg: Config, redis: bool, t: TokenPart, now: Time, limited: bool, suspicious: bool,
                    minted: TokenPart)
    requires Inv(w)
    ensures var s, (w', r) := w.session, Solo(w, cfg, redis, t, now, limited, suspicious, minted);
            var n := |w.chain|;
            && (r == Err(SessionRevoked) <==> s.revoked)
            && (r == Err(SessionExpired) <==> !s.revoked && s.expiresAt <= now)
            && (r == Err(TooManyRequests) <==> !s.revoked && now < s.expiresAt && s.approved && limited)
            && (r == Err(ApprovalRequired) <==>
                  !s.revoked && now < s.expiresAt && (!s.approved || (!limited && suspicious)))
            && (r == Err(InvalidToken) <==>
                  && !s.revoked && now < s.expiresAt && s.approved && !limited && !suspicious
                  && t != w.chain[n - 1].part
                  && !(s.prev.Some? && now < s.prev.value.graceUntil && t == w.chain[n - 2].part))
            && r != Err(Conflict)
            && (r == Err(ApprovalRequired) ==> w' == w.(session := s.(approved := false)))
            && (r == Err(InvalidToken) ==> w'.session == s.(revoked := true) && w'.userLocked
                                           && w'.accessVersion == w.accessVersion + 1 && w'.chain == w.chain)
            && (r.Err? && r.error != ApprovalRequired && r.error != InvalidToken ==> w' == w)
  {
  }

  /** What the last token gets: the new part, with the full lifetime, and its own hash kept for
      the grace time; the answer is kept for a retry. */
  lemma SoloRotates(w: World, cfg: Config, redis: bool, now: Time, minted: TokenPart)
    requires Inv(w) && !w.session.revoked && now < w.session.expiresAt && w.session.approved
    ensures var t, (w', r) := w.chain[|w.chain| - 1].part,
                              Solo(w, cfg, redis, w.chain[|w.chain| - 1].part, now, false, false, minted);
            var g := Grant(minted, now + cfg.refreshTtlMs);
            && r == Ok(g) && w'.chain == w.chain + [g]
            && w'.session == Session(Sha(minted), Some(Previous(Sha(t), now + cfg.graceMs)), w.session.version + 1,
                                     now + cfg.refreshTtlMs, false, true)
            && w'.pending == (if redis then w.pending[Sha(t) := g] else w.pending)
            && w'.accessVersion == w.accessVersion && w'.userLocked == w.userLocked
  {
  }

  /** A new session can be refreshed at once, with its first token, until its lifetime has passed. */
  lemma NewSessionRotates(first: TokenPart, start: Time, cfg: Config, redis: bool, now: Time, minted: TokenPart)
    ensures var w := NewSession(first, start, cfg);
            && Solo(w, cfg, redis, first, now, false, false, minted).1
               == (if now < start + cfg.refreshTtlMs then Ok(Grant(minted, now + cfg.refreshTtlMs))
                   else Err(SessionExpired))
            && w.accessVersion == 1 && !w.userLocked && w.chain == [Grant(first, start + cfg.refreshTtlMs)]
  {
  }

  /** A client that did not see the answer and sends its token again, within the grace time of
      the rotation, gets the same token (without Redis, one more); later than that, it loses
      the session. */
  lemma SoloRetry(w: World, cfg: Config, redis: bool, now: Time, minted: TokenPart, later: Time, minted': TokenPart)
    requires Inv(w) && !w.session.revoked && now < w.session.expiresAt && w.session.approved
    requires Grantable(w.chain, minted) && later < now + cfg.refreshTtlMs
    ensures var t := w.chain[|w.chain| - 1].part;
            var w1 := Solo(w, cfg, redis, t, now, false, false, minted).0;
            var (w2, r) := Solo(w1, cfg, redis, t, later, false, false, minted');
            if later < now + cfg.graceMs
            then r == Ok(if redis then Grant(minted, now + cfg.refreshTtlMs)
                         else Grant(minted', later + cfg.refreshTtlMs)) && w2.session.prev == None
            else r == Err(InvalidToken) && w2.session.revoked
  {
    SoloRotates(w, cfg, redis, now, minted);
    assert minted != w.chain[|w.chain| - 1].part;
  }

  class AuthService {
    var session: Session
    var pending: map<Hash, Grant>
    var accessVersion: nat
    var userLocked: bool
    const cfg: Config
    const redisEnabled: bool
    ghost var chain: seq<Grant>

    constructor (first: TokenPart, now: Time, cfg: Config, redisEnabled: bool)
      ensures this.cfg == cfg && View() == NewSession(first, now, cfg)
    {
      var g := Grant(first, now + cfg.refreshTtlMs);
      session := Session(Sha(first), None, 0, g.expiresAt, false, true);
      pending, accessVersion, userLocked, chain := map[], 1, false, [g];
      this.cfg, this.redisEnabled := cfg, redisEnabled;
    }

    ghost function View(): World
      reads this
    {
      World(session, pending, accessVersion, userLocked, map[], chain)
    }

    /** The conditional update, then the entry in the pending map. */
    method RotateRefreshTokenCAS(expectedOld: Hash, minted: TokenPart, now: Time) returns (r: Option<Grant>)
      modifies `session, `pending, `chain
      ensures var g := Grant(minted, now + cfg.refreshTtlMs);
              if old(session).hash == expectedOld && !old(session).revoked then
                && r == Some(g) && chain == old(chain) + [g]
                && session == Swapped(old(session), expectedOld, g, now, cfg)
                && pending == if redisEnabled then old(pending)[expectedOld := g] else old(pending)
              else r.None? && View() == old(View())
    {
      var g := Grant(minted, now + cfg.refreshTtlMs);
      if session.hash != expectedOld || session.revoked { return None; }
      session := session.(prev := Some(Previous(expectedOld, now + cfg.graceMs)), hash := Sha(minted),
                          version := session.version + 1, expiresAt := g.expiresAt);
      chain := chain + [g];
      if redisEnabled { pending := pending[expectedOld := g]; }
      r := Some(g);
    }

    method RevokeSession() returns (revoked: bool)
      modifies `session
      ensures revoked == !old(session).revoked && session == old(session).(revoked := true)
    {
      revoked := !session.revoked;
      session := session.(revoked := true);
    }

    method ReusePenalty()
      modifies `session, `accessVersion, `userLocked
      ensures View() == old(View()).(session := old(session).(revoked := true),
                                     accessVersion := old(accessVersion) + 1, userLocked := true)
    {
      var _ := RevokeSession();
      accessVersion := accessVersion + 1;
      userLocked := true;
    }

    /** The previous token inside its grace window: the pending grant if there is one, else
        one more rotation; the previous pair is cleared after either. */
    method AnswerInGrace(now: Time, minted: TokenPart) returns (g: Grant)
      requires !session.revoked && session.prev.Some?
      modifies this
      ensures (View(), g) == Followed(old(View()), cfg, redisEnabled, now, minted)
    {
      var prev := session.prev.value.hash;
      if redisEnabled && prev in pending {
        g := pending[prev];
      } else {
        var out := RotateRefreshTokenCAS(session.hash, minted, now);
        g := out.value;
      }
      session := session.(prev := None);
    }

    /** One refresh without interference; what it does is a run of the turns of one call. */
    method Refresh(t: TokenPart, now: Time, limited: bool, suspicious: bool, minted: TokenPart)
      returns (r: Result<Grant, Error>, ghost rotated: bool, ghost turns: seq<Turn>)
      requires Inv(View()) && Grantable(chain, minted) && (redisEnabled || pending == map[])
      modifies this
      ensures redisEnabled || pending == map[]
      ensures (View(), r) == Solo(old(View()), cfg, redisEnabled, t, now, limited, suspicious, minted)
      ensures Schedule(old(View()), cfg, turns) == With(View(), Call(t, old(accessVersion), Outcome(r, rotated)))
      ensures Inv(View()) && (r.Ok? ==> Answer(chain, t, r.value, rotated))
    {
      hide Schedule, Inv, Answer;
      rotated, turns := SoloIsRun(View(), cfg, redisEnabled, t, now, limited, suspicious, minted);
      if session.revoked { r := Err(SessionRevoked); }
      else if session.expiresAt <= now { r := Err(SessionExpired); }
      else if !session.approved { r := Err(ApprovalRequired); }
      else if limited { r := Err(TooManyRequests); }
      else if suspicious {
        session := session.(approved := false);
        r := Err(ApprovalRequired);
      } else if session.hash == Sha(t) {
        var out := RotateRefreshTokenCAS(session.hash, minted, now);
        r := Ok(out.value);
      } else if InGrace(session, t, now) {
        var g := AnswerInGrace(now, minted);
        r := Ok(g);
      } else {
        ReusePenalty();
        r := Err(InvalidToken);
      }
    }
  }
}
