/** The idempotency registry around `hold`: requests with a key try to create a registry row,
    and only the one that did runs the hold; the others read the row and reuse its answer,
    wait, or are refused. */
module Idempotency {
  import opened Common
  import opened NightBuckets
  import I = Inventory

  type RecId = nat
  type CallerId = nat
  type Time = int

  const MIN_KEY := 8

  datatype Scope = Scope(user: Option<string>, endpoint: string, key: string)

  /** What the request hash is computed from; hashing is taken to be injective. */
  datatype Payload = Payload(user: string, prop: string, checkIn: int, checkOut: int)

  /** The answer stored for reuse. */
  datatype Answer = Answer(id: I.Id, status: I.Status, totalPrice: int, holdExpiresAt: Option<int>)

  datatype Status = IN_PROGRESS | COMPLETED(answer: Answer) | FAILED

  datatype Record = Record(scope: Scope, hash: Payload, status: Status, expiresAt: Time)

  datatype Error =
    | KeyRequired | PayloadMismatch | PreviousFailed | InProgress | RowVanished | Rejected(cause: I.Error) | StoreFailed

  /** The unique constraint: it does not apply to rows without a user. */
  predicate Clash(reg: map<RecId, Record>, scope: Scope) {
    scope.user.Some? && exists id :: id in reg && reg[id].scope == scope
  }

  /** What an existing row says to a caller that could not create one. */
  function Verdict(rec: Record, hash: Payload): Result<Answer, Error> {
    if rec.hash != hash then Err(PayloadMismatch)
    else match rec.status
         case COMPLETED(answer) => Ok(answer)
         case FAILED => Err(PreviousFailed)
         case IN_PROGRESS => Err(InProgress)
  }

  // ---------- callers of hold ----------

  datatype Request = Request(key: string, payload: Payload)

  const HOLD_ENDPOINT := "POST /bookings/hold"

  function ScopeOf(q: Request): Scope { Scope(Some(q.payload.user), HOLD_ENDPOINT, q.key) }

  datatype Pc =
    | Creating
    | Finding
    | Running(rec: RecId)
    | Completing(rec: RecId, answer: Answer)
    | Failing(rec: RecId, error: Error)
    | Done(result: Result<Answer, Error>)

  datatype Caller = Caller(q: Request, pc: Pc)

  /** One execution of the hold transaction, as history. */
  datatype Run = Run(payload: Payload, answer: Answer, fa: I.Assessment, now: Time)

  /** `runs` and `minted`, the row ids given out so far, are history variables. */
  datatype World = World(db: I.Db, reg: map<RecId, Record>, callers: map<CallerId, Caller>,
                         runs: map<Scope, seq<Run>>, minted: set<RecId>)

  datatype Turn =
    | Start(c: CallerId, key: string, user: string, prop: string, from: DateInput, upto: DateInput)
    | Create(c: CallerId, rec: RecId, now: Time)
    | Find(c: CallerId, at: Option<RecId>)
    | Hold(c: CallerId, id: I.Id, fa: I.Assessment, now: Time)
    | Complete(c: CallerId, stored: bool)
    | Fail(c: CallerId)
    | Crash(c: CallerId)
    | Sweep(rec: RecId, now: Time)
    | Other(a: I.Action)

  datatype Config = Config(hold: I.Config, ttlMs: nat)

  function RunsOf(runs: map<Scope, seq<Run>>, s: Scope): seq<Run> { if s in runs then runs[s] else [] }

  /** Checks made before the registry is touched. */
  function Admit(cfg: Config, key: string, user: string, prop: string, from: DateInput, upto: DateInput)
    : Result<Request, Error>
  {
    var checkIn, checkOut := ToUtcBucket(cfg.hold.zone, from), ToUtcBucket(cfg.hold.zone, upto);
    if checkIn.None? || checkOut.None? then Err(Rejected(I.InvalidDate))
    else if Nights(checkIn.value, checkOut.value) <= 0 then Err(Rejected(I.InvalidRange))
    else if Nights(checkIn.value, checkOut.value) > MAX_NIGHTS then Err(Rejected(I.TooManyNights))
    else if |key| < MIN_KEY then Err(KeyRequired)
    else Ok(Request(key, Payload(user, prop, checkIn.value, checkOut.value)))
  }

  function HoldOf(cfg: Config, db: I.Db, p: Payload, id: I.Id, fa: I.Assessment, now: Time): (r: Result<I.Db, I.Error>)
    ensures r.Ok? ==> id in r.value.bookings && id !in db.bookings
  {
    if id in db.bookings then Err(I.NotAvailable)
    else I.HoldTx(cfg.hold, db, id, p.user, p.prop, p.checkIn, p.checkOut, fa, now)
  }

  function AnswerOf(db: I.Db, id: I.Id): Answer
    requires id in db.bookings
  {
    var b := db.bookings[id];
    Answer(id, b.status, b.totalPrice, b.holdExpiresAt)
  }

  function Goto(w: World, c: CallerId, pc: Pc): World
    requires c in w.callers
  {
    w.(callers := w.callers[c := w.callers[c].(pc := pc)])
  }

  function HoldTurn(w: World, cfg: Config, c: CallerId, rec: RecId, id: I.Id, fa: I.Assessment, now: Time): World
    requires c in w.callers
  {
    var q := w.callers[c].q;
    var r := HoldOf(cfg, w.db, q.payload, id, fa, now);
    if r.Err? then Goto(w, c, Failing(rec, Rejected(r.error)))
    else
      var answer := AnswerOf(r.value, id);
      var runs := RunsOf(w.runs, ScopeOf(q)) + [Run(q.payload, answer, fa, now)];
      Goto(w.(db := r.value, runs := w.runs[ScopeOf(q) := runs]),
           c, Completing(rec, answer))
  }

  function CreateTurn(w: World, c: CallerId, rec: RecId, expiresAt: Time): World
    requires c in w.callers
  {
    var q := w.callers[c].q;
    if Clash(w.reg, ScopeOf(q)) then Goto(w, c, Finding)
    else
      var row := Record(ScopeOf(q), q.payload, IN_PROGRESS, expiresAt);
      Goto(w.(reg := w.reg[rec := row], minted := w.minted + {rec}),
              c, Running(rec))
  }

  /** The row that blocked the creation, or none when it has been swept meanwhile. */
  function FindTurn(w: World, c: CallerId, at: Option<RecId>): World
    requires c in w.callers
  {
    var q := w.callers[c].q;
    match at
    case Some(rec) =>
      if rec in w.reg && w.reg[rec].scope == ScopeOf(q) then Goto(w, c, Done(Verdict(w.reg[rec], q.payload))) else w
    case None => if Clash(w.reg, ScopeOf(q)) then w else Goto(w, c, Done(Err(RowVanished)))
  }

  function SetStatus(reg: map<RecId, Record>, rec: RecId, st: Status): map<RecId, Record> {
    if rec in reg then reg[rec := reg[rec].(status := st)] else reg
  }

  /** Storing the answer; a failed store takes the same path as a failed hold. */
  function CompleteTurn(w: World, c: CallerId, rec: RecId, answer: Answer, stored: bool): World
    requires c in w.callers
  {
    if stored && rec in w.reg then Goto(w.(reg := SetStatus(w.reg, rec, COMPLETED(answer))), c, Done(Ok(answer)))
    else Goto(w, c, Failing(rec, StoreFailed))
  }

  function Advance(w: World, cfg: Config, turn: Turn): World {
    match turn
    case Start(c, key, user, prop, from, upto) =>
      if c in w.callers then w
      else
        var q := Admit(cfg, key, user, prop, from, upto);
        if q.Err? then w else w.(callers := w.callers[c := Caller(q.value, Creating)])
    case Create(c, rec, now) =>
      if c in w.callers && w.callers[c].pc == Creating && rec !in w.minted then
        CreateTurn(w, c, rec, now + cfg.ttlMs)
      else w
    case Find(c, at) =>
      if c in w.callers && w.callers[c].pc == Finding then FindTurn(w, c, at) else w
    case Hold(c, id, fa, now) =>
      if c in w.callers && w.callers[c].pc.Running? then HoldTurn(w, cfg, c, w.callers[c].pc.rec, id, fa, now) else w
    case Complete(c, stored) =>
      if c in w.callers && w.callers[c].pc.Completing? then
        CompleteTurn(w, c, w.callers[c].pc.rec, w.callers[c].pc.answer, stored)
      else w
    case Fail(c) =>
      if c in w.callers && w.callers[c].pc.Failing? then
        Goto(w.(reg := SetStatus(w.reg, w.callers[c].pc.rec, FAILED)), c, Done(Err(w.callers[c].pc.error)))
      else w
    case Crash(c) => w.(callers := w.callers - {c})
    case Sweep(rec, now) => if rec in w.reg && w.reg[rec].expiresAt < now then w.(reg := w.reg - {rec}) else w
    case Other(a) => w.(db := I.Step(cfg.hold, w.db, a))
  }

  function Schedule(w: World, cfg: Config, turns: seq<Turn>): World
    decreases |turns|
  {
    if turns == [] then w else Schedule(Advance(w, cfg, turns[0]), cfg, turns[1..])
  }

  // ---------- at most one run per scope ----------

  /** Holding the right to run: between the creation of the row and its final status. */
  predicate Holds(pc: Pc) { pc.Running? || pc.Completing? || pc.Failing? }

  predicate Mine(x: Caller, s: Scope) { ScopeOf(x.q) == s }

  /** A caller of scope `s`, given the runs of the scope so far. */
  ghost predicate CallerOk(reg: map<RecId, Record>, runs: seq<Run>, x: Caller) {
    && (Holds(x.pc) ==> x.pc.rec in reg && reg[x.pc.rec].scope == ScopeOf(x.q)
                        && reg[x.pc.rec].hash == x.q.payload && reg[x.pc.rec].status == IN_PROGRESS)
    && (x.pc.Running? ==> runs == [])
    && (x.pc.Completing? ==> Ran(runs, x.q.payload, x.pc.answer))
    && (x.pc.Done? && x.pc.result.Ok? ==> Ran(runs, x.q.payload, x.pc.result.value))
  }

  /** The one run of the scope was of this payload and gave this answer. */
  ghost predicate Ran(runs: seq<Run>, p: Payload, answer: Answer) {
    |runs| == 1 && runs[0].payload == p && runs[0].answer == answer
  }

  /** A row of scope `s`. */
  ghost predicate RecordOk(runs: seq<Run>, rec: Record) {
    && (rec.status.COMPLETED? ==> Ran(runs, rec.hash, rec.status.answer))
    && (runs != [] ==> runs[0].payload == rec.hash)
  }

  /** Rows and the callers that hold them belong together, across all scopes. */
  ghost predicate Linked(w: World) {
    && w.reg.Keys <= w.minted
    && forall c :: c in w.callers && Holds(w.callers[c].pc) ==>
         && w.callers[c].pc.rec in w.minted
         && (w.callers[c].pc.rec in w.reg ==> w.reg[w.callers[c].pc.rec].scope == ScopeOf(w.callers[c].q))
  }

  ghost predicate OneRow(reg: map<RecId, Record>, s: Scope) {
    forall a, b :: a in reg && b in reg && reg[a].scope == s && reg[b].scope == s ==> a == b
  }

  ghost predicate OneHolder(callers: map<CallerId, Caller>, s: Scope) {
    forall c, d :: HoldsFor(callers, c, s) && HoldsFor(callers, d, s) ==> c == d
  }

  predicate HoldsFor(callers: map<CallerId, Caller>, c: CallerId, s: Scope) {
    c in callers && Mine(callers[c], s) && Holds(callers[c].pc)
  }

  /** For a scope whose row is not swept: at most one run, one row, one caller in charge. */
  ghost predicate Inv(w: World, s: Scope) {
    var q := RunsOf(w.runs, s);
    && |q| <= 1 && (q != [] && s.user.Some? ==> Clash(w.reg, s))
    && OneRow(w.reg, s) && OneHolder(w.callers, s)
    && (forall a :: a in w.reg && w.reg[a].scope == s ==> RecordOk(q, w.reg[a]))
    && (forall c :: c in w.callers && Mine(w.callers[c], s) ==> CallerOk(w.reg, q, w.callers[c]))
  }

  /** Which requests are admitted, in a zone east of Greenwich: those for one to thirty nights with
      a key of eight characters at least; what is hashed is the user, the property and the two
      local midnights. */
  lemma AdmitIff(cfg: Config, key: string, user: string, prop: string, d: int, e: int)
    requires EastZone(cfg.hold.zone)
    ensures var r := Admit(cfg, key, user, prop, DateOnly(d), DateOnly(e));
            && (r.Ok? <==> d < e <= d + 30 && |key| >= 8)
            && (r.Ok? ==> r.value == Request(key, Payload(user, prop, d * MS_PER_DAY - cfg.hold.zone.midnightOffset(d),
                                                          e * MS_PER_DAY - cfg.hold.zone.midnightOffset(e))))
            && (r == Err(KeyRequired) <==> d < e <= d + 30 && |key| < 8)
            && (r == Err(Rejected(I.InvalidRange)) <==> e <= d)
            && (r == Err(Rejected(I.TooManyNights)) <==> d + 30 < e)
  {
    if d < e {
      WindowIsTheStay(cfg.hold.zone, d, e, d);
    } else if e < d {
      WindowIsTheStay(cfg.hold.zone, e, d, e);
    }
  }

  /** What runs for an admitted request is the hold of the bookings service for the same input. */
  lemma AdmittedRunsHold(cfg: Config, db: I.Db, key: string, user: string, prop: string,
                         from: DateInput, upto: DateInput, id: I.Id, fa: I.Assessment, now: Time)
    requires Admit(cfg, key, user, prop, from, upto).Ok? && id !in db.bookings
    ensures HoldOf(cfg, db, Admit(cfg, key, user, prop, from, upto).value.payload, id, fa, now)
            == I.HoldOp(cfg.hold, db, id, user, prop, from, upto, fa, now)
  {
  }

  /** And its answer is what the tables say about the booking. */
  lemma AnswerIsBooking(w: World, cfg: Config, c: CallerId, rec: RecId, id: I.Id, fa: I.Assessment, now: Time)
    requires c in w.callers && HoldOf(cfg, w.db, w.callers[c].q.payload, id, fa, now).Ok?
    ensures var w' := HoldTurn(w, cfg, c, rec, id, fa, now);
            && id in w'.db.bookings && c in w'.callers && w'.callers[c].pc.Completing?
            && var a, b := w'.callers[c].pc.answer, w'.db.bookings[id];
               a.id == id && a.status == b.status && a.totalPrice == b.totalPrice && a.holdExpiresAt == b.holdExpiresAt
  {
  }

  lemma GotoKeeps(w: World, s: Scope, c: CallerId, pc: Pc)
    requires Linked(w) && Inv(w, s) && c in w.callers
    requires Holds(pc) ==> Holds(w.callers[c].pc) && pc.rec == w.callers[c].pc.rec
    requires Mine(w.callers[c], s) ==> CallerOk(w.reg, RunsOf(w.runs, s), w.callers[c].(pc := pc))
    ensures Linked(Goto(w, c, pc)) && Inv(Goto(w, c, pc), s)
  {
    var w' := Goto(w, c, pc);
    forall d, e | HoldsFor(w'.callers, d, s) && HoldsFor(w'.callers, e, s) ensures d == e {
      assert HoldsFor(w.callers, d, s) && HoldsFor(w.callers, e, s);
    }
  }

  /** The caller in charge sets its row's final status and is done. */
  lemma FinishKeeps(w: World, s: Scope, c: CallerId, st: Status, pc: Pc)
    requires Linked(w) && Inv(w, s) && c in w.callers && Holds(w.callers[c].pc) && !Holds(pc)
    requires Mine(w.callers[c], s) ==> CallerOk(w.reg, RunsOf(w.runs, s), w.callers[c].(pc := pc))
    requires Mine(w.callers[c], s) && st.COMPLETED? ==> Ran(RunsOf(w.runs, s), w.callers[c].q.payload, st.answer)
    ensures var w' := Goto(w.(reg := SetStatus(w.reg, w.callers[c].pc.rec, st)), c, pc); Linked(w') && Inv(w', s)
  {
    var rec := w.callers[c].pc.rec;
    var reg' := SetStatus(w.reg, rec, st);
    var w' := Goto(w.(reg := reg'), c, pc);
    forall a | a in reg' && reg'[a].scope == s ensures RecordOk(RunsOf(w.runs, s), reg'[a]) {
      assert RecordOk(RunsOf(w.runs, s), w.reg[a]);
    }
    forall d | d in w'.callers && Mine(w'.callers[d], s) ensures CallerOk(reg', RunsOf(w.runs, s), w'.callers[d]) {
      if d != c && Holds(w.callers[d].pc) {
        assert CallerOk(w.reg, RunsOf(w.runs, s), w.callers[d]);
        if w.callers[d].pc.rec == rec { assert HoldsFor(w.callers, c, s) && HoldsFor(w.callers, d, s); }
      }
    }
    forall d, e | HoldsFor(w'.callers, d, s) && HoldsFor(w'.callers, e, s) ensures d == e {
      assert HoldsFor(w.callers, d, s) && HoldsFor(w.callers, e, s);
    }
    if Clash(w.reg, s) { var id :| id in w.reg && w.reg[id].scope == s; assert id in reg' && reg'[id].scope == s; }
  }

  lemma StartKeeps(w: World, s: Scope, c: CallerId, q: Request)
    requires Linked(w) && Inv(w, s) && c !in w.callers
    ensures var w' := w.(callers := w.callers[c := Caller(q, Creating)]); Linked(w') && Inv(w', s)
  {
    var w' := w.(callers := w.callers[c := Caller(q, Creating)]);
    forall d, e | HoldsFor(w'.callers, d, s) && HoldsFor(w'.callers, e, s) ensures d == e {
      assert HoldsFor(w.callers, d, s) && HoldsFor(w.callers, e, s);
    }
  }

  lemma NewRow(w: World, s: Scope, c: CallerId, rec: RecId, expiresAt: Time)
    requires Linked(w) && Inv(w, s) && c in w.callers && w.callers[c].pc == Creating && rec !in w.minted
    requires !Clash(w.reg, ScopeOf(w.callers[c].q))
    ensures Linked(CreateTurn(w, c, rec, expiresAt)) && Inv(CreateTurn(w, c, rec, expiresAt), s)
  {
    var q := w.callers[c].q;
    var w' := CreateTurn(w, c, rec, expiresAt);
    var mine := Mine(w.callers[c], s);
    if mine { assert forall a :: a in w.reg ==> w.reg[a].scope != s; }
    forall d | d in w'.callers && Mine(w'.callers[d], s) ensures CallerOk(w'.reg, RunsOf(w.runs, s), w'.callers[d]) {
      if d != c { assert CallerOk(w.reg, RunsOf(w.runs, s), w.callers[d]); }
    }
    forall d, e | HoldsFor(w'.callers, d, s) && HoldsFor(w'.callers, e, s) ensures d == e {
      if d != c { assert HoldsFor(w.callers, d, s); }
      if e != c { assert HoldsFor(w.callers, e, s); }
    }
    if Clash(w.reg, s) { var id :| id in w.reg && w.reg[id].scope == s; assert id in w'.reg && w'.reg[id].scope == s; }
  }

  lemma CreateKeeps(w: World, s: Scope, c: CallerId, rec: RecId, expiresAt: Time)
    requires Linked(w) && Inv(w, s) && c in w.callers && w.callers[c].pc == Creating && rec !in w.minted
    ensures Linked(CreateTurn(w, c, rec, expiresAt)) && Inv(CreateTurn(w, c, rec, expiresAt), s)
  {
    if Clash(w.reg, ScopeOf(w.callers[c].q)) { GotoKeeps(w, s, c, Finding); } else { NewRow(w, s, c, rec, expiresAt); }
  }

  lemma FindKeeps(w: World, s: Scope, c: CallerId, at: Option<RecId>)
    requires Linked(w) && Inv(w, s) && c in w.callers && w.callers[c].pc == Finding
    ensures Linked(FindTurn(w, c, at)) && Inv(FindTurn(w, c, at), s)
  {
    var q := w.callers[c].q;
    match at
    case Some(rec) =>
      if rec in w.reg && w.reg[rec].scope == ScopeOf(q) {
        if Mine(w.callers[c], s) { assert RecordOk(RunsOf(w.runs, s), w.reg[rec]); }
        GotoKeeps(w, s, c, Done(Verdict(w.reg[rec], q.payload)));
      }
    case None =>
      if !Clash(w.reg, ScopeOf(q)) { GotoKeeps(w, s, c, Done(Err(RowVanished))); }
  }

  /** The run is recorded and its caller moves on. */
  lemma RunKeeps(w: World, s: Scope, c: CallerId, db: I.Db, run: Run)
    requires Linked(w) && Inv(w, s) && c in w.callers && w.callers[c].pc.Running?
             && run.payload == w.callers[c].q.payload
    ensures var t := ScopeOf(w.callers[c].q);
            var w' := Goto(w.(db := db, runs := w.runs[t := RunsOf(w.runs, t) + [run]]), c,
                           Completing(w.callers[c].pc.rec, run.answer));
            Linked(w') && Inv(w', s)
  {
    var t := ScopeOf(w.callers[c].q);
    var w1 := w.(db := db, runs := w.runs[t := RunsOf(w.runs, t) + [run]]);
    var pc := Completing(w.callers[c].pc.rec, run.answer);
    var w' := Goto(w1, c, pc);
    forall d, e | HoldsFor(w'.callers, d, s) && HoldsFor(w'.callers, e, s) ensures d == e {
      assert HoldsFor(w.callers, d, s) && HoldsFor(w.callers, e, s);
    }
    if t == s {
      var rec := w.callers[c].pc.rec;
      assert CallerOk(w.reg, RunsOf(w.runs, s), w.callers[c]);
      assert RunsOf(w'.runs, s) == [run];
      forall a | a in w.reg && w.reg[a].scope == s ensures RecordOk([run], w.reg[a]) { assert a == rec; }
      forall d | d in w'.callers && Mine(w'.callers[d], s) ensures CallerOk(w.reg, [run], w'.callers[d]) {
        assert CallerOk(w.reg, [], w.callers[d]);
        if d != c && Holds(w.callers[d].pc) { assert HoldsFor(w.callers, c, s) && HoldsFor(w.callers, d, s); }
      }
    } else {
      assert RunsOf(w'.runs, s) == RunsOf(w.runs, s);
    }
  }

  lemma HoldKeeps(w: World, cfg: Config, s: Scope, c: CallerId, id: I.Id, fa: I.Assessment, now: Time)
    requires Linked(w) && Inv(w, s) && c in w.callers && w.callers[c].pc.Running?
    ensures var w' := HoldTurn(w, cfg, c, w.callers[c].pc.rec, id, fa, now); Linked(w') && Inv(w', s)
  {
    var q := w.callers[c].q;
    var r := HoldOf(cfg, w.db, q.payload, id, fa, now);
    if r.Err? {
      GotoKeeps(w, s, c, Failing(w.callers[c].pc.rec, Rejected(r.error)));
    } else {
      RunKeeps(w, s, c, r.value, Run(q.payload, AnswerOf(r.value, id), fa, now));
    }
  }

  lemma CompleteKeeps(w: World, s: Scope, c: CallerId, stored: bool)
    requires Linked(w) && Inv(w, s) && c in w.callers && w.callers[c].pc.Completing?
    ensures var w' := CompleteTurn(w, c, w.callers[c].pc.rec, w.callers[c].pc.answer, stored); Linked(w') && Inv(w', s)
  {
    var Completing(rec, answer) := w.callers[c].pc;
    if stored && rec in w.reg {
      FinishKeeps(w, s, c, COMPLETED(answer), Done(Ok(answer)));
    } else {
      GotoKeeps(w, s, c, Failing(rec, StoreFailed));
    }
  }

  lemma CrashKeeps(w: World, s: Scope, c: CallerId)
    requires Linked(w) && Inv(w, s)
    ensures var w' := w.(callers := w.callers - {c}); Linked(w') && Inv(w', s)
  {
    var w' := w.(callers := w.callers - {c});
    forall d, e | HoldsFor(w'.callers, d, s) && HoldsFor(w'.callers, e, s) ensures d == e {
      assert HoldsFor(w.callers, d, s) && HoldsFor(w.callers, e, s);
    }
  }

  lemma SweepKeeps(w: World, s: Scope, rec: RecId)
    requires Linked(w) && Inv(w, s) && rec in w.reg && w.reg[rec].scope != s
    ensures var w' := w.(reg := w.reg - {rec}); Linked(w') && Inv(w', s)
  {
    var w' := w.(reg := w.reg - {rec});
    forall d | d in w'.callers && Mine(w'.callers[d], s) ensures CallerOk(w'.reg, RunsOf(w.runs, s), w'.callers[d]) {
      assert CallerOk(w.reg, RunsOf(w.runs, s), w.callers[d]);
    }
    if Clash(w.reg, s) { var id :| id in w.reg && w.reg[id].scope == s; assert id in w'.reg && w'.reg[id].scope == s; }
  }

  /** The sweep leaves the row of this scope alone. */
  predicate Spares(w: World, s: Scope, turn: Turn) {
    turn.Sweep? && turn.rec in w.reg ==> w.reg[turn.rec].scope != s
  }

  ghost predicate AllSpare(w: World, cfg: Config, s: Scope, turns: seq<Turn>)
    decreases |turns|
  {
    turns == [] || (Spares(w, s, turns[0]) && AllSpare(Advance(w, cfg, turns[0]), cfg, s, turns[1..]))
  }

  lemma OtherKeeps(w: World, s: Scope, db: I.Db)
    requires Linked(w) && Inv(w, s)
    ensures Linked(w.(db := db)) && Inv(w.(db := db), s)
  {
  }

  /** The turns of one caller. */
  lemma CallerTurnKeeps(w: World, cfg: Config, s: Scope, turn: Turn)
    requires Linked(w) && Inv(w, s) && (turn.Create? || turn.Find? || turn.Hold? || turn.Complete? || turn.Fail?)
    requires turn.c in w.callers
    ensures Linked(Advance(w, cfg, turn)) && Inv(Advance(w, cfg, turn), s)
  {
    if turn.Create? || turn.Find? { RegistryTurnKeeps(w, cfg, s, turn); } else { HolderTurnKeeps(w, cfg, s, turn); }
  }

  lemma RegistryTurnKeeps(w: World, cfg: Config, s: Scope, turn: Turn)
    requires Linked(w) && Inv(w, s) && (turn.Create? || turn.Find?) && turn.c in w.callers
    ensures Linked(Advance(w, cfg, turn)) && Inv(Advance(w, cfg, turn), s)
  {
    var c, pc := turn.c, w.callers[turn.c].pc;
    if turn.Create? && pc == Creating && turn.rec !in w.minted { CreateKeeps(w, s, c, turn.rec, turn.now + cfg.ttlMs); }
    if turn.Find? && pc == Finding { FindKeeps(w, s, c, turn.at); }
  }

  lemma HolderTurnKeeps(w: World, cfg: Config, s: Scope, turn: Turn)
    requires Linked(w) && Inv(w, s) && (turn.Hold? || turn.Complete? || turn.Fail?) && turn.c in w.callers
    ensures Linked(Advance(w, cfg, turn)) && Inv(Advance(w, cfg, turn), s)
  {
    var c, pc := turn.c, w.callers[turn.c].pc;
    if turn.Hold? && pc.Running? { HoldKeeps(w, cfg, s, c, turn.id, turn.fa, turn.now); }
    if turn.Complete? && pc.Completing? { CompleteKeeps(w, s, c, turn.stored); }
    if turn.Fail? && pc.Failing? { FinishKeeps(w, s, c, FAILED, Done(Err(pc.error))); }
  }

  lemma AdvanceKeeps(w: World, cfg: Config, s: Scope, turn: Turn)
    requires Linked(w) && Inv(w, s) && Spares(w, s, turn)
    ensures Linked(Advance(w, cfg, turn)) && Inv(Advance(w, cfg, turn), s)
  {
    match turn
    case Start(c, key, user, prop, from, upto) =>
      var q := Admit(cfg, key, user, prop, from, upto);
      if c !in w.callers && q.Ok? { StartKeeps(w, s, c, q.value); }
    case Crash(c) => CrashKeeps(w, s, c);
    case Sweep(rec, now) => if rec in w.reg && w.reg[rec].expiresAt < now { SweepKeeps(w, s, rec); }
    case Other(a) => OtherKeeps(w, s, I.Step(cfg.hold, w.db, a));
    case _ => if turn.c in w.callers { CallerTurnKeeps(w, cfg, s, turn); }
  }

  lemma {:induction false} ScheduleKeeps(w: World, cfg: Config, s: Scope, turns: seq<Turn>)
    requires Linked(w) && Inv(w, s) && AllSpare(w, cfg, s, turns)
    ensures Inv(Schedule(w, cfg, turns), s)
    decreases |turns|
  {
    if turns != [] {
      AdvanceKeeps(w, cfg, s, turns[0]);
      ScheduleKeeps(Advance(w, cfg, turns[0]), cfg, s, turns[1..]);
    }
  }

  function Initial(db: I.Db): World { World(db, map[], map[], map[], {}) }

  /** While the row of a scope is not swept, in every interleaving: its requests run the hold
      at most once, and whoever of them got an answer got that run's, for that run's payload. */
  lemma HoldRunsOnce(db: I.Db, cfg: Config, s: Scope, turns: seq<Turn>)
    requires AllSpare(Initial(db), cfg, s, turns)
    ensures var w := Schedule(Initial(db), cfg, turns);
            var runs := RunsOf(w.runs, s);
            && |runs| <= 1
            && forall c ::
                 c in w.callers && Mine(w.callers[c], s) && w.callers[c].pc.Done? && w.callers[c].pc.result.Ok? ==>
                   Ran(runs, w.callers[c].q.payload, w.callers[c].pc.result.value)
  {
    ScheduleKeeps(Initial(db), cfg, s, turns);
    var w := Schedule(Initial(db), cfg, turns);
    forall c | c in w.callers && Mine(w.callers[c], s) && w.callers[c].pc.Done? && w.callers[c].pc.result.Ok?
      ensures Ran(RunsOf(w.runs, s), w.callers[c].q.payload, w.callers[c].pc.result.value)
    {
      assert CallerOk(w.reg, RunsOf(w.runs, s), w.callers[c]);
    }
  }

  // ---------- retries act once ----------

  /** Nothing but requests of this one scope. */
  predicate OnlyScope(s: Scope, turn: Turn) {
    !turn.Other? && !turn.Sweep? && (turn.Start? ==> s == Scope(Some(turn.user), HOLD_ENDPOINT, turn.key))
  }

  /** The tables are those of before, or those after the one hold. */
  ghost predicate ActedOnce(w: World, cfg: Config, s: Scope, db: I.Db) {
    && (forall c :: c in w.callers ==> Mine(w.callers[c], s))
    && var runs := RunsOf(w.runs, s);
       if runs == [] then w.db == db
       else
         var r := HoldOf(cfg, db, runs[0].payload, runs[0].answer.id, runs[0].fa, runs[0].now);
         r.Ok? && w.db == r.value
  }

  lemma AdvanceActs(w: World, cfg: Config, s: Scope, db: I.Db, turn: Turn)
    requires Linked(w) && Inv(w, s) && ActedOnce(w, cfg, s, db) && OnlyScope(s, turn)
    ensures ActedOnce(Advance(w, cfg, turn), cfg, s, db)
  {
    if turn.Hold? { HoldActs(w, cfg, s, db, turn); }
  }

  lemma HoldActs(w: World, cfg: Config, s: Scope, db: I.Db, turn: Turn)
    requires Inv(w, s) && ActedOnce(w, cfg, s, db) && turn.Hold?
    ensures ActedOnce(Advance(w, cfg, turn), cfg, s, db)
  {
    if turn.c in w.callers && w.callers[turn.c].pc.Running? {
      assert Mine(w.callers[turn.c], s) && CallerOk(w.reg, RunsOf(w.runs, s), w.callers[turn.c]);
    }
  }

  lemma {:induction false} ScheduleActs(w: World, cfg: Config, s: Scope, db: I.Db, turns: seq<Turn>)
    requires Linked(w) && Inv(w, s) && ActedOnce(w, cfg, s, db)
    requires forall i :: 0 <= i < |turns| ==> OnlyScope(s, turns[i])
    ensures ActedOnce(Schedule(w, cfg, turns), cfg, s, db)
    decreases |turns|
  {
    if turns != [] {
      AdvanceActs(w, cfg, s, db, turns[0]);
      AdvanceKeeps(w, cfg, s, turns[0]);
      ScheduleActs(Advance(w, cfg, turns[0]), cfg, s, db, turns[1..]);
    }
  }

  /** However often a request is sent with one key, at once or again: the tables change as by
      one hold, or not at all. */
  lemma RetriesActOnce(db: I.Db, cfg: Config, s: Scope, turns: seq<Turn>)
    requires forall i :: 0 <= i < |turns| ==> OnlyScope(s, turns[i])
    ensures ActedOnce(Schedule(Initial(db), cfg, turns), cfg, s, db)
  {
    ScheduleActs(Initial(db), cfg, s, db, turns);
  }

  // ---------- the registry, whoever calls it ----------

  /** The rows, and the id of the next one. */
  datatype Registry = Registry(rows: map<RecId, Record>, next: RecId)

  datatype Act =
    | Begin(scope: Scope, hash: Payload, expiresAt: Time)
    | Settle(rec: RecId, status: Status)
    | Purge(rec: RecId)

  /** The caller gets a row of its own and may act. */
  predicate Proceeds(g: Registry, scope: Scope) { |scope.key| >= MIN_KEY && !Clash(g.rows, scope) }

  function Acted(g: Registry, a: Act): Registry {
    match a
    case Begin(scope, hash, expiresAt) =>
      if Proceeds(g, scope) then
        Registry(g.rows[g.next := Record(scope, hash, IN_PROGRESS, expiresAt)], g.next + 1)
      else g
    case Settle(rec, status) => g.(rows := SetStatus(g.rows, rec, status))
    case Purge(rec) => g.(rows := g.rows - {rec})
  }

  function BeginsOf(acts: seq<Act>, scope: Scope): nat {
    if acts == [] then 0
    else (if acts[0].Begin? && acts[0].scope == scope then 1 else 0) + BeginsOf(acts[1..], scope)
  }

  /** How many of the calls with this scope may act. */
  function ProceedsOf(g: Registry, acts: seq<Act>, scope: Scope): nat
    decreases |acts|
  {
    if acts == [] then 0
    else (if acts[0].Begin? && acts[0].scope == scope && Proceeds(g, scope) then 1 else 0)
         + ProceedsOf(Acted(g, acts[0]), acts[1..], scope)
  }

  /** No row of the scope is purged. */
  predicate NonePurged(g: Registry, acts: seq<Act>, scope: Scope)
    decreases |acts|
  {
    acts == [] ||
    ((acts[0].Purge? && acts[0].rec in g.rows ==> g.rows[acts[0].rec].scope != scope)
     && NonePurged(Acted(g, acts[0]), acts[1..], scope))
  }

  ghost predicate Numbered(g: Registry) { forall id :: id in g.rows ==> id < g.next }

  lemma ActClash(g: Registry, a: Act, scope: Scope)
    requires Numbered(g) && NonePurged(g, [a], scope)
    ensures Numbered(Acted(g, a))
    ensures Clash(Acted(g, a).rows, scope) <==>
              Clash(g.rows, scope) || (a.Begin? && a.scope == scope && Proceeds(g, scope) && scope.user.Some?)
  {
    var rows' := Acted(g, a).rows;
    if Clash(g.rows, scope) {
      var id :| id in g.rows && g.rows[id].scope == scope;
      assert id in rows' && rows'[id].scope == scope;
    }
    if a.Begin? && Proceeds(g, a.scope) { assert rows'[g.next].scope == a.scope; }
  }

  /** How many calls of one scope are let through, in any run of the registry: of a scope with
      a user, one at most, and exactly one if there was a call and no row yet; of a scope
      without, every one, since the unique constraint does not see its rows. */
  lemma {:induction false} ProceedsExactly(g: Registry, acts: seq<Act>, scope: Scope)
    requires Numbered(g) && |scope.key| >= MIN_KEY
    requires scope.user.Some? ==> NonePurged(g, acts, scope)
    ensures ProceedsOf(g, acts, scope) ==
            if scope.user.None? then BeginsOf(acts, scope)
            else if Clash(g.rows, scope) || BeginsOf(acts, scope) == 0 then 0
            else 1
    decreases |acts|
  {
    if acts != [] {
      var g' := Acted(g, acts[0]);
      if scope.user.Some? { ActClash(g, acts[0], scope); }
      ProceedsExactly(g', acts[1..], scope);
    }
  }

  // ---------- the service ----------

  datatype Gate = Proceed(rec: RecId) | Reuse(answer: Answer) | Wait

  class IdempotencyService {
    var reg: map<RecId, Record>
    var next: RecId

    constructor ()
      ensures reg == map[] && Valid()
    {
      reg, next := map[], 0;
    }

    ghost predicate Valid()
      reads this
    {
      Numbered(View())
    }

    ghost function View(): Registry
      reads this
    {
      Registry(reg, next)
    }

    /** A row of the scope, if there is one. */
    method FindUnique(scope: Scope) returns (r: Option<RecId>)
      requires Valid()
      ensures r.Some? ==> r.value in reg && reg[r.value].scope == scope
      ensures r.None? ==> forall id :: id in reg ==> reg[id].scope != scope
    {
      r := None;
      for id := 0 to next
        invariant r.Some? ==> r.value in reg && reg[r.value].scope == scope
        invariant r.None? ==> forall x: nat :: x < id && x in reg ==> reg[x].scope != scope
      {
        if id in reg && reg[id].scope == scope { r := Some(id); }
      }
    }

    /** Exactly one of: a short key is refused, a new row lets the caller proceed, an existing
        row says what to do. */
    method BeginOrReuse(scope: Scope, hash: Payload, now: Time, ttlMs: nat) returns (r: Result<Gate, Error>)
      requires Valid()
      modifies this
      ensures Valid()
      ensures View() == Acted(old(View()), Begin(scope, hash, now + ttlMs))
      ensures r == Err(KeyRequired) <==> |scope.key| < MIN_KEY
      ensures (r.Ok? && r.value.Proceed?) <==> Proceeds(old(View()), scope)
      ensures r.Ok? && r.value.Proceed? ==> r.value.rec == old(next)
      ensures |scope.key| >= MIN_KEY && Clash(old(reg), scope) ==>
                && exists id :: id in reg && reg[id].scope == scope
                     && var v := Verdict(reg[id], hash);
                        match r
                        case Ok(Reuse(answer)) => v == Ok(answer)
                        case Ok(Wait) => v == Err(InProgress)
                        case Ok(Proceed(_)) => false
                        case Err(e) => v == Err(e) && e != InProgress
    {
      if |scope.key| < MIN_KEY { return Err(KeyRequired); }
      var found := FindUnique(scope);
      if scope.user.None? || found.None? {
        reg := reg[next := Record(scope, hash, IN_PROGRESS, now + ttlMs)];
        next := next + 1;
        return Ok(Proceed(next - 1));
      }
      var rec := reg[found.value];
      if rec.hash != hash { return Err(PayloadMismatch); }
      match rec.status {
        case COMPLETED(answer) => return Ok(Reuse(answer));
        case FAILED => return Err(PreviousFailed);
        case IN_PROGRESS => return Ok(Wait);
      }
    }

    method CompleteOK(id: RecId, answer: Answer) returns (stored: bool)
      requires Valid()
      modifies `reg
      ensures Valid() && stored == (id in old(reg))
      ensures View() == Acted(old(View()), Settle(id, COMPLETED(answer)))
    {
      stored := id in reg;
      if stored { reg := reg[id := reg[id].(status := COMPLETED(answer))]; }
    }

    method CompleteFailed(id: RecId) returns (stored: bool)
      requires Valid()
      modifies `reg
      ensures Valid() && stored == (id in old(reg))
      ensures View() == Acted(old(View()), Settle(id, FAILED))
    {
      stored := id in reg;
      if stored { reg := reg[id := reg[id].(status := FAILED)]; }
    }
  }

  /** A key used again: while the first request is under way the second waits, after it has ended
      the second hears its answer or that it failed, and with another payload it is refused in
      any case. */
  method BeginTwice(service: IdempotencyService, scope: Scope, hash: Payload, hash': Payload, outcome: Option<Status>,
                    now: Time, later: Time, ttlMs: nat)
    returns (first: Result<Gate, Error>, second: Result<Gate, Error>)
    requires service.Valid() && scope.user.Some? && |scope.key| >= 8 && !Clash(service.reg, scope)
    requires outcome.Some? ==> outcome.value != IN_PROGRESS
    modifies service
    ensures first.Ok? && first.value.Proceed?
    ensures second == if hash' != hash then Err(PayloadMismatch)
                      else match outcome
                           case None => Ok(Wait)
                           case Some(COMPLETED(answer)) => Ok(Reuse(answer))
                           case Some(_) => Err(PreviousFailed)
  {
    first := service.BeginOrReuse(scope, hash, now, ttlMs);
    assert service.reg[first.value.rec].scope == scope;
    var stored;
    if outcome.Some? {
      if outcome.value.COMPLETED? {
        stored := service.CompleteOK(first.value.rec, outcome.value.answer);
      } else {
        stored := service.CompleteFailed(first.value.rec);
      }
    }
    assert service.reg[first.value.rec].scope == scope;
    second := service.BeginOrReuse(scope, hash', later, ttlMs);
  }
}
