/** The event consumers and the saga handlers behind them: messages arrive at least once,
    are deduplicated by id with a window for crashes, and drive promotions.  Redelivery is
    proved to be invisible. */
module Saga {
  import opened Common
  import P = Promotion

  datatype Topic =
    | BookingAutoDeclined | BookingHeld | BookingReviewPending | BookingReviewApproved | BookingReviewDeclined
    | BookingCancelled | BookingExpired | BookingRefunded | BookingPaid | BookingConfirmed | BookingPolicyAttached
    | PaymentSucceeded | OtherTopic

  datatype Event = Event(topic: Topic, booking: Option<P.BookingId>)

  /** What handling an event does to promotions; most topics do nothing, and an event
      without a booking id is ignored. */
  function Effect(s: P.Store, e: Event): P.Store {
    if e.booking.None? then s
    else
      match e.topic
      case BookingAutoDeclined => P.ReleaseTx(s, e.booking.value, false, P.AUTO_DECLINED)
      case BookingReviewDeclined => P.ReleaseTx(s, e.booking.value, false, P.REVIEW_DECLINED)
      case BookingCancelled => P.ReleaseTx(s, e.booking.value, false, P.CANCELLED)
      case BookingExpired => P.ReleaseTx(s, e.booking.value, false, P.EXPIRED)
      case BookingRefunded => P.ReleaseTx(s, e.booking.value, false, P.REFUNDED)
      case BookingPaid => P.ConfirmTx(s, e.booking.value)
      case _ => s
  }

  predicate Releases(t: Topic) {
    t in {BookingAutoDeclined, BookingReviewDeclined, BookingCancelled, BookingExpired, BookingRefunded}
  }

  // ---------- histories ----------

  /** Everything that happens to the promotion tables: events being handled, and any call
      of the promotion and booking services in between. */
  datatype Act = Deliver(e: Event) | Service(a: P.Action)

  function Perform(s: P.Store, act: Act): P.Store {
    match act
    case Deliver(e) => Effect(s, e)
    case Service(a) => P.Step(s, a)
  }

  function History(s: P.Store, acts: seq<Act>): P.Store
    decreases |acts|
  {
    if acts == [] then s else History(Perform(s, acts[0]), acts[1..])
  }

  /** A promotion can no longer be reserved for this booking: one was reserved already, or
      the booking has left HOLD/REVIEW. */
  predicate Decided(s: P.Store, id: P.BookingId) { id in s.reds || (id in s.bookings && !s.bookings[id].open) }

  /** Events concern bookings with a reservation, or come from the transaction that takes
      their booking out of HOLD/REVIEW. */
  predicate Timely(s: P.Store, act: Act) {
    act.Deliver? && act.e.booking.Some? && (act.e.topic == BookingPaid || Releases(act.e.topic)) ==>
      Decided(s, act.e.booking.value)
  }

  ghost predicate AllTimely(s: P.Store, acts: seq<Act>)
    decreases |acts|
  {
    acts == [] || (Timely(s, acts[0]) && AllTimely(Perform(s, acts[0]), acts[1..]))
  }

  /** The history with every delivery of an event after its first one left out. */
  function FirstDeliveries(acts: seq<Act>, seen: set<Event>): seq<Act>
    decreases |acts|
  {
    if acts == [] then []
    else
      match acts[0]
      case Deliver(e) => (if e in seen then [] else [acts[0]]) + FirstDeliveries(acts[1..], seen + {e})
      case Service(_) => [acts[0]] + FirstDeliveries(acts[1..], seen)
  }

  /** An event has done all it can ever do. */
  predicate Spent(s: P.Store, e: Event) {
    e.booking.Some? && (e.topic == BookingPaid || Releases(e.topic)) ==>
      var id := e.booking.value;
      && Decided(s, id)
      && (id in s.reds && s.reds[id].code in s.promos ==>
            if e.topic == BookingPaid then s.reds[id].status != P.RESERVED else s.reds[id].status == P.RELEASED)
  }

  lemma SpentIsInert(s: P.Store, e: Event)
    requires Spent(s, e)
    ensures Effect(s, e) == s
  {
  }

  lemma HandlingSpends(s: P.Store, e: Event)
    requires P.Linked(s) && Timely(s, Deliver(e))
    ensures Spent(Effect(s, e), e)
  {
  }

  /** Bookings do not reopen, redemptions only move forward, and no code disappears. */
  ghost predicate Forward(s: P.Store, s': P.Store) {
    && s.promos.Keys <= s'.promos.Keys
    && (forall id :: id in s.bookings ==> id in s'.bookings && (!s.bookings[id].open ==> !s'.bookings[id].open))
    && (forall id :: id in s.reds ==>
          && id in s'.reds && s'.reds[id].code == s.reds[id].code
          && (s.reds[id].status != P.RESERVED ==> s'.reds[id].status != P.RESERVED)
          && (s.reds[id].status == P.RELEASED ==> s'.reds[id].status == P.RELEASED))
    && (forall id :: id in s'.reds && id !in s.reds ==> id in s.bookings && s.bookings[id].open)
  }

  lemma ConfirmForward(s: P.Store, id: P.BookingId)
    ensures Forward(s, P.ConfirmTx(s, id))
  {
  }

  lemma ReleaseForward(s: P.Store, id: P.BookingId, dec: bool, cause: P.Cause)
    ensures Forward(s, P.ReleaseTx(s, id, dec, cause))
  {
  }

  lemma ApplyForward(s: P.Store, a: P.Action)
    requires a.DoApply?
    ensures Forward(s, P.Step(s, a))
  {
  }

  lemma PerformIsForward(s: P.Store, act: Act)
    ensures Forward(s, Perform(s, act))
  {
    match act
    case Service(a) =>
      if a.DoApply? { ApplyForward(s, a); }
      if a.DoConfirm? { ConfirmForward(s, a.id); }
      if a.DoRelease? { ReleaseForward(s, a.id, a.decreaseUsage, a.cause); }
    case Deliver(e) =>
      if e.booking.Some? {
        var id := e.booking.value;
        ConfirmForward(s, id);
        var cause := match e.topic
          case BookingAutoDeclined => P.AUTO_DECLINED
          case BookingReviewDeclined => P.REVIEW_DECLINED
          case BookingExpired => P.EXPIRED
          case BookingRefunded => P.REFUNDED
          case _ => P.CANCELLED;
        ReleaseForward(s, id, false, cause);
      }
  }

  lemma SpentStaysSpent(s: P.Store, s': P.Store, e: Event)
    requires P.Linked(s) && Forward(s, s') && Spent(s, e)
    ensures Spent(s', e)
  {
  }

  lemma PerformLinked(s: P.Store, act: Act)
    requires P.Linked(s)
    ensures P.Linked(Perform(s, act))
  {
    if act.Service? { P.StepKeepsLinks(s, act.a); } else { EffectIsStep(s, act.e); }
  }

  /** Handlers only call the promotion service. */
  lemma EffectIsStep(s: P.Store, e: Event)
    requires P.Linked(s)
    ensures P.Linked(Effect(s, e))
  {
    if e.booking.Some? {
      var id := e.booking.value;
      match e.topic
      case BookingPaid => P.StepKeepsLinks(s, P.DoConfirm(id));
      case BookingAutoDeclined => P.StepKeepsLinks(s, P.DoRelease(id, false, P.AUTO_DECLINED));
      case BookingReviewDeclined => P.StepKeepsLinks(s, P.DoRelease(id, false, P.REVIEW_DECLINED));
      case BookingCancelled => P.StepKeepsLinks(s, P.DoRelease(id, false, P.CANCELLED));
      case BookingExpired => P.StepKeepsLinks(s, P.DoRelease(id, false, P.EXPIRED));
      case BookingRefunded => P.StepKeepsLinks(s, P.DoRelease(id, false, P.REFUNDED));
      case _ =>
    }
  }

  /** Redelivery insensitivity: over every history, handling events again (any of them,
      any number of times, anywhere later, with any service calls in between) leaves the
      same promotions, redemptions and booking discounts as the first deliveries alone. */
  lemma {:induction false} RedeliveryInvisible(s: P.Store, acts: seq<Act>, seen: set<Event>)
    requires P.Linked(s) && AllTimely(s, acts) && forall e :: e in seen ==> Spent(s, e)
    ensures History(s, acts) == History(s, FirstDeliveries(acts, seen))
    decreases |acts|
  {
    if acts != [] {
      var act, s' := acts[0], Perform(s, acts[0]);
      var seen' := if act.Deliver? then seen + {act.e} else seen;
      PerformLinked(s, act);
      PerformIsForward(s, act);
      forall e | e in seen' ensures Spent(s', e) {
        if e in seen { SpentStaysSpent(s, s', e); } else { HandlingSpends(s, e); }
      }
      RedeliveryInvisible(s', acts[1..], seen');
      var rest := FirstDeliveries(acts[1..], seen');
      if act.Deliver? && act.e in seen {
        SpentIsInert(s, act.e);
        assert [] + rest == rest;
      } else {
        assert ([act] + rest)[1..] == rest;
      }
    }
  }

  // ---------- what events do ----------

  lemma EndingMoves(s: P.Store, id: P.BookingId, cause: P.Cause)
    requires P.Ledger(s) && id in s.reds
    ensures var s', red := P.ReleaseTx(s, id, false, cause), s.reds[id];
            && s'.promos.Keys == s.promos.Keys && id in s'.reds && s'.reds[id].status == P.RELEASED
            && s'.promos[red.code].usedCount
               == s.promos[red.code].usedCount - (if red.status == P.APPLIED && cause == P.REFUNDED then 1 else 0)
  {
    P.ReleaseGivesUseBackIff(s, id, false, cause, s.reds[id].code);
    P.ReleaseClears(s, id, false, cause);
  }

  lemma PaymentMoves(s: P.Store, id: P.BookingId)
    requires P.Ledger(s) && id in s.reds
    ensures var s', red, p := P.ConfirmTx(s, id), s.reds[id], s.promos[s.reds[id].code];
            var room := p.usageLimit == None || p.usedCount < p.usageLimit.value;
            && s'.promos.Keys == s.promos.Keys && id in s'.reds
            && s'.reds[id].status
               == (if red.status != P.RESERVED then red.status else if room then P.APPLIED else P.RELEASED)
            && s'.promos[red.code].usedCount == p.usedCount + (if red.status == P.RESERVED && room then 1 else 0)
  {
    P.ConfirmTakesUseIff(s, id);
  }

  lemma NothingToMove(s: P.Store, topic: Topic, id: P.BookingId)
    requires id !in s.reds
    ensures Effect(s, Event(topic, Some(id))) == s
  {
  }

  /** Which event does what to a booking's redemption: a payment applies a reservation if there is
      room and releases it otherwise, and the five endings release; every other event, and an
      event without a redemption, does nothing. */
  lemma EventMovesRedemption(s: P.Store, topic: Topic, id: P.BookingId)
    requires P.Ledger(s)
    ensures id !in s.reds ==> Effect(s, Event(topic, Some(id))) == s
    ensures (topic in {BookingHeld, BookingReviewPending, BookingReviewApproved, BookingConfirmed,
                       BookingPolicyAttached, PaymentSucceeded, OtherTopic}) ==> Effect(s, Event(topic, Some(id))) == s
    ensures Effect(s, Event(topic, None)) == s
    ensures id in s.reds ==>
              var s', red, p := Effect(s, Event(topic, Some(id))), s.reds[id], s.promos[s.reds[id].code];
              && id in s'.reds
              && s'.reds[id].status ==
                   if topic == BookingPaid then
                     if red.status != P.RESERVED then red.status
                     else if p.usageLimit == None || p.usedCount < p.usageLimit.value then P.APPLIED else P.RELEASED
                   else if topic in {BookingAutoDeclined, BookingReviewDeclined, BookingCancelled, BookingExpired,
                                     BookingRefunded} then P.RELEASED
                   else red.status
  {
    hide P.ReleaseTx, P.ConfirmTx, P.Accounted;
    if id !in s.reds {
      NothingToMove(s, topic, id);
    } else {
      match topic
      case BookingPaid => PaymentMoves(s, id);
      case BookingAutoDeclined => EndingMoves(s, id, P.AUTO_DECLINED);
      case BookingReviewDeclined => EndingMoves(s, id, P.REVIEW_DECLINED);
      case BookingCancelled => EndingMoves(s, id, P.CANCELLED);
      case BookingExpired => EndingMoves(s, id, P.EXPIRED);
      case BookingRefunded => EndingMoves(s, id, P.REFUNDED);
      case _ =>
    }
  }

  /** And to the code's counter: a payment takes a use for a reservation if there is room, a refund
      gives back a use that was taken, and no other event moves it. */
  lemma EventMovesCounter(s: P.Store, topic: Topic, id: P.BookingId)
    requires P.Ledger(s) && id in s.reds
    ensures var s', red, p := Effect(s, Event(topic, Some(id))), s.reds[id], s.promos[s.reds[id].code];
            && red.code in s'.promos
            && s'.promos[red.code].usedCount == p.usedCount +
                 if topic == BookingPaid && red.status == P.RESERVED
                    && (p.usageLimit == None || p.usedCount < p.usageLimit.value) then 1
                 else if topic == BookingRefunded && red.status == P.APPLIED then -1
                 else 0
  {
    hide P.ReleaseTx, P.ConfirmTx, P.Accounted;
    match topic
    case BookingPaid => PaymentMoves(s, id);
    case BookingAutoDeclined => EndingMoves(s, id, P.AUTO_DECLINED);
    case BookingReviewDeclined => EndingMoves(s, id, P.REVIEW_DECLINED);
    case BookingCancelled => EndingMoves(s, id, P.CANCELLED);
    case BookingExpired => EndingMoves(s, id, P.EXPIRED);
    case BookingRefunded => EndingMoves(s, id, P.REFUNDED);
    case _ =>
  }

  // ---------- when redelivery is invisible ----------

  predicate HasEffect(t: Topic) { t == BookingPaid || Releases(t) }

  /** A booking that names a promotion has a redemption of it. */
  ghost predicate NamedIsReserved(s: P.Store) {
    forall id :: id in s.bookings && s.bookings[id].promoCode.Some? ==> id in s.reds
  }

  lemma StepNamed(s: P.Store, a: P.Action)
    requires NamedIsReserved(s)
    ensures NamedIsReserved(P.Step(s, a))
  {
  }

  lemma EffectNamed(s: P.Store, e: Event)
    requires NamedIsReserved(s)
    ensures NamedIsReserved(Effect(s, e))
  {
    if e.booking.Some? && Releases(e.topic) {
      var id := e.booking.value;
      ReleaseNamed(s, id, P.AUTO_DECLINED);
      ReleaseNamed(s, id, P.REVIEW_DECLINED);
      ReleaseNamed(s, id, P.CANCELLED);
      ReleaseNamed(s, id, P.EXPIRED);
      ReleaseNamed(s, id, P.REFUNDED);
    }
  }

  lemma ReleaseNamed(s: P.Store, id: P.BookingId, cause: P.Cause)
    requires NamedIsReserved(s)
    ensures NamedIsReserved(P.ReleaseTx(s, id, false, cause))
  {
  }

  /** In every history, promotions are named by reserved bookings only. */
  lemma {:induction false} HistoryNamed(s: P.Store, acts: seq<Act>)
    requires NamedIsReserved(s)
    ensures NamedIsReserved(History(s, acts))
    decreases |acts|
  {
    if acts != [] {
      if acts[0].Service? { StepNamed(s, acts[0].a); } else { EffectNamed(s, acts[0].e); }
      HistoryNamed(Perform(s, acts[0]), acts[1..]);
    }
  }

  /** After the first handling of `e`, and whatever the services do then, handling it again
      changes nothing. */
  ghost predicate AlwaysInvisible(s: P.Store, e: Event) {
    forall services: seq<P.Action> :: var s' := P.Run(Effect(s, e), services); Effect(s', e) == s'
  }

  lemma {:induction false} RunStaysSpent(s: P.Store, services: seq<P.Action>, e: Event)
    requires P.Linked(s) && Spent(s, e)
    ensures Spent(P.Run(s, services), e)
    decreases |services|
  {
    if services != [] {
      var act := Service(services[0]);
      PerformIsForward(s, act);
      PerformLinked(s, act);
      SpentStaysSpent(s, Perform(s, act), e);
      RunStaysSpent(Perform(s, act), services[1..], e);
    }
  }

  lemma RunTwo(s: P.Store, a: P.Action, rest: seq<P.Action>)
    ensures P.Run(s, [a] + rest) == P.Run(P.Step(s, a), rest)
  {
    assert ([a] + rest)[1..] == rest;
  }

  const ANY_CODE: P.Promo := P.Promo(P.FIXED, 0, None, None, 0, 0, None, 0, true)

  /** Services that bring a booking without a redemption to a reservation. */
  lemma CanStillReserve(s: P.Store, id: P.BookingId) returns (services: seq<P.Action>)
    requires NamedIsReserved(s) && !Decided(s, id)
    ensures var s' := P.Run(s, services);
            && id in s'.reds && s'.reds[id].status == P.RESERVED && id in s'.bookings
            && s'.reds[id].code in s'.promos && s'.promos[s'.reds[id].code].usageLimit.None?
  {
    var book := P.DoBook(id, P.Booking("u", 1, 0, true, None, 0));
    var edit := P.DoEdit("c", ANY_CODE);
    var s1 := P.Step(s, book);
    var s2 := P.Step(s1, edit);
    var apply := P.DoApply(id, s2.bookings[id].customer, "c", 0);
    var s3 := P.Step(s2, apply);
    services := [book] + ([edit] + ([apply] + []));
    RunTwo(s, book, [edit] + ([apply] + []));
    RunTwo(s1, edit, [apply] + []);
    RunTwo(s2, apply, []);
    assert s2.bookings[id].open && s2.bookings[id].promoCode.None? && id !in s2.reds;
  }

  lemma ReservationShows(s: P.Store, e: Event)
    requires e.booking.Some? && HasEffect(e.topic)
    requires var id := e.booking.value;
             && id in s.reds && s.reds[id].status == P.RESERVED && id in s.bookings
             && s.reds[id].code in s.promos && s.promos[s.reds[id].code].usageLimit.None?
    ensures Effect(s, e) != s
  {
    var s' := Effect(s, e);
    assert s'.reds[e.booking.value].status != P.RESERVED;
  }

  /** Exactly when redelivery is safe, for every event that has an effect: handling it again is
      invisible under every continuation of the services if and only if, at its first handling,
      the booking's promotion was reserved already or could no longer be. */
  lemma RedeliveryInvisibleIff(s: P.Store, e: Event)
    requires P.Linked(s) && NamedIsReserved(s) && e.booking.Some? && HasEffect(e.topic)
    ensures AlwaysInvisible(s, e) <==> Decided(s, e.booking.value)
  {
    var s1 := Effect(s, e);
    if Decided(s, e.booking.value) {
      HandlingSpends(s, e);
      EffectIsStep(s, e);
      forall services: seq<P.Action> ensures Effect(P.Run(s1, services), e) == P.Run(s1, services) {
        RunStaysSpent(s1, services, e);
        SpentIsInert(P.Run(s1, services), e);
      }
    } else {
      assert s1 == s;
      var services := CanStillReserve(s, e.booking.value);
      ReservationShows(P.Run(s, services), e);
    }
  }

  /** One instance of the failing half, in full: a release that arrives before the reservation does nothing,
      but once the promotion is reserved its redelivery takes the reservation away. */
  lemma EarlyEventShows()
    ensures var promo := P.Promo(P.FIXED, 10, None, None, 0, 0, None, 0, true);
            var booking := P.Booking("u", 2, 100, true, None, 0);
            var s := P.Store(map["c" := promo], map[], map["b" := booking], map[]);
            var e := Event(BookingCancelled, Some("b"));
            var acts := [Deliver(e), Service(P.DoApply("b", "u", "c", 0)), Deliver(e)];
            P.Linked(s) && History(s, acts) != History(s, FirstDeliveries(acts, {}))
  {
    var promo := P.Promo(P.FIXED, 10, None, None, 0, 0, None, 0, true);
    var booking := P.Booking("u", 2, 100, true, None, 0);
    var s := P.Store(map["c" := promo], map[], map["b" := booking], map[]);
    var e := Event(BookingCancelled, Some("b"));
    var apply := Service(P.DoApply("b", "u", "c", 0));
    var acts := [Deliver(e), apply, Deliver(e)];
    assert acts[1..] == [apply, Deliver(e)] && [apply, Deliver(e)][1..] == [Deliver(e)] && [Deliver(e)][1..] == [];
    assert FirstDeliveries([Deliver(e)], {e}) == [];
    assert FirstDeliveries([apply, Deliver(e)], {e}) == [apply];
    var none: set<Event> := {};
    assert none + {e} == {e};
    assert FirstDeliveries(acts, none) == [acts[0]] + FirstDeliveries(acts[1..], none + {e});
    assert FirstDeliveries(acts, {}) == [Deliver(e), apply] && [Deliver(e), apply][1..] == [apply]
      && [apply][1..] == [];
    var applied := P.Step(s, apply.a);
    assert History(s, [Deliver(e), apply]) == History(s, [apply]) == applied;
    assert History(s, acts) == History(applied, [Deliver(e)]) == Effect(applied, e);
  }

  // ---------- consumers ----------

  type MsgId = string
  datatype Message = Message(id: MsgId, e: Event)

  /** A message between the lookup of its id and the insert of its mark. */
  datatype Job = Job(m: Message, handled: bool)

  datatype World = World(store: P.Store, processed: set<MsgId>, jobs: map<nat, Job>)

  /** One turn of some consumer (they may overlap on the same message, and a crash loses
      the mark), or of another service. */
  datatype Turn = Receive(c: nat, m: Message) | Handle(c: nat) | Mark(c: nat) | Crash(c: nat) | Other(a: P.Action)

  function Advance(w: World, t: Turn): World {
    match t
    case Receive(c, m) => if c in w.jobs || m.id in w.processed then w else w.(jobs := w.jobs[c := Job(m, false)])
    case Handle(c) =>
      if c in w.jobs && !w.jobs[c].handled then
        w.(store := Effect(w.store, w.jobs[c].m.e), jobs := w.jobs[c := w.jobs[c].(handled := true)])
      else w
    case Mark(c) =>
      if c in w.jobs && w.jobs[c].handled then
        w.(processed := w.processed + {w.jobs[c].m.id}, jobs := w.jobs - {c})
      else w
    case Crash(c) => w.(jobs := w.jobs - {c})
    case Other(a) => w.(store := P.Step(w.store, a))
  }

  function Schedule(w: World, turns: seq<Turn>): World
    decreases |turns|
  {
    if turns == [] then w else Schedule(Advance(w, turns[0]), turns[1..])
  }

  /** What a turn does to the promotion tables. */
  function ActOf(w: World, t: Turn): seq<Act> {
    match t
    case Handle(c) => if c in w.jobs && !w.jobs[c].handled then [Deliver(w.jobs[c].m.e)] else []
    case Other(a) => [Service(a)]
    case _ => []
  }

  function ActsOf(w: World, turns: seq<Turn>): seq<Act>
    decreases |turns|
  {
    if turns == [] then [] else ActOf(w, turns[0]) + ActsOf(Advance(w, turns[0]), turns[1..])
  }

  lemma {:induction false} ScheduleIsHistory(w: World, turns: seq<Turn>)
    ensures Schedule(w, turns).store == History(w.store, ActsOf(w, turns))
    decreases |turns|
  {
    if turns != [] {
      var w', here, rest := Advance(w, turns[0]), ActOf(w, turns[0]), ActsOf(Advance(w, turns[0]), turns[1..]);
      ScheduleIsHistory(w', turns[1..]);
      if here == [] {
        assert here + rest == rest;
      } else {
        assert (here + rest)[1..] == rest;
      }
    }
  }

  /** End to end: whatever the overlap of consumers, crashes and redeliveries, the tables
      are those of handling each event once, at its first handling. */
  lemma EffectivelyOnce(w: World, turns: seq<Turn>)
    requires P.Linked(w.store) && AllTimely(w.store, ActsOf(w, turns))
    ensures Schedule(w, turns).store == History(w.store, FirstDeliveries(ActsOf(w, turns), {}))
  {
    ScheduleIsHistory(w, turns);
    RedeliveryInvisible(w.store, ActsOf(w, turns), {});
  }

  function HandledIds(w: World): set<MsgId> { set c | c in w.jobs && w.jobs[c].handled :: w.jobs[c].m.id }

  /** Ids of the messages handled during a schedule. */
  function HandledIn(w: World, turns: seq<Turn>): set<MsgId>
    decreases |turns|
  {
    if turns == [] then {}
    else
      (if turns[0].Handle? && turns[0].c in w.jobs && !w.jobs[turns[0].c].handled then {w.jobs[turns[0].c].m.id}
        else {})
      + HandledIn(Advance(w, turns[0]), turns[1..])
  }

  /** No message is marked without having been handled. */
  lemma {:induction false} MarkedWasHandled(w: World, turns: seq<Turn>)
    ensures Schedule(w, turns).processed <= w.processed + HandledIds(w) + HandledIn(w, turns)
    decreases |turns|
  {
    if turns != [] {
      var w' := Advance(w, turns[0]);
      MarkedWasHandled(w', turns[1..]);
      forall id | id in w'.processed + HandledIds(w')
        ensures id in w.processed + HandledIds(w) + HandledIn(w, turns)
      {
        if id in HandledIds(w') && id !in w'.processed {
          var c :| c in w'.jobs && w'.jobs[c].handled && w'.jobs[c].m.id == id;
          if c in w.jobs && w.jobs[c].handled { } else { assert turns[0] == Handle(c); }
        } else if id !in w.processed {
          assert turns[0].Mark? && w.jobs[turns[0].c].m.id == id;
        }
      }
    }
  }

  // ---------- the services ----------

  /** A mark is written exactly by the turn that ends a handled job. */
  lemma MarkedIff(w: World, turn: Turn, id: MsgId)
    requires id !in w.processed
    ensures id in Advance(w, turn).processed <==>
              turn.Mark? && turn.c in w.jobs && w.jobs[turn.c].handled && w.jobs[turn.c].m.id == id
  {
  }

  /** A message that is marked and that no consumer holds is not handled any more. */
  lemma {:induction false} MarkedNotHandledAgain(w: World, turns: seq<Turn>, id: MsgId)
    requires id in w.processed && forall c :: c in w.jobs ==> w.jobs[c].m.id != id
    ensures id !in HandledIn(w, turns) && id in Schedule(w, turns).processed
    decreases |turns|
  {
    if turns != [] { MarkedNotHandledAgain(Advance(w, turns[0]), turns[1..], id); }
  }

  class SagaCoordinator {
    const promo: P.PromotionService

    constructor (promo: P.PromotionService)
      ensures this.promo == promo
    {
      this.promo := promo;
    }

    /** The dispatch switch. */
    method Handle(e: Event)
      requires P.Linked(promo.View())
      modifies promo
      ensures promo.View() == Effect(old(promo.View()), e)
    {
      if e.booking.None? { return; }
      var id := e.booking.value;
      match e.topic {
        case BookingAutoDeclined => var _ := promo.ReleaseOnCancelOrExpire(id, false, P.AUTO_DECLINED);
        case BookingReviewDeclined => var _ := promo.ReleaseOnCancelOrExpire(id, false, P.REVIEW_DECLINED);
        case BookingCancelled => var _ := promo.ReleaseOnCancelOrExpire(id, false, P.CANCELLED);
        case BookingExpired => var _ := promo.ReleaseOnCancelOrExpire(id, false, P.EXPIRED);
        case BookingRefunded => var _ := promo.ReleaseOnCancelOrExpire(id, false, P.REFUNDED);
        case BookingPaid => var _ := promo.ConfirmOnPaid(id);
        case _ =>
      }
    }
  }

  class EventsConsumer {
    var processed: set<MsgId>
    const coordinator: SagaCoordinator

    constructor (coordinator: SagaCoordinator)
      ensures processed == {} && this.coordinator == coordinator
    {
      this.processed, this.coordinator := {}, coordinator;
    }

    /** Lookup, handle, mark, without interference: the three turns of one job. */
    method ProcessMessage(m: Message)
      requires P.Linked(coordinator.promo.View())
      modifies this, coordinator.promo
      ensures var w := World(old(coordinator.promo.View()), old(processed), map[]);
              Schedule(w, [Receive(0, m), Handle(0), Mark(0)])
              == World(coordinator.promo.View(), processed, map[])
    {
      ghost var w := World(coordinator.promo.View(), processed, map[]);
      ghost var t0, t1, t2 := Receive(0, m), Handle(0), Mark(0);
      assert [t0, t1, t2][1..] == [t1, t2] && [t1, t2][1..] == [t2] && [t2][1..] == [];
      ghost var w1 := Advance(w, t0);
      ghost var w2 := Advance(w1, t1);
      assert Schedule(w, [t0, t1, t2]) == Schedule(w1, [t1, t2]) == Schedule(w2, [t2]) == Advance(w2, t2);
      if m.id in processed { return; }
      coordinator.Handle(m.e);
      processed := processed + {m.id};
      assert Advance(w2, t2).jobs == map[];
    }
  }
}
