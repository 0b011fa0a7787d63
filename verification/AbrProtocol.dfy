/**
 * The rows, peers and atomic actions of one ABR operation, in the style of `LiveProtocol`: a `Snap` is what survives a
 * crash, an `Action` changes it atomically.
 */
module AbrProtocol {
  import opened Basics

  // ---------- the journal row ----------

  /** LOC's accounting outcome of a closed job. */
  datatype Outcome = BrokerSettlement | OtherAccounting(text: string)

  datatype OpState =
    | Queued | Authorizing | Authorized | Dispatching | AccountingPending | IssuanceRefused
    | Accounted(outcome: Outcome)

  datatype Status = Pending | Processing | Succeeded | Failed | AdmissionRejected

  datatype FailureCode = NoCode | RejectedByBroker | NotAdmitted | LocOutcome(outcome: Outcome) | LocHttp(status: int)

  /** The runner's last typed terminal result. */
  datatype Result = NoResult | RunSucceeded | RunFailed

  datatype OpRow = OpRow(state: OpState, attempts: nat, finished: Option<Time>)

  /** The issuance request, fixed when the job is submitted. */
  datatype Order = Order(id: Id, estimated: int, limit: int, body: Id)

  datatype WorkUnit = FrameMegapixels | OtherUnit(name: string)

  /** LOC's authorization. */
  datatype Job = Job(job: Id, request: Id, work: Id, unit: WorkUnit)

  /** The broker's signed terminal settlement of a job. */
  datatype Claim = Claim(request: Id, work: Id, unit: WorkUnit, brokerJob: Id, units: int)

  datatype Secrets = Secrets(order: Order, job: Option<Job>, claim: Option<Claim>, dispatched: bool)

  datatype View = View(status: Status, phase: string, progress: real, failure: FailureCode, result: Result,
                       units: Option<int>)

  // ---------- the other rows ----------

  datatype ReservationState = Open | Committed(units: Option<int>) | Refunded

  datatype SettleState = NotIssued | SettlePending | Settled

  datatype RunnerStatus = NoStatus | Complete | Error

  datatype Reservation = Reservation(state: ReservationState, settle: SettleState, billed: Option<int>,
                                     runner: RunnerStatus)

  datatype Lock = Free | Held

  /**
   * Where a pass stands, beyond what it saves: whether it has returned; whether it is the operation's first, heard
   * LOC's refusal, and was told of the refund; whether it registered LOC's job on the reservation; whether a job may
   * already have been offered, and, since then, whether the exchange lookup failed and LOC did not show a closure;
   * whether it saved a dispatch; and whether it may conclude on LOC's closure before it saves again.
   */
  datatype Course = Course(
    done: bool,
    first: bool,
    heard: bool,
    told: bool,
    registered: bool,
    redispatch: bool,
    lookupFailed: bool,
    notClosed: bool,
    marked: bool,
    concludes: bool)

  const IDLE := Course(true, false, false, false, false, false, false, false, false, false)

  // ---------- peers ----------

  datatype Answer<+T> = Unanswered | Granted(value: T) | Refused(status: int)

  /** `notAdmitted` is the broker exchange's outcome, as LOC knows it. */
  datatype Closure = Closure(outcome: Outcome, notAdmitted: bool, units: Option<int>, billed: int, at: Time)

  datatype Loc = Loc(asked: set<Order>, job: Answer<Job>, settleAsked: bool, closed: Option<Closure>)

  /** A runner event carried by the stream. */
  datatype Event =
    | Progress(workload: Id, phase: string, progress: real)
    | Terminal(workload: Id, succeeded: bool)
    | Malformed

  datatype Offer = Offer(request: Id, work: Id, body: Id)

  datatype Exchange = NoRecord | Rejected | Admitted(settled: Option<Claim>)

  datatype Broker = Broker(offers: nat, offered: set<Offer>, admissions: nat, exchange: Exchange, heard: set<Event>)

  /** A pass whose lock connection died while it lives on: the row as it last was for it, and where it stood. */
  datatype Lapsed = Lapsed(op: OpRow, s: Secrets, v: View, course: Course)

  /**
   * `relapsed` and `reshown` say that a pass without the lock wrote the settlement state, or the runner status, of the
   * reservation last.
   */
  datatype Snap = Snap(op: OpRow, s: Secrets, v: View, res: Reservation, relapsed: bool, reshown: bool, lock: Lock,
                       course: Course,
                       lapsed: seq<Lapsed>, loc: Loc, broker: Broker)

  /** What `SubmitABR` commits before any upstream side effect. */
  predicate Initial(a: Snap) {
    && a.op == OpRow(Queued, 0, None)
    && a.s == Secrets(a.s.order, None, None, false)
    && a.v == View(Pending, "", 0.0, NoCode, NoResult, None)
    && a.res == Reservation(Open, NotIssued, None, NoStatus)
    && !a.relapsed && !a.reshown && a.lock == Free && a.course == IDLE && a.lapsed == []
    && a.loc == Loc({}, Unanswered, false, None)
    && a.broker == Broker(0, {}, 0, NoRecord, {})
  }

  // ---------- derived values ----------

  /** What the client accepts as this job's settlement. */
  predicate Bound(job: Job, c: Claim) {
    c.request == job.request && c.work == job.work && c.unit == job.unit && c.units >= 0
  }

  predicate SettledAs(b: Broker, c: Claim) {
    b.exchange.Admitted? && b.exchange.settled == Some(c)
  }

  /** A typed success for this workload was heard from the runner. */
  predicate SuccessHeard(b: Broker, workload: Id) {
    Terminal(workload, true) in b.heard
  }

  predicate SettledByBroker(loc: Loc) {
    loc.closed.Some? && loc.closed.value.outcome.BrokerSettlement?
  }

  function TheOffer(s: Secrets): Offer
    requires s.job.Some?
  {
    Offer(s.job.value.request, s.job.value.work, s.order.body)
  }

  /** The runner status a pass records once LOC has closed. */
  function RunnerOf(loc: Loc, v: View): RunnerStatus {
    if SettledByBroker(loc) && v.result == RunSucceeded then Complete else Error
  }

  /** Playlists are shown for a succeeded job only. */
  predicate ShowsPlaylists(v: View) {
    v.status == Succeeded
  }

  // ---------- what a journal write may change ----------

  predicate KeepsIssue(a: Snap, o: OpRow, s: Secrets) {
    && s.order == a.s.order
    && 1 <= o.attempts && a.op.attempts <= o.attempts
    && (o.attempts == 1 <==> a.course.first)
    && (if a.s.job.Some? then s.job == a.s.job else s.job.Some? ==> a.loc.job == Granted(s.job.value))
  }

  predicate KeepsDispatch(a: Snap, s: Secrets) {
    && (a.s.dispatched ==> s.dispatched)
    && (s.dispatched && !a.s.dispatched ==> a.s.job.Some? && a.s.job.value.unit.FrameMegapixels?)
    && (if a.s.claim.Some? then s.claim == a.s.claim
        else s.claim.Some? ==> a.s.dispatched && a.s.job.Some? && Bound(a.s.job.value, s.claim.value)
                               && SettledAs(a.broker, s.claim.value))
  }

  predicate KeepsView(a: Snap, s: Secrets, v: View) {
    && (v.result == RunSucceeded ==> SuccessHeard(a.broker, s.order.id))
    && (v.status == Succeeded ==> v.result == RunSucceeded && SettledByBroker(a.loc))
    && (v.status == AdmissionRejected ==> s.dispatched)
    && (a.v.status == AdmissionRejected ==> v.status == AdmissionRejected || a.loc.closed.Some?)
  }

  predicate RefusedByLoc(a: Snap, o: OpRow, v: View) {
    && o.state == IssuanceRefused && o.attempts == 1
    && a.course.told && a.loc.job.Refused?
    && a.res.state == Refunded
    && v.status == Failed
  }

  predicate SettledByLoc(a: Snap, o: OpRow, s: Secrets, v: View) {
    && a.loc.closed.Some?
    && var c := a.loc.closed.value;
       && o.state == Accounted(c.outcome)
       && a.res.state == Committed(c.units) && a.res.billed == Some(c.billed)
       && (a.relapsed || a.res.settle == Settled)
       && (a.reshown || (a.res.runner == Complete <==> v.status == Succeeded))
       && (v.status == Succeeded || v.status == Failed)
       && (v.status == Succeeded <==> c.outcome.BrokerSettlement? && v.result == RunSucceeded)
       && (c.units.Some? ==> v.units == c.units)
       && (s.claim.Some? ==>
             a.loc.settleAsked && c.outcome.BrokerSettlement? && c.units == Some(s.claim.value.units))
       && v.phase == "finished" && (v.status == Succeeded ==> v.progress == 100.0)
       && v.failure == FailureOf(c, s.claim.Some?, v.status == Succeeded)
  }

  /** The failure code of a closed job: none after success or a settled claim, else what LOC says. */
  function FailureOf(c: Closure, claimed: bool, succeeded: bool): FailureCode {
    if claimed || succeeded then NoCode else if c.notAdmitted then NotAdmitted else LocOutcome(c.outcome)
  }

  predicate FinishOk(a: Snap, o: OpRow, s: Secrets, v: View) {
    && (o.state == IssuanceRefused ==> a.loc.job.Refused?)
    && (o.finished.Some? ==> RefusedByLoc(a, o, v) || SettledByLoc(a, o, s, v))
  }

  /** Everything a journal write obeys. */
  predicate SaveOk(a: Snap, o: OpRow, s: Secrets, v: View) {
    && a.lock.Held?
    && a.op.finished.None?
    && KeepsIssue(a, o, s)
    && KeepsDispatch(a, s)
    && KeepsView(a, s, v)
    && FinishOk(a, o, s, v)
  }

  // ---------- actions ----------

  /** `Release` ends a pass or its process; `Lose` kills the lock's connection and leaves the pass running. */
  datatype LockEvent = Acquire | Release | Lose | HearRefusal | ToldRefund | LookupFailed | LocNotClosed | Quit

  datatype MoneyEvent = SetLocJob | Refund | MarkSettled(billed: int) | Commit(units: Option<int>)
    | RecordRunner(status: RunnerStatus)

  datatype LocEvent = AskJob(order: Order) | AskSettle | LocGrant(job: Job) | LocRefuse(status: int)
    | LocClose(closure: Closure)

  datatype BrokerEvent = OfferJob(offer: Offer) | BrokerAdmit | BrokerReject | RunnerEvent(event: Event)
    | BrokerSettle(claim: Claim)

  /** `Late` is a request or a row update of the `i`-th pass that lost its lock. */
  datatype Action =
    | OnLock(lock: LockEvent)
    | Save(o: OpRow, s: Secrets, v: View)
    | OnReservation(money: MoneyEvent)
    | AtLoc(loc: LocEvent)
    | AtBroker(broker: BrokerEvent)
    | Late(i: nat, late: Action)

  /** What a pass can still do without its lock. */
  predicate Outlives(act: Action) {
    match act
    case OnLock(e) => e.HearRefusal? || e.ToldRefund? || e.LookupFailed? || e.LocNotClosed? || e.Quit?
    case OnReservation(_) => true
    case AtLoc(e) => e.AskJob? || e.AskSettle?
    case AtBroker(e) => e.OfferJob?
    case _ => false
  }

  /** Actions of the peers and of passes without the lock: they interleave with every pass. */
  predicate Environment(act: Action) {
    match act
    case AtLoc(e) => !e.AskJob? && !e.AskSettle?
    case AtBroker(e) => !e.OfferJob?
    case Late(_, _) => true
    case _ => false
  }

  predicate Acting(a: Snap) {
    a.lock.Held? && !a.course.done
  }

  predicate LockEnabled(a: Snap, e: LockEvent) {
    match e
    case Acquire => a.lock.Free? && a.op.finished.None?
    case Lose => a.lock.Held? && a.op.finished.None?
    case HearRefusal => Acting(a) && a.course.first && a.loc.job.Refused?
    case ToldRefund => Acting(a) && a.course.heard && a.res.state == Refunded
    case LookupFailed => Acting(a)
    case LocNotClosed => Acting(a)
    case _ => a.lock.Held?
  }

  /** What an event does where it is enabled; elsewhere it means nothing. The same holds of the functions below. */
  function ApplyLock(a: Snap, e: LockEvent): Snap {
    match e
    case Acquire =>
      a.(lock := Held,
         course := Course(false, a.op.attempts == 0, false, false, false, a.s.dispatched, false, false, false,
                          a.s.dispatched))
    case Release => a.(lock := Free, course := IDLE)
    case Lose => a.(lock := Free, course := IDLE, lapsed := a.lapsed + [Lapsed(a.op, a.s, a.v, a.course)])
    case HearRefusal => a.(course := a.course.(heard := true))
    case ToldRefund => a.(course := a.course.(told := true))
    case LookupFailed => a.(course := a.course.(lookupFailed := true))
    case LocNotClosed => a.(course := a.course.(notClosed := true, concludes := false))
    case Quit => a.(course := a.course.(done := true))
  }

  /**
   * A pass may conclude on LOC's closure: with a claim of its own, if it was asked to settle it and the broker's
   * settlement closed the job.
   */
  predicate Concludes(loc: Loc, s: Secrets, course: Course) {
    && loc.closed.Some? && course.registered && course.concludes
    && (s.claim.Some? ==> loc.settleAsked && SettledByBroker(loc))
  }

  /**
   * A pass registers LOC's job once, before anything else it does with the job; it concludes on LOC's closure alone.
   */
  predicate MoneyEnabled(a: Snap, e: MoneyEvent) {
    && Acting(a)
    && match e
       case SetLocJob => a.s.job.Some? && a.s.job.value.unit.FrameMegapixels? && !a.course.registered
       case Refund => a.course.heard && a.loc.job.Refused?
       case MarkSettled(billed) => Concludes(a.loc, a.s, a.course) && billed == a.loc.closed.value.billed
       case Commit(units) => Concludes(a.loc, a.s, a.course) && units == a.loc.closed.value.units
       case RecordRunner(status) => Concludes(a.loc, a.s, a.course) && status == RunnerOf(a.loc, a.v)
  }

  function ApplyMoney(res: Reservation, e: MoneyEvent): Reservation {
    match e
    case SetLocJob => res.(settle := SettlePending)
    case Refund => if res.state.Open? then res.(state := Refunded) else res
    case MarkSettled(billed) => res.(settle := Settled, billed := Some(billed))
    case Commit(units) => if res.state.Open? then res.(state := Committed(units)) else res
    case RecordRunner(status) => res.(runner := status)
  }

  function MoneyCourse(c: Course, e: MoneyEvent): Course {
    match e
    case SetLocJob => c.(registered := true)
    case RecordRunner(_) => c.(concludes := false)
    case _ => c
  }

  /**
   * LOC answers the request id once and keeps its answer; it closes a job once, as settled by the broker only on the
   * broker's terminal claim and with its units.
   */
  predicate LocEnabled(a: Snap, e: LocEvent) {
    match e
    case AskJob(order) => Acting(a) && a.s.job.None? && a.op.attempts >= 1 && order == a.s.order
    case AskSettle =>
      && Acting(a) && a.course.registered && a.s.dispatched
      && a.broker.exchange.Admitted? && a.broker.exchange.settled.Some?
    case LocGrant(_) => a.loc.asked != {} && a.loc.job.Unanswered?
    case LocRefuse(_) => a.loc.asked != {} && a.loc.job.Unanswered?
    case LocClose(c) =>
      && a.loc.job.Granted? && a.loc.closed.None?
      && (c.outcome.BrokerSettlement? ==>
            a.broker.exchange.Admitted? && a.broker.exchange.settled.Some?
                && c.units == Some(a.broker.exchange.settled.value.units))
  }

  function ApplyLoc(loc: Loc, e: LocEvent): Loc {
    match e
    case AskJob(order) => loc.(asked := loc.asked + {order})
    case AskSettle => loc.(settleAsked := true)
    case LocGrant(job) => loc.(job := Granted(job))
    case LocRefuse(status) => loc.(job := Refused(status))
    case LocClose(c) => loc.(closed := Some(c))
  }

  /** The broker admits a request once and settles once. */
  predicate BrokerEnabled(a: Snap, e: BrokerEvent) {
    match e
    case OfferJob(offer) =>
      && Acting(a) && a.course.marked && a.s.dispatched && a.s.job.Some? && offer == TheOffer(a.s)
      && a.s.claim.None? && a.v.status == Processing
    case BrokerAdmit => a.broker.offers > 0 && a.broker.exchange.NoRecord?
    case BrokerReject => a.broker.exchange.NoRecord?
    case RunnerEvent(_) => a.broker.exchange.Admitted?
    case BrokerSettle(c) =>
      && a.broker.exchange.Admitted? && a.broker.exchange.settled.None? && a.s.job.Some? && Bound(a.s.job.value, c)
  }

  function ApplyBroker(b: Broker, e: BrokerEvent): Broker {
    match e
    case OfferJob(offer) => b.(offers := b.offers + 1, offered := b.offered + {offer})
    case BrokerAdmit => b.(admissions := b.admissions + 1, exchange := Admitted(None))
    case BrokerReject => b.(exchange := Rejected)
    case RunnerEvent(event) => b.(heard := b.heard + {event})
    case BrokerSettle(c) => b.(exchange := Admitted(Some(c)))
  }

  function OfferCourse(c: Course): Course {
    c.(redispatch := true, lookupFailed := false, notClosed := false, marked := false)
  }

  function AfterMoney(a: Snap, e: MoneyEvent): Snap {
    a.(res := ApplyMoney(a.res, e), course := MoneyCourse(a.course, e),
       relapsed := if e.MarkSettled? || e.SetLocJob? then false else a.relapsed,
       reshown := if e.RecordRunner? then false else a.reshown)
  }

  function AfterBroker(a: Snap, e: BrokerEvent): Snap {
    a.(broker := ApplyBroker(a.broker, e), course := if e.OfferJob? then OfferCourse(a.course) else a.course)
  }

  /** An action of a pass that holds the lock, or of a peer. The peers' parts are their contracts. */
  predicate Acts(a: Snap, act: Action) {
    match act
    case OnLock(e) => LockEnabled(a, e)
    case OnReservation(e) => MoneyEnabled(a, e)
    case AtLoc(e) => LocEnabled(a, e)
    case AtBroker(e) => BrokerEnabled(a, e)
    case _ => false
  }

  /** The same, or a journal write. */
  predicate Direct(a: Snap, act: Action) {
    if act.Save? then SaveOk(a, act.o, act.s, act.v) && (act.o.finished.Some? ==> a.course.done) else Acts(a, act)
  }

  /** A pass may save that it dispatches once it checked broker and LOC, if a job may have been offered before. */
  predicate Checked(c: Course) {
    c.redispatch ==> c.lookupFailed && c.notClosed
  }

  function CourseAfterSave(a: Snap, o: OpRow, s: Secrets, v: View): Course {
    a.course.(marked := Checked(a.course) && o.state == Dispatching && s.dispatched && s.job.Some? && s.claim.None?
              && v.status == Processing,
              concludes := s.claim.Some? && a.s.claim.None?)
  }

  function ApplySave(a: Snap, o: OpRow, s: Secrets, v: View): Snap {
    a.(op := o, s := s, v := v, course := CourseAfterSave(a, o, s, v))
  }

  function ApplyAct(a: Snap, act: Action): Snap {
    match act
    case OnLock(e) => ApplyLock(a, e)
    case OnReservation(e) => AfterMoney(a, e)
    case AtLoc(e) => a.(loc := ApplyLoc(a.loc, e))
    case AtBroker(e) => AfterBroker(a, e)
    case _ => a
  }

  function ApplyDirect(a: Snap, act: Action): Snap {
    if act.Save? then ApplySave(a, act.o, act.s, act.v) else ApplyAct(a, act)
  }

  /** The journal and the lock as a pass that lost its lock last knew them; every other row and peer as it is. */
  function AsSeen(a: Snap, p: Lapsed): Snap {
    a.(op := p.op, s := p.s, v := p.v, lock := Held, course := p.course)
  }

  /** A pass without its lock does what it would have done with it, but for saves. */
  predicate LateEnabled(a: Snap, i: nat, act: Action) {
    i < |a.lapsed| && Outlives(act) && Acts(AsSeen(a, a.lapsed[i]), act)
  }

  /** When an action may happen. */
  predicate Enabled(a: Snap, act: Action) {
    if act.Late? then LateEnabled(a, act.i, act.late) else Direct(a, act)
  }

  /** Rows and peers change as they would; the journal does not. */
  function ApplyLate(a: Snap, i: nat, act: Action): Snap {
    if i >= |a.lapsed| then a else
    var b := ApplyAct(AsSeen(a, a.lapsed[i]), act);
    a.(res := b.res, loc := b.loc, broker := b.broker,
       relapsed := if act.OnReservation? && act.money.SetLocJob? then true else b.relapsed,
       reshown := a.reshown || (act.OnReservation? && act.money.RecordRunner?),
       lapsed := a.lapsed[i := a.lapsed[i].(course := b.course)])
  }

  function Apply(a: Snap, act: Action): Snap {
    if act.Late? then ApplyLate(a, act.i, act.late) else ApplyDirect(a, act)
  }

  // ---------- runs ----------

  ghost predicate Legal(a: Snap, log: seq<Action>) {
    log == [] ||
    (Legal(a, log[..|log| - 1]) && Enabled(Replay(a, log[..|log| - 1]), log[|log| - 1]))
  }

  ghost function Replay(a: Snap, log: seq<Action>): Snap {
    if log == [] then a else Apply(Replay(a, log[..|log| - 1]), log[|log| - 1])
  }

  // ---------- the invariant ----------

  ghost predicate Identity(op: OpRow, s: Secrets, loc: Loc) {
    && (forall q :: q in loc.asked ==> q == s.order)
    && (loc.asked != {} ==> op.attempts >= 1)
    && (!loc.job.Unanswered? ==> loc.asked != {})
    && (s.job.Some? ==> loc.job == Granted(s.job.value))
    && (s.dispatched ==> s.job.Some? && s.job.value.unit.FrameMegapixels?)
    && (op.state == IssuanceRefused ==> loc.job.Refused?)
  }

  /** What the pass under way has learned is so. */
  ghost predicate Standing(op: OpRow, s: Secrets, v: View, lock: Lock, course: Course, loc: Loc, offers: nat) {
    && (lock.Held? && course.first ==> op.attempts <= 1)
    && (lock.Held? && !course.first ==> op.attempts >= 1)
    && (lock.Held? && op.finished.Some? ==> course.done)
    && (course.heard ==> loc.job.Refused? && course.first && lock.Held?)
    && (course.told ==> course.heard)
    && (course.marked ==> lock.Held? && s.dispatched && s.claim.None? && v.status == Processing && Checked(course))
    && (course.concludes ==> lock.Held? && s.dispatched)
    && (lock.Held? && offers > 0 ==> course.redispatch)
  }

  ghost predicate Custody(s: Secrets, v: View, loc: Loc, broker: Broker) {
    && broker.admissions == (if broker.exchange.Admitted? then 1 else 0)
    && (broker.exchange.Admitted? ==> broker.offers > 0)
    && (broker.offers > 0 ==> s.dispatched)
    && (s.job.None? ==> broker.offered == {})
    && (s.job.Some? ==> forall f :: f in broker.offered ==> f == TheOffer(s))
    && (broker.exchange.Admitted? && broker.exchange.settled.Some? ==>
        s.job.Some? && Bound(s.job.value, broker.exchange.settled.value))
    && (s.claim.Some? ==> s.dispatched && s.job.Some? && Bound(s.job.value, s.claim.value)
                          && SettledAs(broker, s.claim.value))
    && (v.result == RunSucceeded ==> SuccessHeard(broker, s.order.id))
    && (v.status == Succeeded ==> v.result == RunSucceeded && SettledByBroker(loc))
    && (v.status == AdmissionRejected ==> s.dispatched)
    && (loc.closed.Some? ==> loc.job.Granted?)
    && (SettledByBroker(loc) ==> broker.exchange.Admitted? && broker.exchange.settled.Some?
                                 && loc.closed.value.units == Some(broker.exchange.settled.value.units))
  }

  ghost predicate Money(s: Secrets, res: Reservation, loc: Loc, broker: Broker) {
    && (res.state.Committed? ==> loc.closed.Some? && res.state.units == loc.closed.value.units)
    && (res.billed.Some? ==> loc.closed.Some? && res.billed.value == loc.closed.value.billed)
    && (res.settle == Settled ==> res.billed.Some?)
    && (res.state.Refunded? ==> loc.job.Refused?)
    && (res.runner == Complete ==> SuccessHeard(broker, s.order.id) && SettledByBroker(loc))
  }

  /** The two ways an ABR operation finishes. */
  ghost predicate Finished(a: Snap) {
    || (a.op.state == IssuanceRefused && a.loc.job.Refused? && a.res.state == Refunded && a.v.status == Failed)
    || SettledByLoc(a, a.op, a.s, a.v)
  }

  ghost predicate Core(a: Snap) {
    && Identity(a.op, a.s, a.loc)
    && Standing(a.op, a.s, a.v, a.lock, a.course, a.loc, a.broker.offers)
    && Custody(a.s, a.v, a.loc, a.broker)
    && Money(a.s, a.res, a.loc, a.broker)
    && (a.course.told ==> a.res.state == Refunded)
    && (a.op.finished.Some? ==> Finished(a))
  }

  /** What a pass without its lock last saved or read, the journal has kept. */
  ghost predicate LapsedOk(p: Lapsed, a: Snap) {
    && p.op.finished.None?
    && p.s.order == a.s.order
    && (p.s.job.Some? ==> a.s.job == p.s.job)
    && p.op.attempts <= a.op.attempts
    && (p.s.dispatched ==> p.s.job.Some? && a.s.dispatched)
    && (p.course.heard ==> a.loc.job.Refused? && p.course.first)
    && (p.course.marked ==>
          p.s.dispatched && p.s.claim.None? && p.v.status == Processing && Checked(p.course)
              && (a.lock.Held? ==> a.course.redispatch))
    && (p.course.concludes ==> p.s.dispatched)
    && (p.v.result == RunSucceeded ==> SuccessHeard(a.broker, a.s.order.id))
  }

  ghost predicate LapsedAt(a: Snap, i: nat) {
    i < |a.lapsed| ==> LapsedOk(a.lapsed[i], a)
  }

  ghost predicate Inv(a: Snap) {
    Core(a) && forall i: nat :: LapsedAt(a, i)
  }

  lemma InitialInv(a: Snap)
    requires Initial(a)
    ensures Inv(a)
  {
    hide SaveOk;
  }

  lemma LockStep(a: Snap, e: LockEvent)
    requires Core(a) && LockEnabled(a, e)
    ensures Core(ApplyLock(a, e))
  {
    hide Identity, Money;
  }

  lemma MoneyStep(a: Snap, e: MoneyEvent)
    requires Core(a) && MoneyEnabled(a, e)
    ensures Core(AfterMoney(a, e))
  {
    hide Identity;
  }

  lemma LocStep(a: Snap, e: LocEvent)
    requires Core(a) && LocEnabled(a, e)
    ensures Core(a.(loc := ApplyLoc(a.loc, e)))
  {
    hide Inv;
  }

  lemma BrokerStep(a: Snap, e: BrokerEvent)
    requires Core(a) && BrokerEnabled(a, e)
    ensures Core(AfterBroker(a, e))
  {
    hide Identity;
  }

  lemma SaveStep(a: Snap, o: OpRow, s: Secrets, v: View)
    requires Core(a) && SaveOk(a, o, s, v) && (o.finished.Some? ==> a.course.done)
    ensures Core(ApplySave(a, o, s, v))
  {
    var b := ApplySave(a, o, s, v);
    assert Identity(b.op, b.s, b.loc) by { hide Custody, Money, Standing, Finished; }
    assert Custody(b.s, b.v, b.loc, b.broker) by { hide Money, Standing, Finished, FinishOk; }
    assert Standing(b.op, b.s, b.v, b.lock, b.course, b.loc, b.broker.offers) by { hide Money, Custody, Finished,
          FinishOk, KeepsView; }
    hide Identity, Custody, Standing, KeepsView, KeepsDispatch, KeepsIssue;
  }

  /** Every action of a pass with the lock, or of a peer, keeps the core. */
  lemma CoreStep(a: Snap, act: Action)
    requires Core(a) && Direct(a, act)
    ensures Core(ApplyDirect(a, act))
  {
    hide Core, SaveOk, LockEnabled, MoneyEnabled, LocEnabled, BrokerEnabled, ApplyLock, ApplyLoc, ApplySave,
      AfterMoney, AfterBroker;
    match act
    case OnLock(e) => LockStep(a, e);
    case Save(o, s, v) => SaveStep(a, o, s, v);
    case OnReservation(e) => MoneyStep(a, e);
    case AtLoc(e) => LocStep(a, e);
    case AtBroker(e) => BrokerStep(a, e);
  }

  // ---------- what an action touches ----------

  /** A pass goes on from `c` to `d` without a save. */
  predicate GoesOn(c: Course, d: Course, refused: bool) {
    && (d.heard ==> c.heard || (refused && c.first))
    && d.first == c.first
    && (d.marked ==> c.marked) && (d.concludes ==> c.concludes)
    && (c.registered ==> d.registered) && (c.redispatch ==> d.redispatch)
    && (d.marked ==> d.redispatch == c.redispatch && (Checked(c) ==> Checked(d)))
    && (c.done ==> d.done)
  }

  /** Whatever is not a journal write leaves the journal, and everything it is not about. */
  predicate Touches(a: Snap, b: Snap, act: Action) {
    && b.op == a.op && b.s == a.s && b.v == a.v
    && (!act.OnLock? ==> b.lock == a.lock && GoesOn(a.course, b.course, a.loc.job.Refused?))
    && (!act.OnLock? ==> b.course.told == a.course.told && b.course.done == a.course.done)
    && (Outlives(act) ==> GoesOn(a.course, b.course, a.loc.job.Refused?))
    && (if act == OnLock(Lose)
        then a.lock.Held? && a.op.finished.None? && b.lapsed == a.lapsed + [Lapsed(a.op, a.s, a.v, a.course)]
        else b.lapsed == a.lapsed)
    && b.res == (if act.OnReservation? then ApplyMoney(a.res, act.money) else a.res)
    && (!act.OnReservation? ==> b.relapsed == a.relapsed && b.reshown == a.reshown)
    && (Environment(act) ==> b.course == a.course)
    && b.loc == (if act.AtLoc? then ApplyLoc(a.loc, act.loc) else a.loc)
    && b.broker == (if act.AtBroker? then ApplyBroker(a.broker, act.broker) else a.broker)
  }

  lemma LockTouches(a: Snap, e: LockEvent)
    requires LockEnabled(a, e)
    ensures Touches(a, ApplyLock(a, e), OnLock(e))
  {
    hide ApplyMoney, ApplyLoc, ApplyBroker;
  }

  lemma MoneyTouches(a: Snap, e: MoneyEvent)
    ensures Touches(a, AfterMoney(a, e), OnReservation(e))
  {
    hide ApplyLock, ApplyMoney, ApplyLoc, ApplyBroker;
  }

  lemma BrokerTouches(a: Snap, e: BrokerEvent)
    requires BrokerEnabled(a, e)
    ensures Touches(a, AfterBroker(a, e), AtBroker(e))
  {
    hide ApplyLock, ApplyMoney, ApplyLoc, ApplyBroker;
  }

  lemma ActTouches(a: Snap, act: Action)
    requires Acts(a, act)
    ensures Touches(a, ApplyAct(a, act), act)
  {
    hide LockEnabled, MoneyEnabled, LocEnabled, BrokerEnabled, ApplyLock, AfterMoney, ApplyLoc, AfterBroker;
    match act
    case OnLock(e) => LockTouches(a, e);
    case OnReservation(e) => MoneyTouches(a, e);
    case AtBroker(e) => BrokerTouches(a, e);
    case _ =>
  }

  // ---------- passes without the lock: what everyone else does ----------

  lemma LockKeepsLapsed(a: Snap, e: LockEvent, p: Lapsed)
    requires LockEnabled(a, e) && LapsedOk(p, a)
    ensures LapsedOk(p, ApplyLock(a, e))
  {
    hide SuccessHeard;
  }

  lemma SaveKeepsLapsed(a: Snap, o: OpRow, s: Secrets, v: View, p: Lapsed)
    requires SaveOk(a, o, s, v) && LapsedOk(p, a)
    ensures LapsedOk(p, ApplySave(a, o, s, v))
  {
    hide KeepsView, FinishOk;
  }

  lemma OthersKeepLapsed(a: Snap, act: Action, p: Lapsed)
    requires Acts(a, act) && LapsedOk(p, a) && !act.OnLock?
    ensures LapsedOk(p, ApplyAct(a, act))
  {
    hide MoneyEnabled, BrokerEnabled, ApplyMoney, LockEnabled, ApplyLock;
  }

  lemma LoseMakesLapsed(a: Snap)
    requires Core(a) && LockEnabled(a, Lose)
    ensures LapsedOk(Lapsed(a.op, a.s, a.v, a.course), ApplyLock(a, Lose))
  {
    hide Money;
  }

  lemma DirectKeepsLapsed(a: Snap, act: Action, i: nat)
    requires Core(a) && Direct(a, act) && LapsedAt(a, i)
    ensures LapsedAt(ApplyDirect(a, act), i)
  {
    hide Core, LapsedOk, SaveOk, LockEnabled, MoneyEnabled, LocEnabled, BrokerEnabled, ApplyLock, ApplySave,
      ApplyMoney, ApplyLoc, ApplyBroker, AfterMoney, AfterBroker, GoesOn;
    if act.Save? {
      KeepsLapsed(a, act.o, act.s, act.v);
    } else {
      ActTouches(a, act);
    }
    var b := ApplyDirect(a, act);
    if i < |a.lapsed| && i < |b.lapsed| {
      if act.OnLock? {
        LockKeepsLapsed(a, act.lock, a.lapsed[i]);
      } else if act.Save? {
        SaveKeepsLapsed(a, act.o, act.s, act.v, a.lapsed[i]);
      } else {
        OthersKeepLapsed(a, act, a.lapsed[i]);
      }
    } else if i < |b.lapsed| {
      LoseMakesLapsed(a);
    }
  }

  lemma KeepsLapsed(a: Snap, o: OpRow, s: Secrets, v: View)
    ensures ApplySave(a, o, s, v).lapsed == a.lapsed
  {
  }

  // ---------- passes without the lock: what they do ----------

  /** The journal is left alone; only requests grow at the peers. */
  predicate TouchesLate(a: Snap, b: Snap, i: nat, act: Action) {
    && i < |a.lapsed| && |b.lapsed| == |a.lapsed|
    && b.lapsed == a.lapsed[i := a.lapsed[i].(course := b.lapsed[i].course)]
    && GoesOn(a.lapsed[i].course, b.lapsed[i].course, a.loc.job.Refused?)
    && b.op == a.op && b.s == a.s && b.v == a.v && b.lock == a.lock && b.course == a.course
    && b.res == (if act.OnReservation? then ApplyMoney(a.res, act.money) else a.res)
    && (!act.OnReservation? ==> b.relapsed == a.relapsed && b.reshown == a.reshown)
    && b.loc == a.loc.(asked := b.loc.asked, settleAsked := b.loc.settleAsked) && a.loc.asked <= b.loc.asked
    && (a.loc.settleAsked ==> b.loc.settleAsked)
    && b.broker == a.broker.(offers := b.broker.offers, offered := b.broker.offered)
    && a.broker.offers <= b.broker.offers && a.broker.offered <= b.broker.offered
    && (!act.AtLoc? ==> b.loc == a.loc)
    && (!act.AtBroker? ==> b.broker == a.broker)
  }

  lemma LateTouches(a: Snap, i: nat, act: Action)
    requires LateEnabled(a, i, act)
    ensures TouchesLate(a, ApplyLate(a, i, act), i, act)
  {
    hide Acts, ApplyAct, ApplyMoney, GoesOn;
    var p := AsSeen(a, a.lapsed[i]);
    ActTouches(p, act);
  }

  lemma LateMoneyKeepsCore(a: Snap, i: nat, e: MoneyEvent)
    requires Core(a) && LapsedAt(a, i) && LateEnabled(a, i, OnReservation(e))
    ensures Core(ApplyLate(a, i, OnReservation(e)))
  {
    hide Identity, Standing, LockEnabled, LocEnabled, BrokerEnabled, ApplyLock, ApplyLoc, AfterBroker;
  }

  lemma LateAskKeepsCore(a: Snap, i: nat, e: LocEvent)
    requires Core(a) && LapsedAt(a, i) && LateEnabled(a, i, AtLoc(e))
    ensures Core(ApplyLate(a, i, AtLoc(e)))
  {
    hide LockEnabled, MoneyEnabled, BrokerEnabled, ApplyLock, AfterMoney, AfterBroker;
  }

  lemma LateOfferKeepsCore(a: Snap, i: nat, e: BrokerEvent)
    requires Core(a) && LapsedAt(a, i) && LateEnabled(a, i, AtBroker(e))
    ensures Core(ApplyLate(a, i, AtBroker(e)))
  {
    hide Identity, LockEnabled, MoneyEnabled, LocEnabled, ApplyLock, AfterMoney, ApplyLoc;
  }

  lemma LateLockKeepsCore(a: Snap, i: nat, e: LockEvent)
    requires Core(a) && LateEnabled(a, i, OnLock(e))
    ensures Core(ApplyLate(a, i, OnLock(e)))
  {
    hide Identity, Standing, Custody, Money, MoneyEnabled, LocEnabled, BrokerEnabled, AfterMoney, ApplyLoc, AfterBroker;
  }

  lemma LateKeepsCore(a: Snap, i: nat, act: Action)
    requires Core(a) && LateEnabled(a, i, act) && LapsedAt(a, i)
    ensures Core(ApplyLate(a, i, act))
  {
    hide Core, LapsedAt, Acts, ApplyLate;
    match act
    case OnLock(e) => LateLockKeepsCore(a, i, e);
    case OnReservation(e) => LateMoneyKeepsCore(a, i, e);
    case AtLoc(e) => LateAskKeepsCore(a, i, e);
    case AtBroker(e) => LateOfferKeepsCore(a, i, e);
  }

  lemma LateKeepsLapsed(a: Snap, i: nat, act: Action, j: nat)
    requires LateEnabled(a, i, act) && LapsedAt(a, i) && LapsedAt(a, j)
    ensures LapsedAt(ApplyLate(a, i, act), j)
  {
    hide LateEnabled, ApplyLate, ApplyMoney;
    LateTouches(a, i, act);
  }

  // ---------- every action, every run ----------

  /** What any enabled action may change. */
  lemma StepTouches(a: Snap, act: Action)
    requires Enabled(a, act)
    ensures act.Late? ==> TouchesLate(a, Apply(a, act), act.i, act.late)
    ensures act.Save? ==> SaveOk(a, act.o, act.s, act.v) && Apply(a, act) == ApplySave(a, act.o, act.s, act.v)
    ensures !act.Late? && !act.Save? ==> Touches(a, Apply(a, act), act)
  {
    hide SaveOk, ApplySave, Acts, ApplyAct, LateEnabled, ApplyLate, Touches, TouchesLate;
    if act.Late? {
      LateTouches(a, act.i, act.late);
    } else if !act.Save? {
      ActTouches(a, act);
    }
  }

  /** What an enabled action of the lock's holder, or of a peer, goes by. */
  lemma Guards(a: Snap, act: Action)
    requires Enabled(a, act)
    ensures act.OnLock? ==> LockEnabled(a, act.lock) && Apply(a, act) == ApplyLock(a, act.lock)
    ensures act.OnReservation? ==> MoneyEnabled(a, act.money) && Apply(a, act) == AfterMoney(a, act.money)
    ensures act.AtLoc? ==> LocEnabled(a, act.loc)
    ensures act.AtBroker? ==> BrokerEnabled(a, act.broker)
    ensures act.Save? ==> act.o.finished.Some? ==> a.course.done
  {
    hide SaveOk, ApplySave, LateEnabled, ApplyLate, LockEnabled, MoneyEnabled, LocEnabled, BrokerEnabled, ApplyLock,
      AfterMoney, ApplyLoc, AfterBroker;
  }

  /** A pass without the lock is one from before, further on, or the one that just lost it. */
  predicate LapsedFrom(a: Snap, b: Snap, j: nat) {
    j < |b.lapsed| ==>
      var q := b.lapsed[j];
      || (j < |a.lapsed| && var p := a.lapsed[j];
          q.op == p.op && q.s == p.s && q.v == p.v && GoesOn(p.course, q.course, a.loc.job.Refused?))
      || (q == Lapsed(a.op, a.s, a.v, a.course) && a.lock.Held? && a.op.finished.None?)
  }

  lemma LapsedEvolve(a: Snap, act: Action)
    requires Enabled(a, act)
    ensures forall j: nat :: LapsedFrom(a, Apply(a, act), j)
  {
    hide Enabled, Apply, SaveOk, ApplyLoc, ApplyBroker, ApplyMoney, CourseAfterSave, Checked;
    StepTouches(a, act);
  }

  lemma LateStep(a: Snap, i: nat, act: Action)
    requires Inv(a) && LateEnabled(a, i, act)
    ensures Inv(ApplyLate(a, i, act))
  {
    hide Core, LapsedAt, LateEnabled, ApplyLate;
    LateKeepsCore(a, i, act);
    forall j: nat ensures LapsedAt(ApplyLate(a, i, act), j) {
      LateKeepsLapsed(a, i, act, j);
    }
  }

  lemma DirectStep(a: Snap, act: Action)
    requires Inv(a) && Direct(a, act)
    ensures Inv(ApplyDirect(a, act))
  {
    hide Core, LapsedAt, Direct, ApplyDirect;
    CoreStep(a, act);
    forall j: nat ensures LapsedAt(ApplyDirect(a, act), j) {
      DirectKeepsLapsed(a, act, j);
    }
  }

  /** Every enabled action keeps the invariant, also those of passes that lost their lock. */
  lemma Step(a: Snap, act: Action)
    requires Inv(a) && Enabled(a, act)
    ensures Inv(Apply(a, act))
  {
    hide Inv, Direct, ApplyDirect, LateEnabled, ApplyLate;
    if act.Late? {
      LateStep(a, act.i, act.late);
    } else {
      DirectStep(a, act);
    }
  }

  /** The invariant holds in every state of every legal run. */
  lemma {:induction false} RunInv(a: Snap, log: seq<Action>)
    requires Inv(a) && Legal(a, log)
    ensures Inv(Replay(a, log))
    decreases |log|
  {
    hide Inv, Enabled, Apply;
    if log != [] {
      RunInv(a, log[..|log| - 1]);
      Step(Replay(a, log[..|log| - 1]), log[|log| - 1]);
    }
  }

  lemma {:induction false} Extend(a: Snap, log: seq<Action>, act: Action)
    requires Legal(a, log) && Enabled(Replay(a, log), act)
    ensures Legal(a, log + [act]) && Replay(a, log + [act]) == Apply(Replay(a, log), act)
  {
    hide Enabled, Apply;
    assert (log + [act])[..|log|] == log;
  }

  lemma {:induction false} Reachable(start: Snap, log: seq<Action>)
    requires Initial(start) && Legal(start, log)
    ensures Inv(Replay(start, log))
  {
    hide Inv, Initial, Legal, Replay;
    InitialInv(start);
    RunInv(start, log);
  }
}
