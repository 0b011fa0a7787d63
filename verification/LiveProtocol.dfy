/**
 * The rows, peers and atomic actions of one live operation.
 *
 * A `Snap` holds everything that survives a crash of the gateway process: the journal row with its decrypted
 * secrets and view, the reservation and stream rows, the advisory lock, and the records of LOC, the broker
 * and the runner. An `Action` changes a `Snap` atomically. The gateway's own actions are performed by `LiveWorker`;
 * the others belong to the environment and may happen between any two of them.
 */
module LiveProtocol {
  import opened Basics

  // ---------- the journal row ----------

  datatype OpState =
    | Queued | Prepared | Authorized | Dispatching | Provisioning | Active | Ending
    | AccountingPending | LocSettled | BrokerSettled | IssuanceRefused | Canceled

  datatype Reason =
    | NoReason | GatewayClose | OpenFailed | RefillRefusal | RunnerEnded | RecoveryFailed
    | OutputFailed | RunnerFailed | BackendFailed | CapacityExhausted | IngestFailed | PaymentUnrecoverable
    | OtherReason(text: string)

  datatype FailureCode = NoCode | KeyGrantExpired | RefillRefusedCode | LocHttp(status: int) | OtherCode(text: string)

  datatype OutputState = NoOutput | Waiting | Stalled | OtherOutput(text: string)

  datatype Status = Provisional | Live | Closing | Ended | Failed

  datatype Config = Config(op: Id, firstCap: int, limit: int, fund: int)

  const MAX_INT64: int := 0x7fff_ffff_ffff_ffff

  /** What the configuration loader accepts, plus the absence of overflow in `CurrentCap + fund`. */
  predicate ValidConfig(c: Config) {
    && 0 < c.limit
    && 0 < c.fund
    && c.firstCap == Min(c.limit, Max(120, 2 * c.fund))
    && c.limit + c.fund <= MAX_INT64
  }

  datatype OpRow = OpRow(state: OpState, attempts: nat, stop: bool, finished: Option<Time>)

  /** LOC's session authorization; `work` is the grant the gateway believes the broker is using. */
  datatype Grant = Grant(session: Id, request: Id, work: Id, extensible: bool)

  /** The broker's descriptor with its stream-key issuance grant. */
  datatype Descriptor = Descriptor(session: Id, work: Id, liveSchema: bool, urlsValid: bool, keyGrantUntil: Time)

  datatype Revision = Revision(request: Id, work: Id)

  /** The broker's signed terminal settlement for a session. */
  datatype Claim = Claim(session: Id, gateway: Id, work: Id, closed: bool, outputSeconds: bool, units: int,
                         closeReason: Reason, output: OutputState, failure: FailureCode)

  /** A stream-key issuance identity: the first is derived from the operation id, later ones are fresh. */
  datatype KeyId = FirstKey | RenewedKey(id: Id)

  datatype IssuedKey = IssuedKey(url: Id, expires: Time)

  datatype Secrets = Secrets(
    cap: int,
    prep: Option<Id>,
    body: Option<Id>,
    session: Option<Grant>,
    broker: Option<Descriptor>,
    claim: Option<Claim>,
    dispatched: bool,
    refillId: Option<Id>,
    refillCap: int,
    refill: Option<Revision>,
    refillRefused: bool,
    endReason: Reason,
    upstream: Option<Id>,
    keyExpires: Time,
    keyRequest: Option<KeyId>)

  datatype View = View(status: Status, closeReason: Reason, failure: FailureCode, output: OutputState,
                       units: Option<int>, mediaEnded: Option<Time>, playable: bool)

  // ---------- the other rows ----------

  datatype ReservationState = Open | Committed(units: Option<int>) | Refunded

  datatype Reservation = Reservation(state: ReservationState, billed: Option<int>)

  datatype StreamRow = StreamRow(status: Status, closeReason: Reason, ended: Option<Time>, locClosed: Option<Time>)

  /** The session advisory lock: who holds it, and what the holder has read so far. */
  datatype Lock = Lock(held: bool, worker: bool, sawStop: bool, hadKey: bool)

  const FREE := Lock(false, false, false, false)

  datatype RuntimeState = Running | WindingDown | Over

  /** What the broker answers to a poll. */
  datatype BrokerStatus = BrokerStatus(state: RuntimeState, outputSeconds: bool, claimed: int, runwayLow: bool,
                                       willRefuse: bool, output: OutputState, failure: FailureCode,
                                       closeReason: Reason)

  /** How far a pass has come with stream keys: how many it recorded, and whether the last one could be used. */
  datatype KeyPhase = Untried | Recorded(n: int) | Expired(n: int) | Usable

  /**
   * Where a pass stands, beyond what it saves: whether it has returned; whether a refusal may finish the operation (its
   * first attempt, or a refusal recorded before) and was heard; whether, since its last save, it has reread the stop
   * before an open; whether it saved its dispatch and has not sent the open yet; whether it may project a row that is
   * not closed; whether it has yet to ask LOC for its pending refill; whether it goes on to issue the first key;
   * whether its key or its key grant was found good; whether it has yet to ask the runner for a key; how far it has
   * come with keys; which adoption it has yet to count; and what its poll was answered.
   */
  datatype Course = Course(
    done: bool,
    mayRefuse: bool,
    heard: bool,
    cleared: bool,
    marked: bool,
    open: bool,
    asks: bool,
    nearKey: bool,
    checked: bool,
    wantsKey: bool,
    keys: KeyPhase,
    counts: Option<nat>,
    polled: Option<BrokerStatus>)

  const IDLE := Course(true, false, false, false, false, false, false, false, false, false, Untried, None, None)

  // ---------- LOC ----------

  datatype Answer<+T> = Unanswered | Granted(value: T) | Refused(status: int)

  datatype OpenRequest = OpenRequest(id: Id, gateway: Id, cap: int, body: Id)

  datatype RefillRequest = RefillRequest(id: Id, cap: int, observed: Option<int>)

  datatype IssuedRevision = IssuedRevision(id: Id, work: Id, cap: int)

  datatype Closure = Closure(units: int, billed: int, at: Time)

  datatype Loc = Loc(
    prepareAsked: bool,
    prepared: Answer<Id>,
    openAsked: set<OpenRequest>,
    authorized: Answer<Grant>,
    refillAsked: set<RefillRequest>,
    issued: seq<IssuedRevision>,
    declined: set<Id>,
    closeAsked: bool,
    closed: Option<Closure>)

  // ---------- broker and runner ----------

  datatype Admission =
    | NoRecord
    | Rejected
    | NotAdmitted
    | Admitted(session: Id, active: Id, taken: set<Id>, adoptions: nat, terminal: Option<Claim>)

  /**
   * `opens` counts opens sent by passes that held the lock, `lateOpens` those sent by passes that had lost it;
   * `endAsked` are the reasons with which it was asked to end the session.
   */
  datatype Broker = Broker(opens: nat, lateOpens: nat, admissions: nat, admission: Admission,
                           topUpSent: set<Id>, refusedTopUps: set<Id>, endAsked: set<Reason>)

  datatype Runner = Runner(asked: set<KeyId>, keys: map<KeyId, IssuedKey>)

  /** A pass whose lock connection died while it lives on: the row as it last was for it, and where it stood. */
  datatype Lapsed = Lapsed(op: OpRow, s: Secrets, v: View, lock: Lock, course: Course)

  /**
   * `strayed` says that a pass without the lock wrote the stream row last; `refills` is the product row's counter and
   * `counted` the adoptions it counts.
   */
  datatype Snap = Snap(
    cfg: Config,
    clock: Time,
    op: OpRow,
    s: Secrets,
    v: View,
    res: Reservation,
    stream: StreamRow,
    strayed: bool,
    refills: nat,
    counted: set<nat>,
    lock: Lock,
    course: Course,
    lapsed: seq<Lapsed>,
    loc: Loc,
    broker: Broker,
    runner: Runner,
    keysSaved: set<KeyId>)

  /** What `SubmitLive` commits before any upstream side effect. */
  predicate Initial(a: Snap) {
    && ValidConfig(a.cfg)
    && a.op == OpRow(Queued, 0, false, None)
    && a.s == Secrets(a.cfg.firstCap, None, None, None, None, None, false, None, 0, None, false, NoReason, None, 0,
                      None)
    && a.v == View(Provisional, NoReason, NoCode, Waiting, None, None, false)
    && a.res == Reservation(Open, None)
    && a.stream == StreamRow(Provisional, NoReason, None, None)
    && !a.strayed && a.refills == 0 && a.counted == {}
    && a.lock == FREE && a.course == IDLE && a.lapsed == []
    && a.loc == Loc(false, Unanswered, {}, Unanswered, {}, [], {}, false, None)
    && a.broker == Broker(0, 0, 0, NoRecord, {}, {}, {})
    && a.runner == Runner({}, map[])
    && a.keysSaved == {}
  }

  // ---------- derived values ----------

  predicate FailingReason(r: Reason) {
    r == OutputFailed || r == RunnerFailed || r == OpenFailed || r == BackendFailed || r == CapacityExhausted ||
    r == RecoveryFailed || r == IngestFailed || r == PaymentUnrecoverable
  }

  /** The terminal view: signed evidence outranks local reasons, sticky local failures survive an empty signed code. */
  function TerminalView(s: Secrets, v: View, units: int): (r: View) {
    var close := if s.claim.Some? && s.claim.value.closeReason != NoReason then s.claim.value.closeReason
        else s.endReason;
    var output := if s.claim.Some? && s.claim.value.output != NoOutput then s.claim.value.output else v.output;
    var failure := if s.claim.Some?
        && (s.claim.value.failure != NoCode || (v.failure != KeyGrantExpired && v.failure != RefillRefusedCode))
                   then s.claim.value.failure else v.failure;
    var status := if FailingReason(close) || failure != NoCode || output == Stalled then Failed else Ended;
    v.(units := Some(units), status := status, closeReason := close, output := output, failure := failure)
  }

  /** The product row the journal projects to. */
  function Projection(o: OpRow, v: View): StreamRow {
    var over := o.finished.Some? || v.mediaEnded.Some?;
    StreamRow(if over then v.status else if v.status == Provisional then Provisional else Live,
              v.closeReason,
              if v.mediaEnded.Some? then v.mediaEnded else o.finished,
              o.finished)
  }

  /** The row is `row`, unless a pass without the lock wrote last. */
  predicate Shown(a: Snap, row: StreamRow) {
    a.strayed || a.stream == row
  }

  /** The open request every issuance attempt of this operation carries. */
  function CanonicalOpen(cfg: Config, gateway: Id): OpenRequest {
    OpenRequest(cfg.op, gateway, cfg.firstCap, gateway)
  }

  /** The cap after `n` refills. */
  function CapAfter(cfg: Config, n: nat): int {
    if n == 0 then cfg.firstCap else Min(cfg.limit, CapAfter(cfg, n - 1) + cfg.fund)
  }

  predicate Issued(issued: seq<IssuedRevision>, id: Id, work: Id, cap: int) {
    IssuedRevision(id, work, cap) in issued
  }

  predicate Terminal(b: Broker, c: Claim) {
    b.admission.Admitted? && b.admission.terminal == Some(c)
  }

  predicate OpenSent(b: Broker) {
    b.opens + b.lateOpens > 0
  }

  predicate IsActive(b: Broker, work: Id) {
    b.admission.Admitted? && b.admission.active == work
  }

  /** What `lookupLiveClaim` and the client under it accept. */
  predicate Accepted(s: Secrets, c: Claim)
    requires s.session.Some? && s.prep.Some?
  {
    var id := if s.broker.Some? then s.broker.value.session else s.prep.value;
    && c.closed && c.outputSeconds && (c.session == id || c.gateway == id)
    && (c.work == s.session.value.work || (s.refill.Some? && c.work == s.refill.value.work))
    && c.gateway == s.prep.value
  }

  /** An answer to a poll that can be used. */
  predicate Sound(st: BrokerStatus) {
    st.outputSeconds && st.claimed >= 0
  }

  /** The session runs on and its runway is low. */
  predicate NeedsTopUp(st: BrokerStatus) {
    Sound(st) && st.state == Running && st.runwayLow && !st.willRefuse
  }

  /** The poll says the session ends, and why. */
  predicate EndsBy(st: BrokerStatus, r: Reason) {
    && Sound(st)
    && ((st.state == Over && r == if st.closeReason == NoReason then RunnerEnded else st.closeReason)
        || (st.state == WindingDown && r == RunnerEnded))
  }

  /** LOC has definitively refused to authorize this operation. */
  predicate LocRefused(loc: Loc) {
    loc.authorized.Refused? || loc.prepared.Refused?
  }

  /** Some refill request with this id has reached LOC. */
  predicate RefillSeen(asked: set<RefillRequest>, id: Id) {
    exists q :: q in asked && q.id == id
  }

  // ---------- what a journal write may change ----------

  predicate KeepsPreparation(a: Snap, s: Secrets) {
    && s.body == s.prep
    && (s.prep == a.s.prep
        || (a.s.prep.None? && a.lock.held && !a.lock.sawStop && s.prep.Some?
            && a.loc.prepared == Granted(s.prep.value)))
  }

  predicate KeepsSession(a: Snap, s: Secrets) {
    && (a.s.dispatched ==> s.dispatched)
    && (s.dispatched ==> a.s.session.Some?)
    && match a.s.session
       case None =>
         s.session.Some? ==> a.s.prep.Some? && a.loc.authorized == Granted(s.session.value)
       case Some(g) =>
         s.session.Some? && s.session.value == g.(work := s.session.value.work)
  }

  predicate KeepsBroker(a: Snap, s: Secrets) {
    && (s.broker.Some? ==> s.session.Some? && s.broker.value.work == s.session.value.work)
    && match a.s.broker
       case None =>
         s.broker.Some? ==>
           a.s.dispatched && a.broker.admission.Admitted? && a.broker.admission.session == s.broker.value.session
       case Some(d) =>
         s.broker.Some? && s.broker.value == d.(work := s.broker.value.work)
  }

  predicate SameGrant(a: Snap, s: Secrets) {
    s.cap == a.s.cap && (a.s.session.Some? ==> s.session.Some? && s.session.value.work == a.s.session.value.work)
  }

  predicate NoRefill(s: Secrets) {
    s.refillId.None? && s.refill.None? && s.refillCap == 0
  }

  /** The refill identity is untouched; its revision or its refusal may be recorded. */
  predicate RefillStays(a: Snap, s: Secrets) {
    && SameGrant(a, s)
    && s.refillId == a.s.refillId
    && s.refillCap == a.s.refillCap
    && (s.refill == a.s.refill
        || (a.s.refill.None? && a.s.refillId.Some? && s.refill.Some?
            && Issued(a.loc.issued, a.s.refillId.value, s.refill.value.work, a.s.refillCap)))
    && (s.refillRefused == a.s.refillRefused
        || (s.refillRefused && a.s.refill.Some? && a.s.refill.value.work in a.broker.refusedTopUps
            && s.endReason != NoReason))
  }

  /** A new refill identity is minted; its cap is one fund above the current cap, at most the limit. */
  predicate RefillMinted(a: Snap, s: Secrets) {
    && SameGrant(a, s)
    && NoRefill(a.s)
    && s.refillId.Some? && s.refill.None?
    && s.refillRefused == a.s.refillRefused
    && !RefillSeen(a.loc.refillAsked, s.refillId.value)
    && a.s.session.Some? && a.s.session.value.extensible
    && a.s.cap < a.cfg.limit
    && s.refillCap == Min(a.cfg.limit, a.s.cap + a.cfg.fund)
    && a.s.endReason == NoReason && s.endReason == NoReason
    && a.s.broker.Some? && a.s.claim.None? && a.s.upstream.Some?
    && a.course.polled.Some? && NeedsTopUp(a.course.polled.value)
  }

  /** The pending successor becomes the session's grant, because the broker uses it. */
  predicate RefillAdopted(a: Snap, s: Secrets) {
    && NoRefill(s)
    && a.s.refillId.Some? && a.s.refill.Some?
    && IsActive(a.broker, a.s.refill.value.work)
    && s.session.Some? && s.session.value.work == a.s.refill.value.work
    && s.cap == a.s.refillCap
    && s.refillRefused == a.s.refillRefused
  }

  /** The pending identity is dropped, because LOC declined it before any revision existed. */
  predicate RefillDropped(a: Snap, s: Secrets) {
    && SameGrant(a, s)
    && NoRefill(s)
    && a.s.refillId.Some? && a.s.refill.None?
    && a.s.refillId.value in a.loc.declined
    && s.refillRefused == a.s.refillRefused
    && s.endReason != NoReason
  }

  predicate KeepsRefill(a: Snap, s: Secrets) {
    RefillStays(a, s) || RefillMinted(a, s) || RefillAdopted(a, s) || RefillDropped(a, s)
  }

  /**
   * While no revision has been saved, a pending refill keeps reporting the same usage, or LOC's once LOC has closed.
   */
  predicate KeepsObserved(a: Snap, s: Secrets, v: View) {
    a.s.refillId.Some? && s.refillId == a.s.refillId && s.refill.None? ==>
      v.units == a.v.units || (a.loc.closed.Some? && v.units == Some(a.loc.closed.value.units))
  }

  /**
   * Why an end reason is written: a stop that was read, or a refused top-up; a failed open; a declined refill; an
   * expired key grant; or the broker's answer to the pass's poll.
   */
  predicate Reasoned(a: Snap, s: Secrets) {
    || (s.endReason == GatewayClose && (a.lock.sawStop || s.refillRefused))
    || (s.endReason == OpenFailed && s.broker.None?)
    || (s.endReason == RefillRefusal && RefillDropped(a, s))
    || (s.endReason == RecoveryFailed && GrantExpired(a.s, a.clock))
    || (a.course.polled.Some? && EndsBy(a.course.polled.value, s.endReason))
  }

  predicate KeepsReason(a: Snap, s: Secrets) {
    s.endReason == a.s.endReason || Reasoned(a, s)
  }

  /**
   * The evidence for a session with a descriptor comes after a request to end it for the saved reason, or after a
   * top-up that may have come too late.
   */
  predicate EvidenceSought(a: Snap, s: Secrets) {
    a.s.claim.None? && s.claim.Some? && a.s.broker.Some? ==>
      || (a.s.endReason != NoReason && a.s.endReason in a.broker.endAsked)
      || (a.s.refill.Some? && !a.s.refillRefused && a.s.refill.value.work in a.broker.topUpSent)
  }

  predicate KeepsClaim(a: Snap, s: Secrets) {
    && (a.s.claim.Some? ==> s.claim == a.s.claim)
    && (s.claim.Some? && a.s.claim.None? ==> Terminal(a.broker, s.claim.value))
    && (s.claim.Some? || s.endReason != NoReason ==> s.session.Some?)
    && (s.claim.Some? && s.broker.None? ==> s.endReason != NoReason)
    && (s.claim.Some? && s.refillId.Some? ==> s.refill.Some?)
    && (a.s.endReason != NoReason ==> s.endReason != NoReason)
  }

  predicate KeySame(a: Snap, s: Secrets) {
    s.upstream == a.s.upstream && s.keyExpires == a.s.keyExpires && s.keyRequest == a.s.keyRequest
  }

  /** A new issuance identity, only when none is outstanding. */
  predicate KeyMinted(a: Snap, s: Secrets) {
    && s.upstream == a.s.upstream && s.keyExpires == a.s.keyExpires
    && a.s.keyRequest.None? && s.keyRequest.Some?
    && s.keyRequest.value !in a.runner.asked
    && (s.keyRequest == Some(FirstKey) <==> a.s.upstream.None? && a.s.keyExpires == 0)
    && a.s.broker.Some? && a.s.broker.value.urlsValid
    && a.course.checked && (a.course.keys == Untried || a.course.keys == Expired(1))
    && (a.lock.held && a.lock.worker ==> s.endReason == NoReason)
  }

  /** The outstanding identity's matching response is recorded. */
  predicate KeyRecorded(a: Snap, s: Secrets) {
    && a.s.keyRequest.Some? && s.keyRequest.None?
    && a.s.keyRequest.value in a.runner.keys
    && a.course.checked && (a.course.keys == Untried || a.course.keys == Expired(1))
    && s.upstream == Some(a.runner.keys[a.s.keyRequest.value].url)
    && s.keyExpires == a.runner.keys[a.s.keyRequest.value].expires
  }

  predicate KeepsKey(a: Snap, s: Secrets) {
    KeySame(a, s) || KeyMinted(a, s) || KeyRecorded(a, s)
  }

  predicate KeepsState(a: Snap, o: OpRow, s: Secrets, v: View) {
    && a.op.attempts <= o.attempts
    && (s.prep.Some? ==> o.attempts >= 1)
    && (o.state == Active ==>
          || a.op.state == Active
          || (a.lock.held && a.lock.worker && !a.lock.hadKey && a.course.keys == Usable
              && s.endReason == NoReason && s.claim.None? && s.upstream.Some?))
    && (o.state == Active ==> v.mediaEnded.None?)
    && (a.v.mediaEnded.Some? ==> v.mediaEnded == a.v.mediaEnded)
    && (v.mediaEnded.Some? ==> s.claim.Some? || s.endReason != NoReason || (o.state == Canceled && o.finished.Some?))
    && (a.lock.held && a.lock.worker && o.attempts == 1 ==> a.course.mayRefuse)
    && (o.state == IssuanceRefused ==> LocRefused(a.loc) && (a.op.state == IssuanceRefused || a.course.heard))
  }

  /** The outcome a saved claim leads to. */
  function Outcome(s: Secrets, v: View): (Status, Reason, FailureCode, OutputState, int) {
    var units := if s.claim.Some? then s.claim.value.units else 0;
    var t := TerminalView(s, v, units);
    (t.status, t.closeReason, t.failure, t.output, units)
  }

  /** The edit a reconnect makes when the runner's key-issuance grant has expired. */
  function ExpireGrant(s: Secrets, v: View): (Secrets, View) {
    (s.(endReason := RecoveryFailed), v.(failure := KeyGrantExpired, status := Closing, closeReason := RecoveryFailed))
  }

  predicate KeyUsable(s: Secrets, clock: Time) {
    s.upstream.Some? && s.keyRequest.None? && s.keyExpires > clock + 15
  }

  predicate GrantExpired(s: Secrets, clock: Time) {
    s.broker.Some? && s.broker.value.urlsValid && s.broker.value.keyGrantUntil <= clock + 15
  }

  /** A reconnect finds its key unusable and the grant expired. */
  predicate GrantExpiry(a: Snap, o: OpRow, s: Secrets, v: View) {
    && a.lock.held && !a.lock.worker && !a.lock.sawStop && !a.course.checked
    && !KeyUsable(a.s, a.clock) && GrantExpired(a.s, a.clock)
    && a.op.state == Active && o.state == Ending && o.finished.None?
    && (s, v) == ExpireGrant(a.s, a.v)
  }

  predicate KeepsOutcome(a: Snap, o: OpRow, s: Secrets, v: View) {
    a.s.claim.Some? && s.claim == a.s.claim ==> Outcome(s, v) == Outcome(a.s, a.v) || GrantExpiry(a, o, s, v)
  }

  predicate CanceledBeforeAuthorization(a: Snap, o: OpRow, s: Secrets, v: View) {
    && o.state == Canceled
    && a.lock.held && a.lock.sawStop
    && s.prep.None?
    && a.res.state == Refunded
    && v.status == Ended && v.closeReason == GatewayClose && v.mediaEnded == o.finished
    && a.stream.status == Ended && a.stream.ended.Some?
  }

  predicate RefusedByLoc(a: Snap, o: OpRow, v: View) {
    && o.state == IssuanceRefused
    && a.course.heard && LocRefused(a.loc)
    && a.res.state == Refunded
    && v.status == Failed
    && a.stream.status != Provisional && a.stream.status != Live
  }

  predicate SettledByLoc(a: Snap, o: OpRow, s: Secrets, v: View) {
    && (o.state == LocSettled || o.state == BrokerSettled)
    && s.session.Some? && a.s.session.Some?
    && a.loc.closed.Some?
    && var c := a.loc.closed.value;
       && o.finished == Some(c.at)
       && (o.state == BrokerSettled ==> a.loc.closeAsked && s.claim.Some? && s.claim.value.units == c.units)
       && a.res == Reservation(Committed(Some(c.units)), Some(c.billed))
       && v == TerminalView(s, v, c.units)
       && Shown(a, Projection(o, v))
  }

  predicate FinishOk(a: Snap, o: OpRow, s: Secrets, v: View) {
    o.finished.Some? ==>
      CanceledBeforeAuthorization(a, o, s, v) || RefusedByLoc(a, o, v) || SettledByLoc(a, o, s, v)
  }

  /** Everything a journal write obeys. */
  predicate SaveOk(a: Snap, o: OpRow, s: Secrets, v: View) {
    && a.lock.held
    && a.op.finished.None?
    && KeepsPreparation(a, s)
    && KeepsSession(a, s)
    && KeepsBroker(a, s)
    && KeepsRefill(a, s)
    && KeepsObserved(a, s, v)
    && KeepsClaim(a, s)
    && KeepsReason(a, s)
    && EvidenceSought(a, s)
    && KeepsKey(a, s)
    && KeepsState(a, o, s, v)
    && KeepsOutcome(a, o, s, v)
    && FinishOk(a, o, s, v)
  }

  // ---------- actions ----------

  /** `Release` ends a pass or its process; `Lose` kills the lock's connection and leaves the pass running. */
  datatype LockEvent = Acquire(worker: bool) | Release | Lose | RereadStop | HearRefusal | CheckKey | JudgeKey
    | HearStatus(status: BrokerStatus) | Quit

  datatype MoneyEvent = Refund | MarkSettled(billed: int) | Commit(units: Option<int>)

  /**
   * Updates of the stream row: a cancellation, a refused issuance, a projection, perhaps the last before a save; and
   * its counter.
   */
  datatype StreamEvent = Cancel(at: Time) | Fail(at: Time) | Project(row: StreamRow, last: bool) | CountRefill

  /** Requests that reach LOC, and LOC's own transitions. */
  datatype LocEvent =
    | AskPrepare
    | AskOpen(open: OpenRequest)
    | AskRefill(refill: RefillRequest)
    | AskClose
    | LocPrepare(gateway: Id)
    | LocRefusePrepare(status: int)
    | LocOpen(grant: Grant)
    | LocRefuseOpen(status: int)
    | LocRevise(revise: RefillRequest, work: Id)
    | LocDecline(id: Id)
    | LocClose(closure: Closure)

  /** Requests that reach the broker, and the broker's own transitions. */
  datatype BrokerEvent =
    | OfferOpen(sawStop: bool)
    | OfferTopUp(work: Id)
    | AskEnd(reason: Reason)
    | BrokerAdmit(session: Id)
    | BrokerReject
    | BrokerFence
    | BrokerAdopt(work: Id)
    | BrokerRefuse(work: Id)
    | BrokerTerminate(claim: Claim)

  datatype RunnerEvent = AskKey(key: KeyId) | RunnerIssue(key: KeyId, issued: IssuedKey)

  /** `Late` is a request or a row update of the `i`-th pass that lost its lock. */
  datatype Action =
    | RequestStop
    | Tick(now: Time)
    | OnLock(lock: LockEvent)
    | Save(o: OpRow, s: Secrets, v: View)
    | OnReservation(money: MoneyEvent)
    | OnStream(stream: StreamEvent)
    | AtLoc(loc: LocEvent)
    | AtBroker(broker: BrokerEvent)
    | AtRunner(runner: RunnerEvent)
    | Late(i: nat, late: Action)

  /**
   * What a pass can still do without its lock: requests and row updates, hearing a refusal, looking at its key grant,
   * and returning.
   */
  predicate Outlives(act: Action) {
    match act
    case OnLock(e) => e.HearRefusal? || e.CheckKey? || e.Quit?
    case OnReservation(_) => true
    case OnStream(_) => true
    case AtLoc(e) => e.AskPrepare? || e.AskOpen? || e.AskRefill? || e.AskClose?
    case AtBroker(e) => e.OfferOpen? || e.OfferTopUp? || e.AskEnd?
    case AtRunner(e) => e.AskKey?
    case _ => false
  }

  /** Actions of the peers, the customer, the clock and passes without the lock: they interleave with every pass. */
  predicate Environment(act: Action) {
    match act
    case RequestStop => true
    case Tick(_) => true
    case AtLoc(e) => !e.AskPrepare? && !e.AskOpen? && !e.AskRefill? && !e.AskClose?
    case AtBroker(e) => !e.OfferOpen? && !e.OfferTopUp? && !e.AskEnd?
    case AtRunner(e) => e.RunnerIssue?
    case Late(_, _) => true
    case _ => false
  }

  /** Works LOC has already named in a grant. */
  predicate WorkSeen(root: Answer<Grant>, issued: seq<IssuedRevision>, work: Id) {
    || (root.Granted? && root.value.work == work)
    || (exists i :: 0 <= i < |issued| && issued[i].work == work)
  }

  predicate IdIssued(issued: seq<IssuedRevision>, id: Id) {
    exists i :: 0 <= i < |issued| && issued[i].id == id
  }

  /** The pending refill's revision has been issued by LOC but not yet adopted by the journal. */
  predicate PendingIssued(s: Secrets, issued: seq<IssuedRevision>) {
    s.refillId.Some? && issued != [] && issued[|issued| - 1].id == s.refillId.value
  }

  /** How many refills the journal has adopted. */
  function Adopted(s: Secrets, issued: seq<IssuedRevision>): nat {
    if PendingIssued(s, issued) then |issued| - 1 else |issued|
  }

  /** A pass that holds the lock and has not returned. */
  predicate Acting(a: Snap) {
    a.lock.held && !a.course.done
  }

  predicate LockEnabled(a: Snap, e: LockEvent) {
    match e
    case Acquire(_) => !a.lock.held && a.op.finished.None?
    case Release => a.lock.held
    case Lose => a.lock.held && a.op.finished.None?
    case RereadStop => Acting(a) && (a.lock.worker ==> !a.course.checked)
    case HearRefusal =>
      Acting(a) && a.lock.worker && a.course.mayRefuse && LocRefused(a.loc) && a.s.session.None?
          && !(a.lock.sawStop && a.s.prep.None?)
    case CheckKey => Acting(a) && ChecksKey(a.op.state, a.s, a.lock, a.course, a.clock)
    case JudgeKey => Acting(a) && a.course.keys.Recorded?
    case HearStatus(_) => Acting(a) && a.lock.worker && a.s.broker.Some?
    case Quit => a.lock.held && a.lock.worker
  }

  /**
   * The pass goes on to project the row as running or ending: its evidence is loaded, or it read the stop and polls.
   */
  predicate GoesOn(worker: bool, sawStop: bool, s: Secrets) {
    && worker && s.session.Some? && s.claim.None?
    && (if s.broker.None? then sawStop else !sawStop && s.endReason == NoReason && s.refillId.None? && s.upstream.Some?)
  }

  /**
   * The pass goes on to issue the first key: it read no stop, nothing has ended the session, there is no top-up to
   * replay and no address.
   */
  predicate GoesToKey(worker: bool, sawStop: bool, s: Secrets) {
    && worker && !sawStop && s.session.Some? && s.broker.Some? && s.claim.None? && s.endReason == NoReason
    && s.refillId.None? && s.upstream.None?
  }

  /** The runner's grant for issuing keys can be used. */
  predicate GrantGood(s: Secrets, clock: Time) {
    s.broker.Some? && s.broker.value.urlsValid && s.broker.value.keyGrantUntil > clock + 15
  }

  /** A pass that goes on to issue a key finds its grant good; a reconnect may also find its key still usable. */
  predicate ChecksKey(state: OpState, s: Secrets, lock: Lock, course: Course, clock: Time) {
    && !course.checked
    && (if lock.worker then course.nearKey && GrantGood(s, clock)
        else state == Active && !lock.sawStop && (KeyUsable(s, clock) || GrantGood(s, clock)))
  }

  /** A refill is pending and LOC's revision is not saved: the pass asks for it before anything else. */
  predicate HasRefillToAsk(s: Secrets) {
    s.broker.Some? && s.claim.None? && s.refillId.Some? && s.refill.None? && !s.refillRefused
  }

  /** Having read the stop, a pass knows where it goes on. */
  function RereadCourse(c: Course, worker: bool, sawStop: bool, s: Secrets): Course {
    c.(cleared := worker && s.session.Some? && s.broker.None? && s.claim.None?,
       open := GoesOn(worker, sawStop, s),
       asks := worker && HasRefillToAsk(s),
       nearKey := GoesToKey(worker, sawStop, s))
  }

  /** What an event does where it is enabled; elsewhere it means nothing. The same holds of the functions below. */
  function ApplyLock(a: Snap, e: LockEvent): Snap {
    match e
    case Acquire(worker) =>
      a.(lock := Lock(true, worker, a.op.stop, a.s.upstream.Some?),
         course := Course(false, worker && (a.op.attempts == 0 || a.op.state == IssuanceRefused), false, false, false,
                          worker && a.s.claim.Some?, false, false, false, false, Untried, None, None))
    case Release => a.(lock := FREE, course := IDLE)
    case Lose => a.(lock := FREE, course := IDLE, lapsed := a.lapsed + [Lapsed(a.op, a.s, a.v, a.lock, a.course)])
    case RereadStop =>
      if !a.lock.held then a else
      var stop := a.lock.sawStop || a.op.stop;
      a.(lock := a.lock.(sawStop := stop),
         course := RereadCourse(a.course, a.lock.worker, stop, a.s))
    case HearRefusal => a.(course := a.course.(heard := true))
    case CheckKey => a.(course := a.course.(nearKey := false, checked := true, wantsKey := a.s.keyRequest.Some?))
    case JudgeKey =>
      if !a.course.keys.Recorded? then a
      else a.(course := a.course.(keys := if KeyUsable(a.s, a.clock) then Usable else Expired(a.course.keys.n)))
    case HearStatus(st) => a.(course := a.course.(polled := Some(st)))
    case Quit => a.(course := a.course.(done := true))
  }

  /** A refund needs a refusal heard from LOC, or a stop seen before any preparation was saved. */
  predicate MoneyEnabled(a: Snap, e: MoneyEvent) {
    && Acting(a)
    && match e
       case Refund => a.lock.worker && ((a.course.heard && LocRefused(a.loc)) || (a.lock.sawStop && a.s.prep.None?))
       case MarkSettled(billed) => a.loc.closed.Some? && billed == a.loc.closed.value.billed
       case Commit(units) => a.loc.closed.Some? && units == Some(a.loc.closed.value.units)
  }

  function ApplyMoney(res: Reservation, e: MoneyEvent): Reservation {
    match e
    case Refund => if res.state.Open? then res.(state := Refunded) else res
    case MarkSettled(billed) => res.(billed := Some(billed))
    case Commit(units) => if res.state.Open? then res.(state := Committed(units)) else res
  }

  /** A projection shows LOC's closing time once LOC has closed, or no closing time while the pass goes on. */
  predicate StreamEnabled(a: Snap, e: StreamEvent) {
    && Acting(a) && a.lock.worker
    && match e
       case Cancel(_) => a.lock.sawStop && a.s.prep.None?
       case Fail(_) => a.course.heard
       case Project(row, _) =>
         a.s.session.Some? && (if row.locClosed.None? then a.course.open
                               else a.loc.closed.Some? && row.locClosed == Some(a.loc.closed.value.at))
       case CountRefill => a.course.counts.Some?
  }

  function StreamAfter(row: StreamRow, e: StreamEvent): StreamRow {
    match e
    case Cancel(at) => row.(status := Ended, closeReason := GatewayClose,
                            ended := if row.ended.Some? then row.ended else Some(at))
    case Fail(at) => if row.status == Provisional || row.status == Live then row.(status := Failed, ended := Some(at))
        else row
    case Project(new_, _) => new_
    case CountRefill => row
  }

  function ApplyStream(a: Snap, e: StreamEvent): Snap {
    if e.CountRefill? && a.course.counts.Some? then
      a.(refills := a.refills + 1, counted := a.counted + {a.course.counts.value}, course := a.course.(counts := None))
    else
      a.(stream := StreamAfter(a.stream, e), strayed := if e.Project? then false else a.strayed,
         course := if e.Project? && e.last then a.course.(open := false) else a.course)
  }

  /**
   * LOC answers a request id once and keeps its answer, issues at most one revision for a refill id, each with a work
   * id of its own, and closes once: on the broker's terminal settlement, or on the broker's non-admission.
   */
  predicate LocEnabled(a: Snap, e: LocEvent) {
    match e
    case AskPrepare => Acting(a) && a.lock.worker && a.s.prep.None? && !a.lock.sawStop
    case AskOpen(open) =>
      && Acting(a) && a.lock.worker && a.op.attempts >= 1
      && a.s.prep.Some? && a.s.session.None? && a.s.body.Some?
      && open == OpenRequest(a.cfg.op, a.s.prep.value, a.s.cap, a.s.body.value)
    case AskRefill(refill) =>
      && Acting(a) && a.lock.worker && a.course.asks
      && a.s.refillId == Some(refill.id) && a.s.refill.None? && refill.cap == a.s.refillCap
      && refill.observed == a.v.units
    case AskClose => Acting(a) && a.lock.worker && a.s.claim.Some? && a.v.mediaEnded.Some?
    case LocPrepare(_) => a.loc.prepareAsked && a.loc.prepared.Unanswered?
    case LocRefusePrepare(_) => a.loc.prepareAsked && a.loc.prepared.Unanswered?
    case LocOpen(grant) => a.loc.openAsked != {} && a.loc.authorized.Unanswered?
    case LocRefuseOpen(_) => a.loc.openAsked != {} && a.loc.authorized.Unanswered?
    case LocRevise(q, work) =>
      && q in a.loc.refillAsked && a.loc.authorized.Granted? && a.loc.closed.None?
      && !IdIssued(a.loc.issued, q.id) && q.id !in a.loc.declined && !WorkSeen(a.loc.authorized, a.loc.issued, work)
    case LocDecline(id) => RefillSeen(a.loc.refillAsked, id) && !IdIssued(a.loc.issued, id)
    case LocClose(c) =>
      && a.loc.authorized.Granted? && a.loc.closed.None? && 0 <= c.units
      && (a.broker.admission.Rejected? || a.broker.admission.NotAdmitted?
          || (a.broker.admission.Admitted? && a.broker.admission.terminal.Some?
              && a.broker.admission.terminal.value.units == c.units))
  }

  function ApplyLoc(loc: Loc, e: LocEvent): Loc {
    match e
    case AskPrepare => loc.(prepareAsked := true)
    case AskOpen(open) => loc.(openAsked := loc.openAsked + {open})
    case AskRefill(refill) => loc.(refillAsked := loc.refillAsked + {refill})
    case AskClose => loc.(closeAsked := true)
    case LocPrepare(gateway) => loc.(prepared := Granted(gateway))
    case LocRefusePrepare(status) => loc.(prepared := Refused(status))
    case LocOpen(grant) => loc.(authorized := Granted(grant))
    case LocRefuseOpen(status) => loc.(authorized := Refused(status))
    case LocRevise(q, work) => loc.(issued := loc.issued + [IssuedRevision(q.id, work, q.cap)])
    case LocDecline(id) => loc.(declined := loc.declined + {id})
    case LocClose(c) => loc.(closed := Some(c))
  }

  function AfterLoc(a: Snap, e: LocEvent): Snap {
    a.(loc := ApplyLoc(a.loc, e), course := if e.AskRefill? then a.course.(asks := false) else a.course)
  }

  /**
   * The broker decides a request once, keeps one active grant that only an admitted top-up replaces, never admits a
   * top-up it refused or already used, and signs one terminal settlement, for the grant active at the end.
   */
  predicate BrokerEnabled(a: Snap, e: BrokerEvent) {
    match e
    case OfferOpen(sawStop) =>
      && Acting(a) && a.lock.worker && sawStop == a.lock.sawStop && a.course.marked
      && a.s.dispatched && a.s.session.Some? && a.s.broker.None? && a.s.claim.None?
      && (sawStop ==> a.broker.admission.Admitted?)
    case OfferTopUp(work) =>
      && Acting(a) && a.lock.worker
      && a.s.refill.Some? && a.s.refill.value.work == work && !a.s.refillRefused && a.s.claim.None?
    case AskEnd(reason) =>
      && Acting(a) && a.lock.worker && a.s.broker.Some? && a.s.claim.None?
      && reason == a.s.endReason && reason != NoReason && (a.s.refillId.Some? ==> a.s.refillRefused)
    case BrokerAdmit(_) => OpenSent(a.broker) && a.broker.admission.NoRecord? && a.loc.authorized.Granted?
    case BrokerReject => OpenSent(a.broker) && a.broker.admission.NoRecord?
    case BrokerFence => a.broker.admission.NoRecord?
    case BrokerAdopt(work) =>
      && work in a.broker.topUpSent && work !in a.broker.refusedTopUps
      && a.broker.admission.Admitted? && a.broker.admission.terminal.None? && work !in a.broker.admission.taken
    case BrokerRefuse(work) =>
      work in a.broker.topUpSent && a.broker.admission.Admitted? && work !in a.broker.admission.taken
    case BrokerTerminate(c) =>
      && a.broker.admission.Admitted? && a.broker.admission.terminal.None? && a.s.prep.Some?
      && c.session == a.broker.admission.session && c.work == a.broker.admission.active
      && c.gateway == a.s.prep.value && c.closed && c.outputSeconds && 0 <= c.units
  }

  function ApplyBroker(a: Snap, e: BrokerEvent): Broker {
    var b := a.broker;
    match e
    case OfferOpen(_) => b.(opens := b.opens + 1)
    case OfferTopUp(work) => b.(topUpSent := b.topUpSent + {work})
    case AskEnd(reason) => b.(endAsked := b.endAsked + {reason})
    case BrokerAdmit(session) =>
      if !a.loc.authorized.Granted? then b else
      var root := a.loc.authorized.value.work;
      b.(admissions := b.admissions + 1, admission := Admitted(session, root, {root}, 0, None))
    case BrokerReject => b.(admission := Rejected)
    case BrokerFence => b.(admission := NotAdmitted)
    case BrokerAdopt(work) =>
      if !b.admission.Admitted? then b else
      b.(admission := b.admission.(active := work, taken := b.admission.taken + {work},
                                   adoptions := b.admission.adoptions + 1))
    case BrokerRefuse(work) => b.(refusedTopUps := b.refusedTopUps + {work})
    case BrokerTerminate(c) => if !b.admission.Admitted? then b else b.(admission := b.admission.(terminal := Some(c)))
  }

  function AfterBroker(a: Snap, e: BrokerEvent): Snap {
    a.(broker := ApplyBroker(a, e), course := if e.OfferOpen? then a.course.(marked := false) else a.course)
  }

  /** The runner issues one key for an issuance id. */
  predicate RunnerEnabled(a: Snap, e: RunnerEvent) {
    match e
    case AskKey(key) => Acting(a) && a.course.wantsKey && a.s.keyRequest == Some(key)
        && (a.lock.worker ==> a.s.endReason == NoReason)
    case RunnerIssue(key, _) => key in a.runner.asked && key !in a.runner.keys
  }

  function ApplyRunner(runner: Runner, e: RunnerEvent): Runner {
    match e
    case AskKey(key) => runner.(asked := runner.asked + {key})
    case RunnerIssue(key, issued) => runner.(keys := runner.keys[key := issued])
  }

  function AfterRunner(a: Snap, e: RunnerEvent): Snap {
    a.(runner := ApplyRunner(a.runner, e), course := if e.AskKey? then a.course.(wantsKey := false) else a.course)
  }

  /**
   * An action of a pass that holds the lock, of a peer, of the customer or of the clock. The peers' parts are their
   * contracts.
   */
  predicate Acts(a: Snap, act: Action) {
    match act
    case RequestStop => a.op.finished.None?
    case Tick(now) => a.clock <= now
    case OnLock(e) => LockEnabled(a, e)
    case OnReservation(e) => MoneyEnabled(a, e)
    case OnStream(e) => StreamEnabled(a, e)
    case AtLoc(e) => LocEnabled(a, e)
    case AtBroker(e) => BrokerEnabled(a, e)
    case AtRunner(e) => RunnerEnabled(a, e)
    case _ => false
  }

  /** The same, or a journal write. */
  predicate Direct(a: Snap, act: Action) {
    if act.Save? then SaveOk(a, act.o, act.s, act.v) && (act.o.finished.Some? ==> a.course.done) else Acts(a, act)
  }

  /**
   * The pass may still project the row as not closed once this is saved: new evidence, activation, an adopted refill.
   */
  predicate OpensRow(a: Snap, o: OpRow, s: Secrets) {
    || (a.s.claim.None? && s.claim.Some?)
    || (a.op.state != Active && o.state == Active)
    || (a.s.refillId.Some? && a.s.refill.Some? && s.refillId.None? && s.endReason == NoReason)
  }

  function CourseAfterSave(a: Snap, o: OpRow, s: Secrets): Course {
    a.course.(cleared := false,
              marked := a.course.cleared && o.state == Dispatching && s.dispatched && s.broker.None? && s.claim.None?,
              open := a.lock.held && a.lock.worker && OpensRow(a, o, s),
              asks := a.lock.held && a.lock.worker && a.s.refillId.None? && s.refillId.Some?,
              nearKey := false,
              wantsKey := s.keyRequest.Some? && (a.s.keyRequest.None? || a.course.wantsKey),
              keys := if a.s.keyRequest.Some? && s.keyRequest.None?
                      then Recorded(if a.course.keys.Expired? then a.course.keys.n + 1 else 1) else a.course.keys,
              counts := if a.s.refill.Some? && s.refillId.None? then Some(Adopted(s, a.loc.issued))
                  else a.course.counts)
  }

  /** The journal write: `stop` belongs to another writer and is not written. */
  function ApplySave(a: Snap, o: OpRow, s: Secrets, v: View): Snap {
    a.(op := o.(stop := a.op.stop), s := s, v := v, course := CourseAfterSave(a, o, s),
       keysSaved := if a.s.keyRequest.Some? && s.keyRequest.None? then a.keysSaved + {a.s.keyRequest.value}
           else a.keysSaved)
  }

  function ApplyAct(a: Snap, act: Action): Snap {
    match act
    case RequestStop => a.(op := a.op.(stop := true))
    case Tick(now) => a.(clock := now)
    case OnLock(e) => ApplyLock(a, e)
    case OnReservation(e) => a.(res := ApplyMoney(a.res, e))
    case OnStream(e) => ApplyStream(a, e)
    case AtLoc(e) => AfterLoc(a, e)
    case AtBroker(e) => AfterBroker(a, e)
    case AtRunner(e) => AfterRunner(a, e)
    case _ => a
  }

  function ApplyDirect(a: Snap, act: Action): Snap {
    if act.Save? then ApplySave(a, act.o, act.s, act.v) else ApplyAct(a, act)
  }

  /** The journal and the lock as a pass that lost its lock last knew them; every other row and peer as it is. */
  function AsSeen(a: Snap, p: Lapsed): Snap {
    a.(op := p.op, s := p.s, v := p.v, lock := p.lock, course := p.course)
  }

  /** A pass without its lock does what it would have done with it, but for saves and reads. */
  predicate LateEnabled(a: Snap, i: nat, act: Action) {
    i < |a.lapsed| && Outlives(act) && Acts(AsSeen(a, a.lapsed[i]), act)
  }

  /** When an action may happen. */
  predicate Enabled(a: Snap, act: Action) {
    if act.Late? then LateEnabled(a, act.i, act.late) else Direct(a, act)
  }

  /** Rows and peers change as they would; the journal does not. */
  function ApplyLate(a: Snap, i: nat, act: Action): Snap {
    if i >= |a.lapsed| then a else
    var b := ApplyAct(AsSeen(a, a.lapsed[i]), act);
    a.(res := b.res, stream := b.stream, strayed := a.strayed || (act.OnStream? && act.stream.Project?),
       refills := b.refills, counted := b.counted, loc := b.loc, runner := b.runner,
       broker := b.broker.(opens := a.broker.opens,
                           lateOpens := a.broker.lateOpens + if act.AtBroker? && act.broker.OfferOpen? then 1 else 0),
       lapsed := a.lapsed[i := a.lapsed[i].(course := b.course)])
  }

  function Apply(a: Snap, act: Action): Snap {
    if act.Late? then ApplyLate(a, act.i, act.late) else ApplyDirect(a, act)
  }

  // ---------- runs ----------

  /** Every action of `log`, in order, is enabled when it happens. */
  ghost predicate Legal(a: Snap, log: seq<Action>) {
    log == [] ||
    (Legal(a, log[..|log| - 1]) && Enabled(Replay(a, log[..|log| - 1]), log[|log| - 1]))
  }

  ghost function Replay(a: Snap, log: seq<Action>): Snap {
    if log == [] then a else Apply(Replay(a, log[..|log| - 1]), log[|log| - 1])
  }
}
