/**
 * Concrete runs from submission, in the engine's own steps: how a job succeeds, what a pass without its lock still
 * does, how a refusal is missed, a rejection forgotten, and a claim left unfinished.
 */
module AbrWitness {
  import opened Basics
  import opened AbrProtocol
  import opened AbrTheorems
  import opened AbrEndings

  const JOB := Job(4, 1, 2, FrameMegapixels)
  const CLAIM := Claim(1, 2, FrameMegapixels, 6, 60)
  const SETTLED := Closure(BrokerSettlement, false, Some(60), 5, 9)
  const CHARGED := Closure(OtherAccounting("conservative"), false, Some(100), 7, 9)
  const RELEASED := Closure(OtherAccounting("released"), true, None, 0, 9)

  const FIRST := Course(false, true, false, false, false, false, false, false, false, false)

  // ---------- from submission to LOC's answer ----------

  /** The first pass saved that it asks, and asked. */
  function Asking(a: Snap): Snap {
    a.(op := OpRow(Authorizing, 1, None), lock := Held, course := FIRST,
       loc := Loc({a.s.order}, Unanswered, false, None))
  }

  lemma {:induction false} Asks(a: Snap) returns (log: seq<Action>)
    requires Initial(a)
    ensures Leads(a, log, Asking(a))
  {
    hide Leads;
    Stay(a);
    ThenLock(a, [], a, Acquire);
    log := [] + [OnLock(Acquire)];
    var b := ApplyLock(a, Acquire);
    var o := OpRow(Authorizing, 1, None);
    ThenSave(a, log, b, o, b.s, b.v);
    log, b := log + [Action.Save(o, b.s, b.v)], ApplySave(b, o, b.s, b.v);
    ThenLoc(a, log, b, AskJob(a.s.order));
    assert {a.s.order} == b.loc.asked + {a.s.order};
    log := log + [AtLoc(AskJob(a.s.order))];
  }

  /** LOC authorized the job, and the answer is saved. */
  function Authorization(a: Snap): Snap {
    Asking(a).(op := OpRow(Authorized, 1, None), s := a.s.(job := Some(JOB)),
               loc := Loc({a.s.order}, Granted(JOB), false, None))
  }

  lemma {:induction false} Authorizes(a: Snap) returns (log: seq<Action>)
    requires Initial(a)
    ensures Leads(a, log, Authorization(a))
  {
    hide Leads;
    log := Asks(a);
    var b := Asking(a);
    ThenLoc(a, log, b, LocGrant(JOB));
    log, b := log + [AtLoc(LocGrant(JOB))], b.(loc := b.loc.(job := Granted(JOB)));
    var o, s := OpRow(Authorized, 1, None), b.s.(job := Some(JOB));
    ThenSave(a, log, b, o, s, b.v);
    log := log + [Action.Save(o, s, b.v)];
  }

  // ---------- dispatch and settlement ----------

  /** A pass, the `n`-th, that holds LOC's authorization and has not registered it. */
  predicate Holding(b: Snap, n: nat) {
    && b.lock.Held? && b.op.finished.None? && b.op.attempts <= n && 1 <= n
    && b.course == FIRST.(first := n == 1)
    && b.s == Secrets(b.s.order, Some(JOB), None, false) && b.v == View(Pending, "", 0.0, NoCode, NoResult, None)
    && b.loc == Loc({b.s.order}, Granted(JOB), false, None) && b.broker == Broker(0, {}, 0, NoRecord, {})
    && b.res == Reservation(Open, b.res.settle, None, NoStatus)
  }

  /** The job is registered and the dispatch saved, not yet sent. */
  function Dispatching(b: Snap, n: nat): Snap {
    b.(op := OpRow(OpState.Dispatching, n, None), s := b.s.(dispatched := true), v := b.v.(status := Processing),
       res := b.res.(settle := SettlePending), relapsed := false,
           course := FIRST.(first := n == 1, registered := true, marked := true))
  }

  lemma {:induction false} Dispatches(b: Snap, n: nat) returns (log: seq<Action>)
    requires Holding(b, n)
    ensures Leads(b, log, Dispatching(b, n))
  {
    hide Leads;
    Stay(b);
    ThenMoney(b, [], b, SetLocJob);
    log := [] + [OnReservation(SetLocJob)];
    var c := AfterMoney(b, SetLocJob);
    var o, s, v := OpRow(OpState.Dispatching, n, None), c.s.(dispatched := true), c.v.(status := Processing);
    ThenSave(b, log, c, o, s, v);
    log := log + [Action.Save(o, s, v)];
  }

  /** The offer is sent. */
  function Offered(b: Snap, n: nat): Snap {
    var d := Dispatching(b, n);
    d.(broker := Broker(1, {Offer(1, 2, b.s.order.body)}, 0, NoRecord, {}), course := OfferCourse(d.course))
  }

  lemma {:induction false} Sends(b: Snap, n: nat) returns (log: seq<Action>)
    requires Holding(b, n)
    ensures Leads(b, log, Offered(b, n))
  {
    hide Leads;
    log := Dispatches(b, n);
    var d := Dispatching(b, n);
    var f := TheOffer(d.s);
    ThenBroker(b, log, d, OfferJob(f));
    assert {f} == d.broker.offered + {f};
    log := log + [AtBroker(OfferJob(f))];
  }

  /** Admitted; the runner reported success, and its trailer is saved as the claim. */
  function Claiming(b: Snap, n: nat): Snap {
    var d := Offered(b, n);
    d.(op := OpRow(AccountingPending, n, None), s := d.s.(claim := Some(CLAIM)), v := d.v.(result := RunSucceeded),
       course := d.course.(concludes := true),
       broker := Broker(1, d.broker.offered, 1, Admitted(Some(CLAIM)), {Terminal(b.s.order.id, true)}))
  }

  lemma {:induction false} Streams(b: Snap, n: nat) returns (log: seq<Action>)
    requires Holding(b, n)
    ensures Leads(Offered(b, n), log, Claiming(b, n))
  {
    hide Leads;
    var start, end := Offered(b, n), Claiming(b, n);
    Stay(start);
    ThenBroker(start, [], start, BrokerAdmit);
    log := [] + [AtBroker(BrokerAdmit)];
    var c := start.(broker := ApplyBroker(start.broker, BrokerAdmit));
    var done := Terminal(b.s.order.id, true);
    ThenBroker(start, log, c, RunnerEvent(done));
    assert {done} == c.broker.heard + {done};
    log, c := log + [AtBroker(RunnerEvent(done))], c.(broker := c.broker.(heard := {done}));
    ThenSave(start, log, c, c.op, c.s, end.v);
    log, c := log + [Action.Save(c.op, c.s, end.v)], ApplySave(c, c.op, c.s, end.v);
    ThenBroker(start, log, c, BrokerSettle(CLAIM));
    log, c := log + [AtBroker(BrokerSettle(CLAIM))], c.(broker := end.broker);
    ThenSave(start, log, c, end.op, end.s, c.v);
    log := log + [Action.Save(end.op, end.s, c.v)];
  }

  lemma {:induction false} ReachesClaim(b: Snap, n: nat) returns (log: seq<Action>)
    requires Holding(b, n)
    ensures Leads(b, log, Claiming(b, n))
  {
    hide Leads, Offered, Claiming, Legal, Replay;
    log := Sends(b, n);
    var more := Streams(b, n);
    Follow(b, log, Offered(b, n), more, Claiming(b, n));
    log := log + more;
  }

  /** LOC closed on the broker's settlement, and the reservation followed; the pass has returned. */
  function Concluding(b: Snap, n: nat): Snap {
    var d := Claiming(b, n);
    d.(loc := d.loc.(settleAsked := true, closed := Some(SETTLED)),
       res := Reservation(Committed(Some(60)), Settled, Some(5), Complete),
       relapsed := false, reshown := false, course := d.course.(concludes := false, done := true))
  }

  lemma {:induction false} Settles(b: Snap, n: nat) returns (log: seq<Action>)
    requires Holding(b, n)
    ensures Leads(Claiming(b, n), log, Concluding(b, n))
  {
    hide Leads, Legal, Replay;
    var start, end := Claiming(b, n), Concluding(b, n);
    Stay(start);
    ThenLoc(start, [], start, AskSettle);
    log := [] + [AtLoc(AskSettle)];
    var c := start.(loc := start.loc.(settleAsked := true));
    ThenLoc(start, log, c, LocClose(SETTLED));
    log, c := log + [AtLoc(LocClose(SETTLED))], c.(loc := end.loc);
    ThenMoney(start, log, c, MoneyEvent.MarkSettled(5));
    log, c := log + [OnReservation(MoneyEvent.MarkSettled(5))],
        c.(res := c.res.(settle := Settled, billed := Some(5)), relapsed := false);
    ThenMoney(start, log, c, MoneyEvent.Commit(Some(60)));
    log, c := log + [OnReservation(MoneyEvent.Commit(Some(60)))], c.(res := c.res.(state := Committed(Some(60))));
    ThenMoney(start, log, c, RecordRunner(Complete));
    log, c := log + [OnReservation(RecordRunner(Complete))], end.(course := end.course.(done := false));
    ThenLock(start, log, c, Quit);
    log := log + [OnLock(Quit)];
  }

  function Finishing(b: Snap, n: nat): Snap {
    var d := Concluding(b, n);
    ApplySave(d, OpRow(Accounted(BrokerSettlement), n, Some(9)), d.s, SettledView(d.v, 60))
  }

  lemma {:induction false} ReachesFinish(b: Snap, n: nat) returns (log: seq<Action>)
    requires Holding(b, n)
    ensures Leads(b, log, Finishing(b, n))
  {
    hide Leads;
    log := ReachesClaim(b, n);
    var more := Settles(b, n);
    Follow(b, log, Claiming(b, n), more, Concluding(b, n));
    log := log + more;
    var d := Concluding(b, n);
    var o, v := OpRow(Accounted(BrokerSettlement), n, Some(9)), SettledView(d.v, 60);
    ThenSave(b, log, d, o, d.s, v);
    log := log + [Action.Save(o, d.s, v)];
  }

  // ---------- what a pass without its lock still does ----------

  /** The first pass saved LOC's answer and lost its lock; a second pass took over. */
  function TakenOver(a: Snap): Snap {
    var b := Authorization(a);
    b.(course := FIRST.(first := false), lapsed := [Lapsed(b.op, b.s, b.v, b.course)])
  }

  lemma {:induction false} TakesOver(a: Snap) returns (log: seq<Action>)
    requires Initial(a)
    ensures Leads(a, log, TakenOver(a)) && Holding(TakenOver(a), 2)
  {
    hide Leads;
    log := Authorizes(a);
    var b := Authorization(a);
    ThenLock(a, log, b, Lose);
    log, b := log + [OnLock(Lose)], ApplyLock(b, Lose);
    assert b.lapsed == TakenOver(a).lapsed;
    ThenLock(a, log, b, Acquire);
    log := log + [OnLock(Acquire)];
  }

  /**
   * A job succeeds and its reservation is settled; then the pass that lost its lock before registering the job
   * registers it, and the reservation is pending again.
   */
  lemma {:induction false} SomeRunUnsettles(a: Snap) returns (log: seq<Action>, done: seq<Action>)
    requires Initial(a)
    ensures done <= log && Legal(a, done) && Legal(a, log)
    ensures Replay(a, done).op.finished.Some? && Replay(a, done).v.status == Succeeded
    ensures Replay(a, done).res.settle == Settled
    ensures Replay(a, log).op == Replay(a, done).op && Replay(a, log).res.settle == SettlePending
  {
    hide Leads, Enabled, ApplyAct;
    log := TakesOver(a);
    var b := TakenOver(a);
    var more := ReachesFinish(b, 2);
    Follow(a, log, b, more, Finishing(b, 2));
    log := log + more;
    var c := Finishing(b, 2);
    Arrives(a, log, c);
    done := log;
    assert MayRegister(c.lapsed[0]);
    LateRegistration(c, 0);
    var late := Late(0, OnReservation(SetLocJob));
    Then(a, log, c, late, Apply(c, late));
    SameJournal(c, late);
    log := log + [late];
    Arrives(a, log, Apply(c, late));
  }

  /**
   * A job is offered a second time with no look at broker and LOC in between: the first pass lost its lock between
   * saving its dispatch and sending it, and the second pass offered the job meanwhile.
   */
  lemma {:induction false} SomeReofferIsUnchecked(a: Snap) returns (log: seq<Action>, act: Action)
    requires Initial(a)
    ensures ReoffersUnchecked(a, log, act)
  {
    hide Leads, Inv, Enabled, Replay;
    log := Authorizes(a);
    var b := Authorization(a);
    var more := Dispatches(b, 1);
    Follow(a, log, b, more, Dispatching(b, 1));
    log, b := log + more, Dispatching(b, 1);
    log, b := OffersMeanwhile(a, log, b);
    Arrives(a, log, b);
    Reachable(a, log);
    UncheckedLate(b, 0);
    act := Late(0, AtBroker(OfferJob(TheOffer(b.lapsed[0].s))));
  }

  lemma {:induction false} OffersMeanwhile(a: Snap, before: seq<Action>, b: Snap) returns (log: seq<Action>, c: Snap)
    requires Initial(a) && b == Dispatching(Authorization(a), 1) && Leads(a, before, b)
    ensures Leads(a, log, c) && c.broker.offers == 1 && |c.lapsed| == 1 && OffersUnchecked(c.lapsed[0])
  {
    hide Leads;
    ThenLock(a, before, b, Lose);
    log, c := before + [OnLock(Lose)], ApplyLock(b, Lose);
    ThenLock(a, log, c, Acquire);
    log, c := log + [OnLock(Acquire)], ApplyLock(c, Acquire);
    log, c := Redispatches(a, log, c);
    var f := TheOffer(c.s);
    ThenBroker(a, log, c, OfferJob(f));
    log, c := log + [AtBroker(OfferJob(f))],
        c.(broker := ApplyBroker(c.broker, OfferJob(f)), course := OfferCourse(c.course));
  }

  /** The second pass finds neither a settlement nor a closure and saves its own dispatch. */
  lemma {:induction false} Redispatches(a: Snap, before: seq<Action>, b: Snap) returns (log: seq<Action>, c: Snap)
    requires Leads(a, before, b) && b.lock.Held? && b.op == OpRow(OpState.Dispatching, 1, None)
    requires b.loc.job == Granted(JOB)
    requires b.course == FIRST.(first := false, redispatch := true, concludes := true)
    requires b.s == Secrets(b.s.order, Some(JOB), None, true)
    requires b.v == View(Processing, "", 0.0, NoCode, NoResult, None)
    ensures Leads(a, log, c) && c == b.(op := c.op, res := c.res, relapsed := c.relapsed, course := c.course)
    ensures c.op == OpRow(OpState.Dispatching, 2, None) && Acting(c) && c.course.marked && !c.course.first
  {
    hide Leads;
    ThenMoney(a, before, b, SetLocJob);
    log, c := before + [OnReservation(SetLocJob)], AfterMoney(b, SetLocJob);
    ThenLock(a, log, c, LookupFailed);
    log, c := log + [OnLock(LookupFailed)], ApplyLock(c, LookupFailed);
    ThenLock(a, log, c, LocNotClosed);
    log, c := log + [OnLock(LocNotClosed)], ApplyLock(c, LocNotClosed);
    var o := OpRow(OpState.Dispatching, 2, None);
    ThenSave(a, log, c, o, c.s, c.v);
    log, c := log + [Action.Save(o, c.s, c.v)], ApplySave(c, o, c.s, c.v);
  }

  // ---------- a late runner status ----------

  /** The job is under way; a second pass registers it and loses its lock before it looks at LOC; a third takes over. */
  function Overtaken(a: Snap): Snap {
    var b := Offered(Authorization(a), 1);
    var c := FIRST.(first := false, redispatch := true, concludes := true);
    b.(course := c, lapsed := [Lapsed(b.op, b.s, b.v, c.(registered := true))],
       broker := b.broker.(admissions := 1, exchange := Admitted(None)))
  }

  lemma {:induction false} Overtakes(a: Snap) returns (log: seq<Action>)
    requires Initial(a)
    ensures Leads(a, log, Overtaken(a))
  {
    hide Leads, Legal, Replay;
    log := Authorizes(a);
    var b, end := Authorization(a), Overtaken(a);
    var more := Sends(b, 1);
    Follow(a, log, b, more, Offered(b, 1));
    log, b := log + more, Offered(b, 1);
    ThenBroker(a, log, b, BrokerAdmit);
    log, b := log + [AtBroker(BrokerAdmit)], b.(broker := ApplyBroker(b.broker, BrokerAdmit));
    ThenLock(a, log, b, Release);
    log, b := log + [OnLock(Release)], ApplyLock(b, Release);
    ThenLock(a, log, b, Acquire);
    log, b := log + [OnLock(Acquire)], ApplyLock(b, Acquire);
    ThenMoney(a, log, b, SetLocJob);
    log, b := log + [OnReservation(SetLocJob)], AfterMoney(b, SetLocJob);
    ThenLock(a, log, b, Lose);
    log, b := log + [OnLock(Lose)], ApplyLock(b, Lose);
    assert b.lapsed == end.lapsed;
    ThenLock(a, log, b, Acquire);
    log := log + [OnLock(Acquire)];
  }

  /** The third pass offers again, hears the success, and LOC closes on its claim. */
  lemma {:induction false} Succeeds(a: Snap) returns (log: seq<Action>, c: Snap)
    requires Initial(a)
    ensures Leads(a, log, c) && c.lapsed == Overtaken(a).lapsed && c.op.finished.None? && c.s.claim.Some?
    ensures c.loc.closed == Some(SETTLED) && c.v.result == RunSucceeded
  {
    hide Leads;
    var b := Overtaken(a);
    log := Overtakes(a);
    log, c := Redispatches(a, log, b);
    hide Overtaken;
    var f := TheOffer(c.s);
    ThenBroker(a, log, c, OfferJob(f));
    log, c := log + [AtBroker(OfferJob(f))],
        c.(broker := ApplyBroker(c.broker, OfferJob(f)), course := OfferCourse(c.course));
    var done := Terminal(c.s.order.id, true);
    ThenBroker(a, log, c, RunnerEvent(done));
    log, c := log + [AtBroker(RunnerEvent(done))], c.(broker := ApplyBroker(c.broker, RunnerEvent(done)));
    var v := c.v.(result := RunSucceeded);
    ThenSave(a, log, c, c.op, c.s, v);
    log, c := log + [Action.Save(c.op, c.s, v)], ApplySave(c, c.op, c.s, v);
    ThenBroker(a, log, c, BrokerSettle(CLAIM));
    log, c := log + [AtBroker(BrokerSettle(CLAIM))], c.(broker := ApplyBroker(c.broker, BrokerSettle(CLAIM)));
    var o, s := c.op.(state := AccountingPending), c.s.(claim := Some(CLAIM));
    ThenSave(a, log, c, o, s, v);
    log, c := log + [Action.Save(o, s, v)], ApplySave(c, o, s, v);
    ThenLoc(a, log, c, LocClose(SETTLED));
    log, c := log + [AtLoc(LocClose(SETTLED))], c.(loc := ApplyLoc(c.loc, LocClose(SETTLED)));
  }

  /** A succeeded job's reservation is set to failed by a pass that lost its lock before the success was heard. */
  lemma {:induction false} SomeSuccessIsHidden(a: Snap) returns (log: seq<Action>)
    requires Initial(a)
    ensures Legal(a, log) && Replay(a, log).op.finished.Some? && Replay(a, log).v.status == Succeeded
    ensures Replay(a, log).res.runner == Error
  {
    hide Inv, Legal, Replay;
    var c: Snap;
    log, c := Succeeds(a);
    Reachable(a, log);
    var more := ClaimFinishes(c);
    Compose(a, log, more);
    log := log + more;
    Reachable(a, log);
    var last := HidesLast(Replay(a, log), a);
    Compose(a, log, last);
    log := log + last;
  }

  lemma {:induction false} HidesLast(d: Snap, a: Snap) returns (log: seq<Action>)
    requires Inv(d) && Initial(a) && d.op.finished.Some? && d.v.status == Succeeded
    requires d.res.runner == Complete && d.loc.closed == Some(SETTLED) && d.lapsed == Overtaken(a).lapsed
    ensures Legal(d, log) && Replay(d, log).op.finished.Some? && Replay(d, log).v.status == Succeeded
    ensures Replay(d, log).res.runner == Error
  {
    hide Inv, Legal, Replay;
    log := ShowsOther(d, 0);
    JournalForward(d, log);
  }

  // ---------- a refusal that is missed ----------

  /** LOC has refused the job's request. */
  function Refusal(a: Snap): Snap {
    Asking(a).(loc := Loc({a.s.order}, Refused(403), false, None))
  }

  lemma {:induction false} Refuses(a: Snap) returns (log: seq<Action>)
    requires Initial(a)
    ensures Leads(a, log, Refusal(a))
  {
    hide Leads;
    log := Asks(a);
    ThenLoc(a, log, Asking(a), LocRefuse(403));
    log := log + [AtLoc(LocRefuse(403))];
  }

  /** The gateway dies after the refund; no later pass finishes the job. */
  lemma {:induction false} SomeRefundIsStranded(a: Snap) returns (log: seq<Action>)
    requires Initial(a)
    ensures Legal(a, log) && RefusalMissed(Replay(a, log)) && Replay(a, log).res.state == Refunded
    ensures Replay(a, log).lock.Free?
  {
    hide Leads, Enabled, Replay;
    log := Refuses(a);
    var b := Refusal(a);
    ThenLock(a, log, b, HearRefusal);
    log, b := log + [OnLock(HearRefusal)], ApplyLock(b, HearRefusal);
    ThenMoney(a, log, b, MoneyEvent.Refund);
    log, b := log + [OnReservation(MoneyEvent.Refund)], AfterMoney(b, MoneyEvent.Refund);
    ThenLock(a, log, b, Release);
    log := log + [OnLock(Release)];
    Arrives(a, log, ApplyLock(b, Release));
  }

  /** LOC's reply is lost; the pass returns, and no later pass refunds. */
  lemma {:induction false} SomeRefusalIsUnheard(a: Snap) returns (log: seq<Action>)
    requires Initial(a)
    ensures Legal(a, log) && RefusalMissed(Replay(a, log)) && Replay(a, log).res.state.Open?
    ensures Replay(a, log).lock.Free?
  {
    hide Leads;
    log := Refuses(a);
    var b := Refusal(a);
    ThenLock(a, log, b, Quit);
    log, b := log + [OnLock(Quit)], ApplyLock(b, Quit);
    ThenSave(a, log, b, b.op, b.s, b.v);
    log, b := log + [Action.Save(b.op, b.s, b.v)], ApplySave(b, b.op, b.s, b.v);
    ThenLock(a, log, b, Release);
    log := log + [OnLock(Release)];
    Arrives(a, log, ApplyLock(b, Release));
  }

  // ---------- a rejection, and a claim closed otherwise ----------

  /** The broker rejected the offer; the first pass only saw its request fail. */
  function Rejection(a: Snap): Snap {
    var b := Offered(Authorization(a), 1);
    b.(broker := b.broker.(exchange := Rejected), lock := Free, course := IDLE)
  }

  lemma {:induction false} Rejects(a: Snap) returns (log: seq<Action>)
    requires Initial(a)
    ensures Leads(a, log, Rejection(a))
  {
    hide Leads;
    log := Authorizes(a);
    var b := Authorization(a);
    var more := Sends(b, 1);
    Follow(a, log, b, more, Offered(b, 1));
    log, b := log + more, Offered(b, 1);
    ThenBroker(a, log, b, BrokerReject);
    log, b := log + [AtBroker(BrokerReject)], b.(broker := ApplyBroker(b.broker, BrokerReject));
    ThenLock(a, log, b, Quit);
    log, b := log + [OnLock(Quit)], ApplyLock(b, Quit);
    ThenSave(a, log, b, b.op, b.s, b.v);
    log, b := log + [Action.Save(b.op, b.s, b.v)], ApplySave(b, b.op, b.s, b.v);
    ThenLock(a, log, b, Release);
    log := log + [OnLock(Release)];
  }

  /** The second pass looked the rejection up and saved it; LOC closed after that. */
  function RejectedAndClosed(a: Snap): Snap {
    var b := Rejection(a);
    b.(op := OpRow(OpState.Dispatching, 2, None),
       v := b.v.(status := AdmissionRejected, phase := "settlement_pending", failure := RejectedByBroker),
       loc := b.loc.(closed := Some(RELEASED)))
  }

  lemma {:induction false} LooksUp(a: Snap) returns (log: seq<Action>)
    requires Initial(a)
    ensures Leads(a, log, RejectedAndClosed(a))
  {
    hide Leads;
    log := Rejects(a);
    var b, end := Rejection(a), RejectedAndClosed(a);
    ThenLock(a, log, b, Acquire);
    log, b := log + [OnLock(Acquire)], ApplyLock(b, Acquire);
    ThenMoney(a, log, b, SetLocJob);
    log, b := log + [OnReservation(SetLocJob)], AfterMoney(b, SetLocJob);
    ThenLock(a, log, b, LookupFailed);
    log, b := log + [OnLock(LookupFailed)], ApplyLock(b, LookupFailed);
    ThenLock(a, log, b, LocNotClosed);
    log, b := log + [OnLock(LocNotClosed)], ApplyLock(b, LocNotClosed);
    ThenLock(a, log, b, Quit);
    log, b := log + [OnLock(Quit)], ApplyLock(b, Quit);
    ThenSave(a, log, b, end.op, b.s, end.v);
    log, b := log + [Action.Save(end.op, b.s, end.v)], ApplySave(b, end.op, b.s, end.v);
    ThenLock(a, log, b, Release);
    log, b := log + [OnLock(Release)], ApplyLock(b, Release);
    ThenLoc(a, log, b, LocClose(RELEASED));
    log := log + [AtLoc(LocClose(RELEASED))];
  }

  /** A job whose rejection is in the journal is offered again: LOC closed it, and two passes failed half way. */
  lemma {:induction false} SomeRejectionIsForgotten(a: Snap) returns (log: seq<Action>, rejected: seq<Action>)
    requires Initial(a)
    ensures rejected <= log && Legal(a, rejected) && Legal(a, log)
    ensures Replay(a, rejected).v.status == AdmissionRejected && Replay(a, rejected).broker.exchange == Rejected
    ensures Replay(a, rejected).broker.offers == 1
    ensures Replay(a, log).broker.offers > 1
  {
    hide Inv, Legal, Replay;
    rejected := LooksUp(a);
    var b := RejectedAndClosed(a);
    Reachable(a, rejected);
    var more := RejectionForgotten(b);
    Compose(a, rejected, more);
    log := rejected + more;
  }

  /** The broker's claim is saved and LOC closed on something else: no run finishes the job. */
  lemma {:induction false} SomeClaimIsStuck(a: Snap) returns (log: seq<Action>)
    requires Initial(a)
    ensures Legal(a, log) && ClosedOtherwise(Replay(a, log))
    ensures forall more :: !Finishes(Replay(a, log), more)
  {
    hide Leads, Enabled, Replay;
    log := Authorizes(a);
    var b := Authorization(a);
    var more := ReachesClaim(b, 1);
    Follow(a, log, b, more, Claiming(b, 1));
    log, b := log + more, Claiming(b, 1);
    ThenLoc(a, log, b, LocClose(CHARGED));
    log, b := log + [AtLoc(LocClose(CHARGED))], b.(loc := ApplyLoc(b.loc, LocClose(CHARGED)));
    Arrives(a, log, b);
    Reachable(a, log);
    ClaimFinishesExactly(b);
  }
}
