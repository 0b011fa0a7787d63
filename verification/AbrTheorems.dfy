/** What holds over every run of an ABR operation, with a crash or a lost lock connection after any step. */
module AbrTheorems {
  import opened Basics
  import opened AbrProtocol

  // ---------- runs, step by step ----------

  ghost predicate Leads(a: Snap, log: seq<Action>, b: Snap) {
    Legal(a, log) && Replay(a, log) == b
  }

  lemma Stay(a: Snap)
    ensures Leads(a, [], a)
  {
    hide Enabled;
  }

  lemma {:induction false} Then(a: Snap, log: seq<Action>, b: Snap, act: Action, c: Snap)
    requires Leads(a, log, b) && Enabled(b, act) && Apply(b, act) == c
    ensures Leads(a, log + [act], c)
  {
    hide Enabled, Apply;
    Extend(a, log, act);
  }

  lemma {:induction false} ThenSave(a: Snap, log: seq<Action>, b: Snap, o: OpRow, s: Secrets, v: View)
    requires Leads(a, log, b) && SaveOk(b, o, s, v) && (o.finished.Some? ==> b.course.done)
    ensures Leads(a, log + [Action.Save(o, s, v)], ApplySave(b, o, s, v))
  {
    hide SaveOk, ApplySave, Leads;
    Then(a, log, b, Action.Save(o, s, v), ApplySave(b, o, s, v));
  }

  lemma {:induction false} ThenLock(a: Snap, log: seq<Action>, b: Snap, e: LockEvent)
    requires Leads(a, log, b) && LockEnabled(b, e)
    ensures Leads(a, log + [OnLock(e)], ApplyLock(b, e))
  {
    hide LockEnabled, ApplyLock, Leads, SaveOk;
    Then(a, log, b, OnLock(e), ApplyLock(b, e));
  }

  lemma {:induction false} ThenMoney(a: Snap, log: seq<Action>, b: Snap, e: MoneyEvent)
    requires Leads(a, log, b) && MoneyEnabled(b, e)
    ensures Leads(a, log + [OnReservation(e)], AfterMoney(b, e))
  {
    hide MoneyEnabled, AfterMoney, Leads, SaveOk;
    Then(a, log, b, OnReservation(e), AfterMoney(b, e));
  }

  lemma {:induction false} ThenLoc(a: Snap, log: seq<Action>, b: Snap, e: LocEvent)
    requires Leads(a, log, b) && LocEnabled(b, e)
    ensures Leads(a, log + [AtLoc(e)], b.(loc := ApplyLoc(b.loc, e)))
  {
    hide LocEnabled, ApplyLoc, Leads;
    Then(a, log, b, AtLoc(e), b.(loc := ApplyLoc(b.loc, e)));
  }

  lemma {:induction false} ThenBroker(a: Snap, log: seq<Action>, b: Snap, e: BrokerEvent)
    requires Leads(a, log, b) && BrokerEnabled(b, e)
    ensures Leads(a, log + [AtBroker(e)], AfterBroker(b, e))
  {
    hide BrokerEnabled, AfterBroker, Leads, SaveOk;
    Then(a, log, b, AtBroker(e), AfterBroker(b, e));
  }

  lemma {:induction false} Compose(a: Snap, log: seq<Action>, more: seq<Action>)
    requires Legal(a, log) && Legal(Replay(a, log), more)
    ensures Legal(a, log + more) && Replay(a, log + more) == Replay(Replay(a, log), more)
    decreases |more|
  {
    hide Enabled, Apply;
    if more == [] {
      assert log + more == log;
    } else {
      var before := more[..|more| - 1];
      Compose(a, log, before);
      Extend(a, log + before, more[|more| - 1]);
      assert log + more == (log + before) + [more[|more| - 1]];
    }
  }

  lemma {:induction false} Follow(a: Snap, log: seq<Action>, b: Snap, more: seq<Action>, c: Snap)
    requires Leads(a, log, b) && Leads(b, more, c)
    ensures Leads(a, log + more, c)
  {
    hide Legal, Replay;
    Compose(a, log, more);
  }

  lemma Arrives(a: Snap, log: seq<Action>, b: Snap)
    requires Leads(a, log, b)
    ensures Legal(a, log) && Replay(a, log) == b
  {
    hide Legal, Replay;
  }

  /** A worker takes the lock, afresh. */
  function Fresh(a: Snap): Snap {
    a.(lock := Held, course := Course(false, a.op.attempts == 0, false, false, false, a.s.dispatched, false, false,
                                      false, a.s.dispatched))
  }

  lemma {:induction false} TakeLock(a: Snap, before: seq<Action>, b: Snap) returns (log: seq<Action>)
    requires Leads(a, before, b) && b.op.finished.None?
    ensures Leads(a, log, Fresh(b))
  {
    hide Leads;
    log := before;
    var free := b.(lock := Free, course := IDLE);
    if b.lock.Held? {
      ThenLock(a, log, b, Release);
      log := log + [OnLock(Release)];
      ThenLock(a, log, free, Acquire);
    } else {
      ThenLock(a, log, b, Acquire);
    }
    log := log + [OnLock(Acquire)];
  }

  // ---------- accounting ----------

  /**
   * A finished job either had its reservation refunded and LOC refused it, or LOC closed it and the reservation carries
   * LOC's units and billed value; it is settled, and its runner status is the view's, unless a pass that had lost its
   * lock wrote those last. Nothing is committed while LOC is open.
   */
  lemma {:induction false} AccountingTruth(start: Snap, log: seq<Action>)
    requires Initial(start) && Legal(start, log)
    ensures var a := Replay(start, log);
            && (a.op.finished.Some? ==>
                  || (a.op.state == IssuanceRefused && a.res.state == Refunded && a.loc.job.Refused?)
                  || (a.loc.closed.Some? && a.op.state == Accounted(a.loc.closed.value.outcome)
                      && a.res.state == Committed(a.loc.closed.value.units)
                      && a.res.billed == Some(a.loc.closed.value.billed)
                      && (a.relapsed || a.res.settle == Settled)
                      && (a.reshown || (a.res.runner == Complete <==> a.v.status == Succeeded))))
            && (a.res.state.Committed? ==> a.loc.closed.Some? && a.res.state.units == a.loc.closed.value.units)
            && (a.res.settle == Settled ==> a.loc.closed.Some? && a.res.billed == Some(a.loc.closed.value.billed))
  {
    hide Enabled, Apply;
    Reachable(start, log);
  }

  /**
   * What the customer sees of a job LOC closed, in plain terms: it succeeded if and only if LOC closed it on the
   * broker's settlement and the runner reported success; then it shows full progress and no failure code. A failed one
   * with a claim has no code either; without a claim it was not admitted, if LOC recorded that, or else it failed with
   * LOC's outcome.
   */
  lemma {:induction false} ShownEnd(start: Snap, log: seq<Action>)
    requires Initial(start) && Legal(start, log)
    requires Replay(start, log).op.finished.Some? && Replay(start, log).op.state != IssuanceRefused
    ensures var a := Replay(start, log);
            && a.loc.closed.Some?
            && var c := a.loc.closed.value;
               && a.v.status == (if c.outcome == BrokerSettlement && a.v.result == RunSucceeded then Succeeded
                                 else Failed)
               && a.v.phase == "finished"
               && (a.v.status == Succeeded ==> a.v.progress == 100.0 && a.v.failure == NoCode)
               && (a.s.claim.Some? ==>
                     && a.v.failure == NoCode && a.loc.settleAsked
                     && a.v.units == c.units == Some(a.s.claim.value.units))
               && (a.v.status == Failed && a.s.claim.None? ==>
                     a.v.failure == if c.notAdmitted then NotAdmitted else LocOutcome(c.outcome))
               && (c.units.Some? ==> a.v.units == c.units)
  {
    hide Enabled, Apply;
    Reachable(start, log);
  }

  // ---------- refunds ----------

  /** The pass that makes an update, or the pass without the lock that does. */
  predicate Refunds(a: Snap, act: Action, course: Course) {
    || (act == OnReservation(MoneyEvent.Refund) && course == a.course)
    || (act.Late? && act.late == OnReservation(MoneyEvent.Refund) && act.i < |a.lapsed|
        && course == a.lapsed[act.i].course)
  }

  /**
   * Only the first pass refunds, with the lock or without it, after it heard LOC's refusal of the job's one request.
   */
  lemma {:induction false} RefundIsFirst(start: Snap, log: seq<Action>, act: Action, course: Course)
    requires Initial(start) && Legal(start, log) && Enabled(Replay(start, log), act)
    requires Refunds(Replay(start, log), act, course)
    ensures var a := Replay(start, log);
              course.heard && course.first && a.loc.job.Refused? && a.loc.asked == {a.s.order}
  {
    hide Inv, Enabled, Replay;
    Reachable(start, log);
    RefundFacts(Replay(start, log), act, course);
  }

  lemma RefundFacts(a: Snap, act: Action, course: Course)
    requires Inv(a) && Enabled(a, act) && Refunds(a, act, course)
    ensures course.heard && course.first && a.loc.job.Refused? && a.loc.asked == {a.s.order}
  {
    hide SaveOk, LockEnabled, LocEnabled, BrokerEnabled, Custody, Money, Finished;
    AskedOnce(a);
    if act.Late? {
      assert LapsedAt(a, act.i);
    }
  }

  lemma AskedOnce(a: Snap)
    requires Inv(a) && !a.loc.job.Unanswered?
    ensures a.loc.asked == {a.s.order}
  {
    var q :| q in a.loc.asked;
    assert a.s.order in a.loc.asked;
    assert forall r :: r in a.loc.asked <==> r == a.s.order;
  }

  /** Once refunded, a reservation stays refunded; LOC never authorizes the job and the broker never hears of it. */
  lemma {:induction false} RefundIsFinal(a: Snap, log: seq<Action>)
    requires Inv(a) && Legal(a, log) && a.res.state == Refunded
    ensures var b := Replay(a, log); b.res.state == Refunded && b.loc.job.Refused? && b.broker.offers == 0
    decreases |log|
  {
    hide Enabled, Apply, Inv;
    RunInv(a, log);
    if log != [] {
      var before := log[..|log| - 1];
      RefundIsFinal(a, before);
      MoneyChanges(Replay(a, before), log[|log| - 1]);
    }
    RefundedFacts(Replay(a, log));
  }

  lemma RefundedFacts(a: Snap)
    requires Inv(a)
    ensures a.res.state == Refunded ==> a.loc.job.Refused? && a.broker.offers == 0
  {
  }

  /** The reservation update an action makes, if it makes one. */
  function MoneyOf(act: Action): Option<MoneyEvent> {
    if act.OnReservation? then Some(act.money)
    else if act.Late? && act.late.OnReservation? then Some(act.late.money)
    else None
  }

  lemma MoneyChanges(a: Snap, act: Action)
    requires Enabled(a, act)
    ensures Apply(a, act).res == if MoneyOf(act).Some? then ApplyMoney(a.res, MoneyOf(act).value) else a.res
    ensures MoneyOf(act).Some? && MoneyOf(act).value.MarkSettled? ==>
              a.loc.closed.Some? && MoneyOf(act).value.billed == a.loc.closed.value.billed
    ensures MoneyOf(act).Some? && MoneyOf(act).value.Commit? ==>
              a.loc.closed.Some? && MoneyOf(act).value.units == a.loc.closed.value.units
  {
    hide SaveOk, LockEnabled, LocEnabled, BrokerEnabled, Apply, ApplyMoney, ApplyLoc, ApplyBroker, GoesOn;
    StepTouches(a, act);
  }

  ghost predicate Finishes(a: Snap, log: seq<Action>) {
    Legal(a, log) && Replay(a, log).op.finished.Some?
  }

  /** The first pass holds the lock, and was told of its refund or has not returned. */
  predicate MayFinish(lock: Lock, course: Course) {
    lock.Held? && course.first && (course.told || !course.done)
  }

  predicate RefusalMissed(a: Snap) {
    a.loc.job.Refused? && a.op.finished.None? && !MayFinish(a.lock, a.course)
  }

  lemma MissedLock(a: Snap, e: LockEvent)
    requires Inv(a) && LockEnabled(a, e) && RefusalMissed(a)
    ensures RefusalMissed(ApplyLock(a, e))
  {
    hide Custody, Money, LapsedOk;
  }

  lemma MissedSave(a: Snap, o: OpRow, s: Secrets, v: View)
    requires Inv(a) && SaveOk(a, o, s, v) && RefusalMissed(a)
    ensures RefusalMissed(ApplySave(a, o, s, v))
  {
    hide Money, LapsedOk;
  }

  lemma RefusalMissedStep(a: Snap, act: Action)
    requires Inv(a) && Enabled(a, act) && RefusalMissed(a)
    ensures RefusalMissed(Apply(a, act))
  {
    hide Inv, Enabled, Apply, SaveOk, LockEnabled, ApplyLock, ApplySave, MoneyEnabled, AfterMoney, BrokerEnabled,
      ApplyBroker, ApplyMoney, Checked;
    Guards(a, act);
    StepTouches(a, act);
    if act.OnLock? {
      MissedLock(a, act.lock);
    } else if act.Save? {
      MissedSave(a, act.o, act.s, act.v);
    }
  }

  lemma {:induction false} RefusalStaysMissed(a: Snap, log: seq<Action>)
    requires Inv(a) && Legal(a, log) && RefusalMissed(a)
    ensures RefusalMissed(Replay(a, log))
    decreases |log|
  {
    hide Inv, Enabled, Apply, RefusalMissed;
    if log != [] {
      var before := log[..|log| - 1];
      RefusalStaysMissed(a, before);
      RunInv(a, before);
      RefusalMissedStep(Replay(a, before), log[|log| - 1]);
    }
  }

  lemma {:induction false} LeadsInv(a: Snap, log: seq<Action>, b: Snap)
    requires Inv(a) && Leads(a, log, b)
    ensures Inv(b)
  {
    hide Inv, Legal, Replay;
    RunInv(a, log);
  }

  /** The first pass hears the refusal, refunds, is told so, returns and finishes. */
  lemma {:induction false} RefusalFinishes(a: Snap) returns (log: seq<Action>)
    requires Inv(a) && a.loc.job.Refused? && a.op.finished.None? && MayFinish(a.lock, a.course)
    ensures Finishes(a, log)
  {
    hide Leads, SaveOk;
    Stay(a);
    log := [];
    var b := a;
    if !a.course.done && !a.course.told {
      RefusableFacts(a);
      ThenLock(a, log, b, HearRefusal);
      log, b := log + [OnLock(HearRefusal)], b.(course := b.course.(heard := true));
      ThenMoney(a, log, b, MoneyEvent.Refund);
      log, b := log + [OnReservation(MoneyEvent.Refund)], AfterMoney(b, MoneyEvent.Refund);
      ThenLock(a, log, b, ToldRefund);
      log, b := log + [OnLock(ToldRefund)], b.(course := b.course.(told := true));
    }
    ThenLock(a, log, b, Quit);
    log, b := log + [OnLock(Quit)], b.(course := b.course.(done := true));
    LeadsInv(a, log, b);
    RefusalSave(b);
    hide Inv;
    var o, v := b.op.(state := IssuanceRefused, attempts := 1, finished := Some(0)), b.v.(status := Failed);
    ThenSave(a, log, b, o, b.s, v);
    log := log + [Action.Save(o, b.s, v)];
    Arrives(a, log, ApplySave(b, o, b.s, v));
  }

  lemma RefusableFacts(a: Snap)
    requires Inv(a) && a.loc.job.Refused?
    ensures !a.res.state.Committed?
  {
  }

  lemma RefusalSave(b: Snap)
    requires Inv(b) && b.loc.job.Refused? && b.op.finished.None? && b.lock.Held? && b.course.first && b.course.told
    ensures SaveOk(b, b.op.(state := IssuanceRefused, attempts := 1, finished := Some(0)), b.s, b.v.(status := Failed))
  {
  }

  /**
   * Exactly when a refused issuance can still finish: the first pass holds the lock, and was told of its refund or has
   * not returned. A lost reply, a failed refund or a crash ends that, since a later pass overwrites the state it would
   * need.
   */
  lemma {:induction false} RefusedFinishesExactly(a: Snap)
    requires Inv(a) && a.loc.job.Refused? && a.op.finished.None?
    ensures MayFinish(a.lock, a.course) <==> exists log :: Finishes(a, log)
  {
    hide Inv, Legal, Replay;
    if MayFinish(a.lock, a.course) {
      var log := RefusalFinishes(a);
    } else {
      forall log ensures !Finishes(a, log) {
        if Legal(a, log) {
          RefusalStaysMissed(a, log);
        }
      }
    }
  }

  // ---------- success ----------

  /**
   * Success, and with it the playlists, is shown only after a typed success for this workload and LOC's closure as
   * settled by the broker, with the units of the broker's own terminal claim.
   */
  lemma {:induction false} VerifiedSuccess(start: Snap, log: seq<Action>)
    requires Initial(start) && Legal(start, log)
    ensures var a := Replay(start, log);
            ShowsPlaylists(a.v) || a.res.runner == Complete ==>
              && Terminal(a.s.order.id, true) in a.broker.heard
              && a.loc.closed.Some? && a.loc.closed.value.outcome.BrokerSettlement?
              && a.broker.exchange.Admitted? && a.broker.exchange.settled.Some?
              && a.loc.closed.value.units == Some(a.broker.exchange.settled.value.units)
              && a.s.job.Some? && Bound(a.s.job.value, a.broker.exchange.settled.value)
  {
    hide Enabled, Apply;
    Reachable(start, log);
    JobAfterExchange(Replay(start, log));
  }

  lemma JobAfterExchange(a: Snap)
    requires Inv(a)
    ensures a.broker.exchange.Admitted? ==> a.s.job.Some?
  {
  }

  // ---------- one identity, write-ahead ----------

  /** Every issuance request and every dispatch is the same one, saved before it was sent; at most one is admitted. */
  lemma {:induction false} OneIdentity(start: Snap, log: seq<Action>)
    requires Initial(start) && Legal(start, log)
    ensures var a := Replay(start, log);
            && a.s.order == start.s.order
            && (forall q :: q in a.loc.asked ==> q == start.s.order)
            && (a.loc.asked != {} ==> a.op.attempts >= 1)
            && (a.broker.offers > 0 ==> a.s.dispatched && a.s.job.Some?)
            && (a.s.job.Some? ==> a.loc.job == Granted(a.s.job.value) && forall f :: f in a.broker.offered ==>
                f == TheOffer(a.s))
            && a.broker.admissions <= 1
  {
    hide Enabled, Apply;
    Reachable(start, log);
    InitialInv(start);
    JournalForward(start, log);
  }

  /**
   * A pass with the lock offers a job again only after, since the last offer it knows of, the exchange lookup failed
   * and LOC showed no closure.
   */
  lemma {:induction false} RedispatchIsChecked(start: Snap, log: seq<Action>, offer: Offer)
    requires Initial(start) && Legal(start, log) && Enabled(Replay(start, log), AtBroker(OfferJob(offer)))
    ensures var a := Replay(start, log);
              a.broker.offers > 0 ==> a.course.lookupFailed && a.course.notClosed && a.s.claim.None?
  {
    hide Apply;
    Reachable(start, log);
  }

  /** A pass that lost its lock with a dispatch saved and a first offer still to send. */
  predicate OffersUnchecked(p: Lapsed) {
    !p.course.done && p.course.marked && !p.course.redispatch
  }

  /** The action offers again what may have been offered, with no look at broker and LOC since. */
  predicate Unchecked(a: Snap, act: Action) {
    && a.broker.offers > 0
    && (|| (act.AtBroker? && act.broker.OfferJob? && !a.course.redispatch)
        || (act.Late? && act.late.AtBroker? && act.late.broker.OfferJob? && act.i < |a.lapsed|
            && !a.lapsed[act.i].course.redispatch))
  }

  ghost predicate ReoffersUnchecked(a: Snap, log: seq<Action>, act: Action) {
    Legal(a, log) && Enabled(Replay(a, log), act) && Unchecked(Replay(a, log), act)
  }

  predicate NoneUnchecked(a: Snap) {
    a.broker.offers > 0 && forall i :: 0 <= i < |a.lapsed| ==> !OffersUnchecked(a.lapsed[i])
  }

  lemma CheckedStep(a: Snap, act: Action)
    requires Inv(a) && Enabled(a, act) && NoneUnchecked(a)
    ensures NoneUnchecked(Apply(a, act)) && !Unchecked(a, act)
  {
    hide Inv, Enabled, Apply, SaveOk, LockEnabled, MoneyEnabled, LocEnabled, AfterMoney, ApplyLock, ApplyLoc,
      ApplyMoney, Checked, CourseAfterSave;
    LapsedEvolve(a, act);
    OffersGrow(a, act);
    OffersNow(a, act);
    RedispatchFacts(a);
    forall j | 0 <= j < |Apply(a, act).lapsed| ensures !OffersUnchecked(Apply(a, act).lapsed[j]) {
      assert LapsedFrom(a, Apply(a, act), j);
    }
  }

  lemma OffersGrow(a: Snap, act: Action)
    requires Enabled(a, act)
    ensures a.broker.offers <= Apply(a, act).broker.offers
  {
    hide Enabled, Apply, SaveOk, GoesOn, ApplyMoney, ApplyLoc, CourseAfterSave;
    StepTouches(a, act);
  }

  /** Who offers now has saved a dispatch. */
  lemma OffersNow(a: Snap, act: Action)
    requires Enabled(a, act)
    ensures act.AtBroker? && act.broker.OfferJob? ==> a.lock.Held?
    ensures act.Late? && act.late.AtBroker? && act.late.broker.OfferJob? && act.i < |a.lapsed| ==>
              !a.lapsed[act.i].course.done && a.lapsed[act.i].course.marked
  {
    hide SaveOk, LockEnabled, MoneyEnabled, LocEnabled;
  }

  lemma RedispatchFacts(a: Snap)
    requires Inv(a)
    ensures a.lock.Held? && a.broker.offers > 0 ==> a.course.redispatch
  {
    hide Identity, Custody, Money, Finished, LapsedOk;
  }

  lemma {:induction false} StaysChecked(a: Snap, log: seq<Action>)
    requires Inv(a) && Legal(a, log) && NoneUnchecked(a)
    ensures NoneUnchecked(Replay(a, log))
    decreases |log|
  {
    hide Inv, Enabled, Apply, NoneUnchecked;
    if log != [] {
      var before := log[..|log| - 1];
      StaysChecked(a, before);
      RunInv(a, before);
      CheckedStep(Replay(a, before), log[|log| - 1]);
    }
  }

  lemma UncheckedLate(a: Snap, i: nat)
    requires Inv(a) && i < |a.lapsed| && OffersUnchecked(a.lapsed[i]) && a.broker.offers > 0
    ensures a.lapsed[i].s.job.Some?
    ensures var act := Late(i, AtBroker(OfferJob(TheOffer(a.lapsed[i].s)))); Enabled(a, act) && Unchecked(a, act)
  {
    hide Core, SaveOk, LockEnabled, MoneyEnabled, LocEnabled;
    assert LapsedAt(a, i);
  }

  /**
   * Once offered, a job is offered again without a look at broker and LOC if and only if a pass lost its lock between
   * saving a first dispatch and sending it, and lives on.
   */
  lemma {:induction false} UncheckedExactly(a: Snap)
    requires Inv(a) && a.broker.offers > 0
    ensures (exists i :: 0 <= i < |a.lapsed| && OffersUnchecked(a.lapsed[i])) <==>
              exists log, act :: ReoffersUnchecked(a, log, act)
  {
    hide Inv, Enabled;
    if i :| 0 <= i < |a.lapsed| && OffersUnchecked(a.lapsed[i]) {
      UncheckedLate(a, i);
      assert ReoffersUnchecked(a, [], Late(i, AtBroker(OfferJob(TheOffer(a.lapsed[i].s)))));
    } else {
      forall log, act ensures !ReoffersUnchecked(a, log, act) {
        if Legal(a, log) && Enabled(Replay(a, log), act) {
          StaysChecked(a, log);
          RunInv(a, log);
          CheckedStep(Replay(a, log), act);
        }
      }
    }
  }

  // ---------- the journal only moves forward ----------

  /** Fields written once, and a finished row and commitment that never change. */
  ghost predicate Forward(a: Snap, b: Snap) {
    && b.s.order == a.s.order
    && a.op.attempts <= b.op.attempts
    && (a.s.job.Some? ==> b.s.job == a.s.job)
    && (a.s.claim.Some? ==> b.s.claim == a.s.claim)
    && (a.s.dispatched ==> b.s.dispatched)
    && (a.loc.closed.Some? ==> b.loc.closed == a.loc.closed)
    && (a.op.finished.Some? ==>
        b.op == a.op && b.s == a.s && b.v == a.v && b.res.state == a.res.state && b.res.billed == a.res.billed)
  }

  lemma SameJournal(a: Snap, act: Action)
    requires Enabled(a, act) && !act.Save?
    ensures var b := Apply(a, act);
              b.op == a.op && b.s == a.s && b.v == a.v && (a.loc.closed.Some? ==> b.loc.closed == a.loc.closed)
  {
    hide Enabled, Apply, SaveOk, LockEnabled, ApplyLock, MoneyEnabled, AfterMoney, BrokerEnabled, ApplyBroker,
      ApplyMoney, GoesOn;
    StepTouches(a, act);
    Guards(a, act);
  }

  lemma FinishedMoney(a: Snap, act: Action)
    requires Inv(a) && Enabled(a, act) && a.op.finished.Some?
    ensures Apply(a, act).res.state == a.res.state && Apply(a, act).res.billed == a.res.billed
  {
    hide Enabled, Apply, Identity, Custody, Standing;
    MoneyChanges(a, act);
    RefundBlocks(a);
  }

  lemma RefundBlocks(a: Snap)
    requires Inv(a)
    ensures a.loc.closed.Some? ==> !a.loc.job.Refused?
  {
  }

  lemma ForwardSave(a: Snap, o: OpRow, s: Secrets, v: View)
    requires SaveOk(a, o, s, v)
    ensures Forward(a, ApplySave(a, o, s, v))
  {
    hide KeepsView, FinishOk, CourseAfterSave;
  }

  lemma ForwardStep(a: Snap, act: Action)
    requires Inv(a) && Enabled(a, act)
    ensures Forward(a, Apply(a, act))
  {
    hide Inv, Enabled, Apply, SaveOk, ApplySave;
    if act.Save? {
      StepTouches(a, act);
      ForwardSave(a, act.o, act.s, act.v);
    } else {
      SameJournal(a, act);
      if a.op.finished.Some? {
        FinishedMoney(a, act);
      }
    }
  }

  lemma {:induction false} JournalForward(a: Snap, log: seq<Action>)
    requires Inv(a) && Legal(a, log)
    ensures Forward(a, Replay(a, log))
    decreases |log|
  {
    hide Inv, Enabled, Apply;
    if log != [] {
      var before := log[..|log| - 1];
      JournalForward(a, before);
      RunInv(a, before);
      ForwardStep(Replay(a, before), log[|log| - 1]);
    }
  }

  // ---------- the reservation of a finished job ----------

  /** A pass that lost its lock before it registered LOC's job, which sets the reservation back to pending. */
  predicate MayRegister(p: Lapsed) {
    !p.course.done && !p.course.registered && p.s.job.Some? && p.s.job.value.unit.FrameMegapixels?
  }

  predicate StaysSettledNow(a: Snap) {
    a.op.finished.Some? && a.res.settle == Settled && forall i :: 0 <= i < |a.lapsed| ==> !MayRegister(a.lapsed[i])
  }

  lemma SettledStep(a: Snap, act: Action)
    requires Inv(a) && Enabled(a, act) && StaysSettledNow(a)
    ensures StaysSettledNow(Apply(a, act))
  {
    hide Inv, Enabled, Apply;
    MoneyChanges(a, act);
    FinishedActs(a, act);
    LapsedEvolve(a, act);
    if act.Late? && act.late == OnReservation(SetLocJob) {
      LateRegisters(a, act);
    }
    SameJournal(a, act);
    forall j | 0 <= j < |Apply(a, act).lapsed| ensures !MayRegister(Apply(a, act).lapsed[j]) {
      assert LapsedFrom(a, Apply(a, act), j);
    }
  }

  /** A finished job is saved no more, and its lock holder has returned. */
  lemma FinishedActs(a: Snap, act: Action)
    requires Inv(a) && Enabled(a, act) && a.op.finished.Some?
    ensures !act.Save? && !act.OnReservation? && act != OnLock(Lose)
  {
    hide Identity, Custody, Money, KeepsView, FinishOk, KeepsDispatch, KeepsIssue, LocEnabled, BrokerEnabled,
      LateEnabled, LapsedOk;
  }

  lemma LateRegisters(a: Snap, act: Action)
    requires Enabled(a, act) && act.Late? && act.late == OnReservation(SetLocJob)
    ensures act.i < |a.lapsed| && MayRegister(a.lapsed[act.i])
  {
    hide SaveOk, LockEnabled, LocEnabled, BrokerEnabled;
  }

  ghost predicate RemainsSettled(a: Snap, log: seq<Action>) {
    Legal(a, log) ==> Replay(a, log).res.settle == Settled
  }

  lemma {:induction false} StaysSettled(a: Snap, log: seq<Action>)
    requires Inv(a) && Legal(a, log) && StaysSettledNow(a)
    ensures StaysSettledNow(Replay(a, log))
    decreases |log|
  {
    hide Inv, Enabled, Apply, StaysSettledNow;
    if log != [] {
      var before := log[..|log| - 1];
      StaysSettled(a, before);
      RunInv(a, before);
      SettledStep(Replay(a, before), log[|log| - 1]);
    }
  }

  lemma LateRegistration(a: Snap, i: nat)
    requires i < |a.lapsed| && MayRegister(a.lapsed[i])
    ensures var act := Late(i, OnReservation(SetLocJob)); Enabled(a, act) && Apply(a, act).res.settle == SettlePending
  {
    hide SaveOk, LockEnabled, LocEnabled, BrokerEnabled, ApplyLock, ApplyLoc, AfterBroker;
  }

  /**
   * A finished job's reservation stays settled if and only if no pass without the lock has LOC's job still to register.
   */
  lemma {:induction false} SettledExactly(a: Snap)
    requires Inv(a) && a.op.finished.Some? && a.res.settle == Settled
    ensures (forall i :: 0 <= i < |a.lapsed| ==> !MayRegister(a.lapsed[i])) <==> forall log :: RemainsSettled(a, log)
  {
    hide Inv, Enabled;
    if i :| 0 <= i < |a.lapsed| && MayRegister(a.lapsed[i]) {
      LateRegistration(a, i);
      Extend(a, [], Late(i, OnReservation(SetLocJob)));
      assert !RemainsSettled(a, [] + [Late(i, OnReservation(SetLocJob))]);
    } else {
      forall log ensures RemainsSettled(a, log) {
        if Legal(a, log) {
          StaysSettled(a, log);
        }
      }
    }
  }

  /** A pass that lost its lock, may conclude on LOC's closure, and would record another runner status. */
  predicate MayShow(p: Lapsed, loc: Loc, status: RunnerStatus) {
    !p.course.done && p.course.concludes && (p.s.claim.Some? ==> SettledByBroker(loc)) && RunnerOf(loc, p.v) != status
  }

  predicate KeepsRunnerNow(a: Snap, status: RunnerStatus) {
    && a.op.finished.Some? && a.loc.closed.Some? && a.res.runner == status
    && forall i :: 0 <= i < |a.lapsed| ==> !MayShow(a.lapsed[i], a.loc, status)
  }

  lemma RunnerStep(a: Snap, act: Action, status: RunnerStatus)
    requires Inv(a) && Enabled(a, act) && KeepsRunnerNow(a, status)
    ensures KeepsRunnerNow(Apply(a, act), status)
  {
    hide Inv, Enabled, Apply;
    MoneyChanges(a, act);
    FinishedActs(a, act);
    SameJournal(a, act);
    LapsedEvolve(a, act);
    if act.Late? && act.late.OnReservation? && act.late.money.RecordRunner? {
      LateShows(a, act);
    }
    forall j | 0 <= j < |Apply(a, act).lapsed| ensures !MayShow(Apply(a, act).lapsed[j], Apply(a, act).loc, status) {
      assert LapsedFrom(a, Apply(a, act), j);
    }
  }

  lemma LateShows(a: Snap, act: Action)
    requires Enabled(a, act) && act.Late? && act.late.OnReservation? && act.late.money.RecordRunner?
    ensures act.i < |a.lapsed|
    ensures var p := a.lapsed[act.i];
            && !p.course.done && p.course.concludes && (p.s.claim.Some? ==> SettledByBroker(a.loc))
            && act.late.money.status == RunnerOf(a.loc, p.v)
  {
    hide SaveOk, LockEnabled, LocEnabled, BrokerEnabled, RunnerOf;
  }

  ghost predicate RemainsShown(a: Snap, log: seq<Action>) {
    Legal(a, log) ==> Replay(a, log).res.runner == a.res.runner
  }

  lemma {:induction false} StaysShown(a: Snap, log: seq<Action>, status: RunnerStatus)
    requires Inv(a) && Legal(a, log) && KeepsRunnerNow(a, status)
    ensures KeepsRunnerNow(Replay(a, log), status)
    decreases |log|
  {
    hide Inv, Enabled, Apply, KeepsRunnerNow;
    if log != [] {
      var before := log[..|log| - 1];
      StaysShown(a, before, status);
      RunInv(a, before);
      RunnerStep(Replay(a, before), log[|log| - 1], status);
    }
  }

  /** The late pass's steps, one after the other, on the same row as it last knew. */
  lemma {:induction false} ThenLate(a: Snap, log: seq<Action>, b: Snap, i: nat, act: Action)
    requires Leads(a, log, b) && LateEnabled(b, i, act)
    ensures Leads(a, log + [Late(i, act)], ApplyLate(b, i, act))
  {
    hide LateEnabled, ApplyLate, Leads, SaveOk;
    Then(a, log, b, Late(i, act), ApplyLate(b, i, act));
  }

  lemma LateMoney(a: Snap, i: nat, e: MoneyEvent)
    requires i < |a.lapsed| && MoneyEnabled(AsSeen(a, a.lapsed[i]), e)
    ensures LateEnabled(a, i, OnReservation(e))
    ensures var b := ApplyLate(a, i, OnReservation(e));
            && b.res == ApplyMoney(a.res, e) && b.loc == a.loc && b.broker == a.broker && |b.lapsed| == |a.lapsed|
            && b.lapsed[i] == a.lapsed[i].(course := MoneyCourse(a.lapsed[i].course, e))
  {
    hide SaveOk, LockEnabled, LocEnabled, BrokerEnabled, MoneyEnabled, ApplyLock, ApplyLoc, AfterBroker, ApplyMoney,
      MoneyCourse;
  }

  lemma LateLookup(a: Snap, i: nat)
    requires i < |a.lapsed| && !a.lapsed[i].course.done
    ensures LateEnabled(a, i, OnLock(LookupFailed))
    ensures var b := ApplyLate(a, i, OnLock(LookupFailed));
            && b.res == a.res && b.loc == a.loc && |b.lapsed| == |a.lapsed|
            && b.lapsed[i] == a.lapsed[i].(course := a.lapsed[i].course.(lookupFailed := true))
  {
    hide MoneyEnabled, LocEnabled, BrokerEnabled, AfterMoney, ApplyLoc, AfterBroker;
  }

  lemma LateSettle(a: Snap, i: nat)
    requires i < |a.lapsed| && !a.lapsed[i].course.done && a.lapsed[i].course.registered && a.lapsed[i].s.dispatched
    requires a.broker.exchange.Admitted? && a.broker.exchange.settled.Some?
    ensures LateEnabled(a, i, AtLoc(AskSettle))
    ensures var b := ApplyLate(a, i, AtLoc(AskSettle));
            && b.res == a.res && b.loc == a.loc.(settleAsked := true) && |b.lapsed| == |a.lapsed|
            && b.lapsed[i] == a.lapsed[i]
  {
    hide MoneyEnabled, LockEnabled, BrokerEnabled, AfterMoney, ApplyLock, AfterBroker;
  }

  /**
   * Such a pass registers LOC's job if it has not, finds no settlement or asks LOC to settle its own, marks the
   * reservation settled, commits it, and records the runner's status as it sees it.
   */
  lemma {:induction false} ShowsOther(a: Snap, i: nat) returns (log: seq<Action>)
    requires Inv(a) && i < |a.lapsed| && a.loc.closed.Some? && MayShow(a.lapsed[i], a.loc, a.res.runner)
    ensures Legal(a, log) && Replay(a, log).res.runner == RunnerOf(a.loc, a.lapsed[i].v)
  {
    hide Inv, Leads, LateEnabled, ApplyLate, Legal, Replay;
    ConcluderFacts(a, i);
    Stay(a);
    log := [];
    var b := a;
    if !a.lapsed[i].course.registered {
      LateMoney(b, i, SetLocJob);
      ThenLate(a, log, b, i, OnReservation(SetLocJob));
      log, b := log + [Late(i, OnReservation(SetLocJob))], ApplyLate(b, i, OnReservation(SetLocJob));
    }
    if a.lapsed[i].s.claim.None? {
      LateLookup(b, i);
      ThenLate(a, log, b, i, OnLock(LookupFailed));
      log, b := log + [Late(i, OnLock(LookupFailed))], ApplyLate(b, i, OnLock(LookupFailed));
    } else {
      LateSettle(b, i);
      ThenLate(a, log, b, i, AtLoc(AskSettle));
      log, b := log + [Late(i, AtLoc(AskSettle))], ApplyLate(b, i, AtLoc(AskSettle));
    }
    log := ConcludesLate(a, log, b, i);
  }

  lemma {:induction false} ConcludesLate(a: Snap, before: seq<Action>, b: Snap, i: nat) returns (log: seq<Action>)
    requires Leads(a, before, b) && i < |b.lapsed| && MayShow(b.lapsed[i], b.loc, a.res.runner)
    requires b.lapsed[i].course.registered && (b.lapsed[i].s.claim.Some? ==> b.loc.settleAsked)
    requires b.loc.closed.Some?
    ensures Legal(a, log) && Replay(a, log).res.runner == RunnerOf(b.loc, b.lapsed[i].v)
  {
    hide Leads, LateEnabled, ApplyLate, Legal, Replay;
    var c := b.loc.closed.value;
    var settle := MoneyEvent.MarkSettled(c.billed);
    LateMoney(b, i, settle);
    ThenLate(a, before, b, i, OnReservation(settle));
    log := before + [Late(i, OnReservation(settle))];
    var d := ApplyLate(b, i, OnReservation(settle));
    var commit := MoneyEvent.Commit(c.units);
    LateMoney(d, i, commit);
    ThenLate(a, log, d, i, OnReservation(commit));
    log, d := log + [Late(i, OnReservation(commit))], ApplyLate(d, i, OnReservation(commit));
    var show := RecordRunner(RunnerOf(b.loc, b.lapsed[i].v));
    LateMoney(d, i, show);
    ThenLate(a, log, d, i, OnReservation(show));
    log, d := log + [Late(i, OnReservation(show))], ApplyLate(d, i, OnReservation(show));
    Arrives(a, log, d);
  }

  lemma ConcluderFacts(a: Snap, i: nat)
    requires Inv(a) && i < |a.lapsed|
    ensures a.lapsed[i].course.concludes ==>
              && a.lapsed[i].s.dispatched
              && a.lapsed[i].s.job.Some? && a.lapsed[i].s.job.value.unit.FrameMegapixels?
    ensures SettledByBroker(a.loc) ==> a.broker.exchange.Admitted? && a.broker.exchange.settled.Some?
  {
    assert LapsedAt(a, i);
  }

  /**
   * A closed job's runner status stays if and only if no pass without the lock may still conclude on another result.
   */
  lemma {:induction false} RunnerExactly(a: Snap)
    requires Inv(a) && a.op.finished.Some? && a.loc.closed.Some?
    ensures (forall i :: 0 <= i < |a.lapsed| ==> !MayShow(a.lapsed[i], a.loc, a.res.runner)) <==>
              forall log :: RemainsShown(a, log)
  {
    hide Inv, Legal, Replay;
    if i :| 0 <= i < |a.lapsed| && MayShow(a.lapsed[i], a.loc, a.res.runner) {
      var log := ShowsOther(a, i);
      assert !RemainsShown(a, log);
    } else {
      forall log ensures RemainsShown(a, log) {
        if Legal(a, log) {
          StaysShown(a, log, a.res.runner);
        }
      }
    }
  }
}
