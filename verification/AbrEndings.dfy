/** How far an ABR operation's rejection is remembered, and when a saved claim can finish it. */
module AbrEndings {
  import opened Basics
  import opened AbrProtocol
  import opened AbrTheorems

  // ---------- a rejected admission ----------

  /** A pass that lost its lock with an offer still to send. */
  predicate OffersStill(p: Lapsed) {
    !p.course.done && p.course.marked
  }

  predicate NoneOffers(a: Snap) {
    forall i :: 0 <= i < |a.lapsed| ==> !OffersStill(a.lapsed[i])
  }

  /** Rejected, LOC still open, and nobody about to offer. */
  predicate RejectionStands(a: Snap, offers: nat) {
    a.v.status == AdmissionRejected && NoneOffers(a) && a.broker.offers == offers
  }

  lemma OffersOnly(a: Snap, act: Action)
    requires Enabled(a, act) && !a.course.marked && NoneOffers(a)
    ensures Apply(a, act).broker.offers == a.broker.offers
  {
    hide Apply, SaveOk, LockEnabled, MoneyEnabled, LocEnabled, ApplyLoc, ApplyMoney, GoesOn, CourseAfterSave;
    StepTouches(a, act);
    if act.Late? {
      LateOffersOnly(a, act.i, act.late);
    }
  }

  lemma LateOffersOnly(a: Snap, i: nat, act: Action)
    requires LateEnabled(a, i, act) && NoneOffers(a)
    ensures !act.AtBroker?
  {
    hide LockEnabled, MoneyEnabled, LocEnabled, ApplyLock, ApplyLoc, ApplyMoney, MoneyCourse;
  }

  lemma LoserOffersNot(a: Snap)
    requires Inv(a) && a.v.status == AdmissionRejected
    ensures !a.course.marked
  {
    hide Identity, Custody, Money, Finished, LapsedOk;
  }

  lemma RejectedSaves(a: Snap, o: OpRow, s: Secrets, v: View)
    requires SaveOk(a, o, s, v) && a.v.status == AdmissionRejected && a.loc.closed.None?
    ensures v.status == AdmissionRejected
  {
    hide KeepsIssue, KeepsDispatch, FinishOk;
  }

  lemma RejectionStep(a: Snap, act: Action)
    requires Inv(a) && Enabled(a, act) && RejectionStands(a, a.broker.offers) && a.loc.closed.None?
    ensures RejectionStands(Apply(a, act), a.broker.offers)
  {
    hide Inv, Enabled, Apply, SaveOk, ApplyLoc, ApplyBroker, ApplyMoney, CourseAfterSave, Checked;
    LoserOffersNot(a);
    OffersOnly(a, act);
    StepTouches(a, act);
    LapsedEvolve(a, act);
    if act.Save? {
      RejectedSaves(a, act.o, act.s, act.v);
    }
    forall j | 0 <= j < |Apply(a, act).lapsed| ensures !OffersStill(Apply(a, act).lapsed[j]) {
      assert LapsedFrom(a, Apply(a, act), j);
    }
  }

  /** A rejection stands, and nothing more is offered, until LOC closes. */
  lemma {:induction false} RejectionHolds(a: Snap, log: seq<Action>)
    requires Inv(a) && Legal(a, log) && RejectionStands(a, a.broker.offers) && Replay(a, log).loc.closed.None?
    ensures RejectionStands(Replay(a, log), a.broker.offers)
    decreases |log|
  {
    hide Inv, Enabled, Apply, RejectionStands;
    if log != [] {
      var before := log[..|log| - 1];
      RunInv(a, before);
      var b := Replay(a, before);
      ForwardStep(b, log[|log| - 1]);
      RejectionHolds(a, before);
      StandsNow(b, a.broker.offers);
      RejectionStep(b, log[|log| - 1]);
    }
  }

  lemma StandsNow(a: Snap, offers: nat)
    requires RejectionStands(a, offers)
    ensures a.broker.offers == offers && RejectionStands(a, a.broker.offers)
  {
  }

  /** The job is offered once more before LOC closes anything. */
  ghost predicate OffersAgain(a: Snap, log: seq<Action>) {
    Legal(a, log) && Replay(a, log).loc.closed == a.loc.closed && Replay(a, log).broker.offers > a.broker.offers
  }

  /** What the engine makes of a closure while it holds no claim. */
  function ClosedView(v: View, c: Closure): View {
    var seen := v.(status := Failed, failure := LocOutcome(c.outcome), phase := "finished",
                   units := if c.units.Some? then c.units else v.units);
    if c.outcome.BrokerSettlement? && v.result == RunSucceeded
        then seen.(status := Succeeded, progress := 100.0, failure := NoCode) else seen
  }

  /** What holds of a dispatched job without a claim, whatever its pass learned. */
  ghost predicate Dispatched(a: Snap) {
    && Inv(a) && a.op.finished.None? && a.op.attempts >= 1 && !a.course.first && a.lock.Held?
    && a.s.dispatched && a.s.job.Some? && a.s.job.value.unit.FrameMegapixels? && a.s.claim.None?
  }

  lemma DispatchedFacts(a: Snap)
    requires Inv(a) && a.v.status == AdmissionRejected
    ensures a.s.dispatched && a.s.job.Some? && a.s.job.value.unit.FrameMegapixels? && a.op.attempts >= 1
  {
  }

  lemma ClosedSave(a: Snap, o: OpRow)
    requires Dispatched(a) && a.loc.closed.Some?
    requires o == a.op.(attempts := a.op.attempts + 1, state := Accounted(a.loc.closed.value.outcome))
    ensures SaveOk(a, o, a.s, ClosedView(a.v, a.loc.closed.value))
  {
  }

  lemma DispatchSave(a: Snap, o: OpRow)
    requires Dispatched(a) && a.loc.closed.Some? && o == a.op.(attempts := a.op.attempts + 1, state := Dispatching)
    ensures SaveOk(a, o, a.s, a.v.(status := Processing))
  {
  }

  /** A pass finds LOC's closure and replaces the rejection by it, but fails to update the reservation. */
  lemma {:induction false} Overwrites(a: Snap) returns (log: seq<Action>, b: Snap)
    requires Inv(a) && a.op.finished.None? && a.v.status == AdmissionRejected && a.s.claim.None? && a.loc.closed.Some?
    ensures Leads(a, log, b) && Dispatched(b) && b.loc == a.loc && b.broker == a.broker
  {
    hide Leads, SaveOk, Inv, Enabled, Apply, Legal, Replay, Acts, ApplyAct, Core, LateEnabled;
    DispatchedFacts(a);
    Stay(a);
    log := TakeLock(a, [], a);
    b := Fresh(a);
    ThenMoney(a, log, b, SetLocJob);
    log, b := log + [OnReservation(SetLocJob)], AfterMoney(b, SetLocJob);
    ThenLock(a, log, b, LookupFailed);
    log, b := log + [OnLock(LookupFailed)], ApplyLock(b, LookupFailed);
    ThenLock(a, log, b, Quit);
    log, b := log + [OnLock(Quit)], ApplyLock(b, Quit);
    LeadsInv(a, log, b);
    var o, v := b.op.(attempts := b.op.attempts + 1, state := Accounted(b.loc.closed.value.outcome)),
        ClosedView(b.v, b.loc.closed.value);
    ClosedSave(b, o);
    ThenSave(a, log, b, o, b.s, v);
    log, b := log + [Action.Save(o, b.s, v)], ApplySave(b, o, b.s, v);
    LeadsInv(a, log, b);
  }

  /** The next pass reaches neither the broker's exchange nor LOC, and offers the job again. */
  lemma {:induction false} OffersOver(a: Snap, before: seq<Action>, c: Snap) returns (log: seq<Action>)
    requires Inv(a) && Leads(a, before, c) && Dispatched(c) && c.loc == a.loc && c.broker == a.broker
    requires a.loc.closed.Some?
    ensures OffersAgain(a, log)
  {
    hide Leads, SaveOk, Inv;
    log := TakeLock(a, before, c);
    var b := Fresh(c);
    ThenMoney(a, log, b, SetLocJob);
    log, b := log + [OnReservation(SetLocJob)], AfterMoney(b, SetLocJob);
    ThenLock(a, log, b, LookupFailed);
    log, b := log + [OnLock(LookupFailed)], ApplyLock(b, LookupFailed);
    ThenLock(a, log, b, LocNotClosed);
    log, b := log + [OnLock(LocNotClosed)], ApplyLock(b, LocNotClosed);
    LeadsInv(a, log, b);
    var o, v := b.op.(attempts := b.op.attempts + 1, state := Dispatching), b.v.(status := Processing);
    DispatchSave(b, o);
    ThenSave(a, log, b, o, b.s, v);
    log, b := log + [Action.Save(o, b.s, v)], ApplySave(b, o, b.s, v);
    var offer := TheOffer(b.s);
    ThenBroker(a, log, b, OfferJob(offer));
    log := log + [AtBroker(OfferJob(offer))];
    Arrives(a, log, b.(broker := ApplyBroker(b.broker, OfferJob(offer)), course := OfferCourse(b.course)));
  }

  /** After LOC closed, the rejection is forgotten in two passes. */
  lemma {:induction false} RejectionForgotten(a: Snap) returns (log: seq<Action>)
    requires Inv(a) && a.op.finished.None? && a.v.status == AdmissionRejected && a.s.claim.None? && a.loc.closed.Some?
    ensures OffersAgain(a, log)
  {
    hide Inv, Leads, OffersAgain;
    var before, c := Overwrites(a);
    log := OffersOver(a, before, c);
  }

  lemma LateOffersAgain(a: Snap, i: nat)
    requires Inv(a) && i < |a.lapsed| && OffersStill(a.lapsed[i])
    ensures a.lapsed[i].s.job.Some? && OffersAgain(a, [Late(i, AtBroker(OfferJob(TheOffer(a.lapsed[i].s))))])
  {
    assert LapsedAt(a, i);
    var act := Late(i, AtBroker(OfferJob(TheOffer(a.lapsed[i].s))));
    assert Enabled(a, act);
    Extend(a, [], act);
    assert [] + [act] == [act];
    hide Inv, Enabled;
  }

  /**
   * Exactly how long a rejection stands: a rejected job is offered again if and only if LOC has closed it, or a pass
   * that lost its lock still has an offer to send.
   */
  lemma {:induction false} RejectionExactly(a: Snap)
    requires Inv(a) && a.op.finished.None? && a.v.status == AdmissionRejected && a.s.claim.None?
    ensures a.loc.closed.Some? || !NoneOffers(a) <==> exists log :: OffersAgain(a, log)
  {
    hide Inv, Legal, Replay;
    if a.loc.closed.Some? {
      var log := RejectionForgotten(a);
    } else if i :| 0 <= i < |a.lapsed| && OffersStill(a.lapsed[i]) {
      LateOffersAgain(a, i);
    } else {
      forall log ensures !OffersAgain(a, log) {
        if Legal(a, log) && Replay(a, log).loc.closed == a.loc.closed {
          RejectionHolds(a, log);
        }
      }
    }
  }

  // ---------- a claim LOC did not settle by ----------

  predicate ClosedOtherwise(a: Snap) {
    a.s.claim.Some? && a.op.finished.None? && a.loc.closed.Some? && !a.loc.closed.value.outcome.BrokerSettlement?
  }

  lemma ClosedOtherwiseStep(a: Snap, act: Action)
    requires Inv(a) && Enabled(a, act) && ClosedOtherwise(a)
    ensures ClosedOtherwise(Apply(a, act))
  {
    hide Inv, Enabled, Apply, SaveOk, ApplySave;
    if act.Save? {
      StepTouches(a, act);
      ClosedGrants(a);
      ClosedOtherwiseSave(a, act.o, act.s, act.v);
    } else {
      SameJournal(a, act);
    }
  }

  lemma ClosedOtherwiseSave(a: Snap, o: OpRow, s: Secrets, v: View)
    requires SaveOk(a, o, s, v) && ClosedOtherwise(a) && a.loc.job.Granted?
    ensures ClosedOtherwise(ApplySave(a, o, s, v))
  {
    hide KeepsView, KeepsIssue, CourseAfterSave;
  }

  lemma ClosedGrants(a: Snap)
    requires Inv(a)
    ensures a.loc.closed.Some? ==> a.loc.job.Granted?
  {
  }

  lemma {:induction false} ClosedOtherwiseForever(a: Snap, log: seq<Action>)
    requires Inv(a) && Legal(a, log) && ClosedOtherwise(a)
    ensures ClosedOtherwise(Replay(a, log))
    decreases |log|
  {
    hide Inv, Enabled, Apply, ClosedOtherwise;
    if log != [] {
      var before := log[..|log| - 1];
      ClosedOtherwiseForever(a, before);
      RunInv(a, before);
      ClosedOtherwiseStep(Replay(a, before), log[|log| - 1]);
    }
  }

  /** What the engine makes of a settled claim. */
  function SettledView(v: View, units: int): View {
    var seen := v.(units := Some(units), status := Failed, phase := "finished", failure := NoCode);
    if v.result == RunSucceeded then seen.(status := Succeeded, progress := 100.0) else seen
  }

  ghost predicate Claimed(a: Snap) {
    && Inv(a) && a.op.finished.None? && a.s.claim.Some? && SettledByBroker(a.loc)
  }

  lemma ClaimedFacts(a: Snap)
    requires Claimed(a)
    ensures a.s.dispatched && a.s.job.Some? && a.s.job.value.unit.FrameMegapixels? && a.op.attempts >= 1
    ensures a.broker.exchange.Admitted? && a.broker.exchange.settled.Some?
    ensures a.loc.closed.value.units == Some(a.s.claim.value.units)
    ensures !a.res.state.Refunded? && (a.res.state.Committed? ==> a.res.state.units == a.loc.closed.value.units)
  {
  }

  /** The pass settles, commits and shows what LOC closed on. */
  lemma {:induction false} ConcludesClaim(a: Snap) returns (log: seq<Action>, b: Snap)
    requires Claimed(a)
    ensures Leads(a, log, b) && b.lock.Held? && b.course.done && !b.course.first && Claimed(b)
    ensures b.loc == a.loc.(settleAsked := true) && b.s == a.s && b.v == a.v && b.lapsed == a.lapsed
    ensures b.res == Reservation(Committed(b.loc.closed.value.units), Settled, Some(b.loc.closed.value.billed),
                                 RunnerOf(b.loc, b.v))
  {
    hide Leads, Inv, Legal, Replay;
    var c := a.loc.closed.value;
    ClaimedFacts(a);
    Stay(a);
    log := TakeLock(a, [], a);
    b := Fresh(a);
    ThenMoney(a, log, b, SetLocJob);
    log, b := log + [OnReservation(SetLocJob)], AfterMoney(b, SetLocJob);
    ThenLoc(a, log, b, AskSettle);
    log, b := log + [AtLoc(AskSettle)], b.(loc := ApplyLoc(b.loc, AskSettle));
    ThenMoney(a, log, b, MoneyEvent.MarkSettled(c.billed));
    log, b := log + [OnReservation(MoneyEvent.MarkSettled(c.billed))], AfterMoney(b, MoneyEvent.MarkSettled(c.billed));
    ThenMoney(a, log, b, MoneyEvent.Commit(c.units));
    log, b := log + [OnReservation(MoneyEvent.Commit(c.units))], AfterMoney(b, MoneyEvent.Commit(c.units));
    var status := RunnerOf(b.loc, b.v);
    ThenMoney(a, log, b, RecordRunner(status));
    log, b := log + [OnReservation(RecordRunner(status))], AfterMoney(b, RecordRunner(status));
    ThenLock(a, log, b, Quit);
    log, b := log + [OnLock(Quit)], ApplyLock(b, Quit);
    LeadsInv(a, log, b);
  }

  lemma FinishingSave(b: Snap, o: OpRow)
    requires b.lock.Held? && !b.course.first && Claimed(b) && b.loc.settleAsked
    requires b.res == Reservation(Committed(b.loc.closed.value.units), Settled, Some(b.loc.closed.value.billed),
                                  RunnerOf(b.loc, b.v))
    requires o == OpRow(Accounted(BrokerSettlement), b.op.attempts + 1, Some(b.loc.closed.value.at))
    ensures SaveOk(b, o, b.s, SettledView(b.v, b.s.claim.value.units))
  {
    ClaimedFacts(b);
  }

  lemma {:induction false} ClaimFinishes(a: Snap) returns (log: seq<Action>)
    requires Claimed(a)
    ensures Finishes(a, log)
    ensures var b := Replay(a, log);
            b.lapsed == a.lapsed && b.loc == a.loc.(settleAsked := true) && b.res.runner == RunnerOf(a.loc, a.v)
            && b.v == SettledView(a.v, a.s.claim.value.units)
  {
    hide Leads, SaveOk, Inv, Enabled, Apply, Legal, Replay, Acts, ApplyAct, Core, LateEnabled;
    var b: Snap;
    log, b := ConcludesClaim(a);
    var o := OpRow(Accounted(BrokerSettlement), b.op.attempts + 1, Some(b.loc.closed.value.at));
    FinishingSave(b, o);
    var v := SettledView(b.v, b.s.claim.value.units);
    ThenSave(a, log, b, o, b.s, v);
    log := log + [Action.Save(o, b.s, v)];
    Arrives(a, log, ApplySave(b, o, b.s, v));
  }

  /**
   * Once a claim is saved and LOC has closed the job, the job can finish if and only if LOC closed it on the broker's
   * settlement: with a claim in hand no pass consults LOC's own accounting again.
   */
  lemma {:induction false} ClaimFinishesExactly(a: Snap)
    requires Inv(a) && a.s.claim.Some? && a.op.finished.None? && a.loc.closed.Some?
    ensures a.loc.closed.value.outcome.BrokerSettlement? <==> exists log :: Finishes(a, log)
  {
    hide Inv, Legal, Replay;
    if a.loc.closed.value.outcome.BrokerSettlement? {
      var log := ClaimFinishes(a);
    } else {
      forall log ensures !Finishes(a, log) {
        if Legal(a, log) {
          ClosedOtherwiseForever(a, log);
        }
      }
    }
  }
}
