/**
 * Theorems about the end of a live operation: what a saved claim decides, what a stop and an end reason forbid, and
 * which sessions can still become active.
 */
module LiveOutcomes {
  import opened Basics
  import opened LiveProtocol
  import opened LiveInvariant
  import opened LiveRely
  import opened LiveSaves
  import opened LiveTheorems

  // ---------- what a saved claim decides ----------

  /** Recording an expired key grant would change neither the close reason nor the failure code. */
  predicate Pinned(s: Secrets, v: View) {
    && s.claim.Some?
    && (s.claim.value.closeReason != NoReason || s.endReason == RecoveryFailed)
    && (s.claim.value.failure != NoCode || v.failure == KeyGrantExpired)
  }

  /** No reconnect can still record an expired key grant with an effect on the outcome. */
  predicate Determined(a: Snap) {
    || a.op.state != Active
    || Pinned(a.s, a.v)
    || (a.op.stop && !(a.lock.held && !a.lock.worker && !a.lock.sawStop && !a.course.checked))
  }

  lemma PinnedOutcome(s: Secrets, v: View)
    requires s.claim.Some?
    ensures var (s', v') := ExpireGrant(s, v); Pinned(s, v) <==> Outcome(s', v') == Outcome(s, v)
  {
  }

  lemma DeterminedSave(a: Snap, o: OpRow, s: Secrets, v: View)
    requires Inv(a) && SaveOk(a, o, s, v) && a.s.claim.Some? && Determined(a)
    ensures s.claim == a.s.claim && Outcome(s, v) == Outcome(a.s, a.v) && Determined(ApplySave(a, o, s, v))
  {
    hide Inv;
    PinnedOutcome(a.s, a.v);
  }

  lemma DeterminedStep(a: Snap, act: Action)
    requires Inv(a) && Enabled(a, act) && a.s.claim.Some? && Determined(a)
    ensures var b := Apply(a, act); b.s.claim == a.s.claim && Outcome(b.s, b.v) == Outcome(a.s, a.v) && Determined(b)
  {
    hide Inv, SaveOk, Acts, ApplyAct;
    if act.Save? {
      DeterminedSave(a, act.o, act.s, act.v);
    } else {
      OthersKeepJournal(a, act);
      LockOnly(a, act);
      hide Inv, Enabled, Apply, Outcome, Pinned;
    }
  }

  /** The lock and what its holder checked change by lock events alone. */
  lemma LockOnly(a: Snap, act: Action)
    requires Enabled(a, act) && !act.Save?
    ensures var b := Apply(a, act);
            && (!act.OnLock? ==> b.lock == a.lock && b.course.checked == a.course.checked)
            && (b.lock.held && !b.lock.worker && !b.lock.sawStop && !b.course.checked ==>
                  (a.lock.held && !a.lock.worker && !a.lock.sawStop && !a.course.checked) || !a.op.stop)
  {
    hide Enabled, Apply, ApplyLock, ApplyLoc, ApplyBroker, ApplyRunner, ApplyMoney, LateCourse, LateEnabled,
      ApplySave;
    StepTouches(a, act);
    if act.OnLock? {
      Guards(a, act);
      ReconnectLock(a, act.lock);
    }
  }

  lemma ReconnectLock(a: Snap, e: LockEvent)
    requires LockEnabled(a, e)
    ensures var b := ApplyLock(a, e);
            b.lock.held && !b.lock.worker && !b.lock.sawStop && !b.course.checked ==>
              (a.lock.held && !a.lock.worker && !a.lock.sawStop && !a.course.checked) || !a.op.stop
  {
    hide KeyUsable, GrantExpired, LocRefused, GoesOn, HasRefillToAsk;
  }

  /** Every continuation of a determined claim keeps its outcome. */
  lemma {:induction false} Confluence(a: Snap, log: seq<Action>)
    requires Inv(a) && Legal(a, log) && a.s.claim.Some? && Determined(a)
    ensures var b := Replay(a, log); b.s.claim == a.s.claim && Outcome(b.s, b.v) == Outcome(a.s, a.v) && Determined(b)
    decreases |log|
  {
    hide Inv, Enabled, Apply, Outcome, Determined;
    if log != [] {
      var before := log[..|log| - 1];
      Confluence(a, before);
      RunInv(a, before);
      DeterminedStep(Replay(a, before), log[|log| - 1]);
    }
  }

  /** The lock passes to a reconnect that has seen no stop and checked nothing. */
  lemma {:induction false} ReconnectTakesLock(a: Snap) returns (log: seq<Action>)
    requires Inv(a) && a.op.finished.None?
    requires !a.op.stop || (a.lock.held && !a.lock.worker && !a.lock.sawStop && !a.course.checked)
    ensures Legal(a, log)
    ensures var b := Replay(a, log);
            b == a.(lock := b.lock, course := b.course) && b.lock.held && !b.lock.worker && !b.lock.sawStop
                && !b.course.checked
  {
    hide Inv, SaveOk;
    log := [];
    if a.lock.held && !a.lock.worker && !a.lock.sawStop && !a.course.checked {
      return;
    }
    if a.lock.held {
      Extend(a, log, OnLock(Release));
      log := log + [OnLock(Release)];
    }
    Extend(a, log, OnLock(Acquire(false)));
    log := log + [OnLock(Acquire(false))];
  }

  /** A time at which key and key grant have both expired. */
  function Afterwards(a: Snap): Time
    requires a.s.broker.Some?
  {
    a.clock + a.s.keyExpires + a.s.broker.value.keyGrantUntil
  }

  /** Otherwise a reconnect that finds the key grant expired leads to another outcome. */
  lemma {:induction false} Divergence(a: Snap) returns (log: seq<Action>)
    requires Inv(a) && a.s.claim.Some? && !Determined(a)
    ensures Legal(a, log)
    ensures var b := Replay(a, log); b.s.claim == a.s.claim && Outcome(b.s, b.v) != Outcome(a.s, a.v)
  {
    hide Inv, Legal, Replay, Outcome, Apply, Enabled, SaveOk;
    ActiveFacts(a);
    PinnedOutcome(a.s, a.v);
    log := ReconnectWaits(a);
    RunInv(a, log);
    var act := ExpiryIsSaved(Replay(a, log));
    Extend(a, log, act);
    log := log + [act];
  }

  /** A reconnect holds the lock until key and key grant have both expired. */
  lemma {:induction false} ReconnectWaits(a: Snap) returns (log: seq<Action>)
    requires Inv(a) && a.s.broker.Some? && a.s.broker.value.urlsValid && a.op.finished.None?
    requires !a.op.stop || (a.lock.held && !a.lock.worker && !a.lock.sawStop && !a.course.checked)
    ensures Legal(a, log)
    ensures var b := Replay(a, log);
            && b.op == a.op && b.s == a.s && b.v == a.v && b.lock.held && !b.lock.worker && !b.lock.sawStop
            && !b.course.checked && !KeyUsable(b.s, b.clock) && GrantExpired(b.s, b.clock)
  {
    hide Inv, SaveOk, Legal;
    log := ReconnectTakesLock(a);
    var b := Replay(a, log);
    hide Replay;
    Extend(a, log, Tick(Afterwards(b)));
    log := log + [Tick(Afterwards(b))];
  }

  /** The reconnect records the expired grant. */
  lemma {:induction false} ExpiryIsSaved(c: Snap) returns (act: Action)
    requires Inv(c) && c.op.state == Active && c.op.finished.None? && c.v.mediaEnded.None? && c.s.broker.Some?
    requires c.s.claim.Some?
    requires c.lock.held && !c.lock.worker && !c.lock.sawStop && !c.course.checked
    requires !KeyUsable(c.s, c.clock) && GrantExpired(c.s, c.clock)
    ensures Enabled(c, act) && (Apply(c, act).s, Apply(c, act).v) == ExpireGrant(c.s, c.v)
  {
    hide Inv, SaveOk;
    LoadSave(c, c.op);
    GrantExpirySave(c, c.op, c.s, c.v);
    var (s, v) := ExpireGrant(c.s, c.v);
    act := Action.Save(c.op.(state := Ending), s, v);
  }

  lemma ActiveFacts(a: Snap)
    requires Inv(a) && a.op.state == Active
    ensures a.op.finished.None? && a.v.mediaEnded.None? && a.s.broker.Some? && a.s.broker.value.urlsValid
  {
  }

  ghost predicate SameOutcome(a: Snap, log: seq<Action>) {
    Legal(a, log) ==>
      Replay(a, log).s.claim == a.s.claim && Outcome(Replay(a, log).s, Replay(a, log).v) == Outcome(a.s, a.v)
  }

  /**
   * Exactly when the finishing paths agree: once a claim is saved, all runs end alike if and only if the operation has
   * left the active state, or its outcome already shows an expired key grant, or no reconnect can act before seeing
   * the stop.
   */
  lemma {:induction false} ConfluenceExactly(a: Snap)
    requires Inv(a) && a.s.claim.Some?
    ensures Determined(a) <==> forall log :: SameOutcome(a, log)
  {
    hide Inv, Outcome, Determined, Legal, Replay;
    if Determined(a) {
      forall log ensures SameOutcome(a, log) {
        if Legal(a, log) {
          Confluence(a, log);
        }
      }
    } else {
      var log := Divergence(a);
      assert !SameOutcome(a, log);
    }
  }

  lemma {:induction false} ClaimedEnd(a: Snap)
    requires Inv(a) && a.s.claim.Some? && a.op.finished.Some?
    ensures a.loc.closed.Some? && a.loc.closed.value.units == a.s.claim.value.units
    ensures (a.v.status, a.v.closeReason, a.v.failure, a.v.output, a.s.claim.value.units) == Outcome(a.s, a.v)
    ensures a.v.units == Some(a.s.claim.value.units)
    ensures a.res == Reservation(Committed(a.v.units), Some(a.loc.closed.value.billed))
    ensures a.op.finished == Some(a.loc.closed.value.at)
  {
  }

  /** Two runs that finish from the same determined claim agree on everything the customer and the account see. */
  lemma {:induction false} FinishesAgree(a: Snap, log: seq<Action>, other: seq<Action>)
    requires Inv(a) && a.s.claim.Some? && Determined(a) && Legal(a, log) && Legal(a, other)
    requires Replay(a, log).op.finished.Some? && Replay(a, other).op.finished.Some?
    ensures var b, c := Replay(a, log), Replay(a, other);
            && b.v.status == c.v.status && b.v.closeReason == c.v.closeReason && b.v.failure == c.v.failure
            && b.v.output == c.v.output && b.v.units == c.v.units == Some(a.s.claim.value.units)
            && b.res.state == c.res.state == Committed(b.v.units)
            && (a.loc.closed.Some? ==> b.res == c.res && b.op.finished == c.op.finished)
  {
    hide Inv, Legal, Replay, Determined, Outcome, SaveOk, Enabled, Apply, Acts, ApplyAct, Core, LateEnabled,
      ApplySave;
    Confluence(a, log);
    Confluence(a, other);
    RunInv(a, log);
    RunInv(a, other);
    ClosureStays(a, log);
    ClosureStays(a, other);
    ClaimedEnd(Replay(a, log));
    ClaimedEnd(Replay(a, other));
  }

  /** LOC's closure is final. */
  lemma {:induction false} ClosureStays(a: Snap, log: seq<Action>)
    requires Legal(a, log)
    ensures a.loc.closed.Some? ==> Replay(a, log).loc.closed == a.loc.closed
    decreases |log|
  {
    hide Enabled, Apply;
    if log != [] {
      var before := log[..|log| - 1];
      ClosureStays(a, before);
      ClosureStep(Replay(a, before), log[|log| - 1]);
    }
  }

  lemma ClosureStep(a: Snap, act: Action)
    requires Enabled(a, act)
    ensures a.loc.closed.Some? ==> Apply(a, act).loc.closed == a.loc.closed
  {
    hide SaveOk, MoneyEnabled, StreamEnabled, LockEnabled, BrokerEnabled, RunnerEnabled;
  }

  // ---------- what a stop forbids ----------

  /** The stop is set, and a control pass under way has seen it. */
  predicate StopSeen(a: Snap) {
    a.op.stop && (a.lock.held && a.lock.worker ==> a.lock.sawStop)
  }

  lemma StopSeenStep(a: Snap, act: Action)
    requires Enabled(a, act) && StopSeen(a)
    ensures StopSeen(Apply(a, act))
  {
    hide Enabled, Apply, ApplyLock, ApplyLoc, ApplyBroker, ApplyRunner, ApplyMoney, LateCourse, SaveOk,
      CourseAfterSave, Acts;
    StepTouches(a, act);
    if act.OnLock? {
      Guards(a, act);
      StopSeenLock(a, act.lock);
    }
  }

  lemma StopSeenLock(a: Snap, e: LockEvent)
    requires LockEnabled(a, e) && StopSeen(a)
    ensures StopSeen(ApplyLock(a, e))
  {
    hide KeyUsable, GrantExpired, LocRefused, GoesOn, HasRefillToAsk;
  }

  lemma {:induction false} StopStaysSeen(a: Snap, log: seq<Action>)
    requires Legal(a, log) && StopSeen(a)
    ensures StopSeen(Replay(a, log))
    decreases |log|
  {
    hide Enabled, Apply, StopSeen;
    if log != [] {
      var before := log[..|log| - 1];
      StopStaysSeen(a, before);
      StopSeenStep(Replay(a, before), log[|log| - 1]);
    }
  }

  /** After a stop, a pass with the lock sends an open only to a broker that already has the session. */
  lemma {:induction false} OpenAfterStopIsReplay(a: Snap, log: seq<Action>, sawStop: bool)
    requires Legal(a, log) && StopSeen(a) && Enabled(Replay(a, log), AtBroker(OfferOpen(sawStop)))
    ensures sawStop && Replay(a, log).broker.admission.Admitted?
  {
    hide Legal, Replay, SaveOk;
    StopStaysSeen(a, log);
  }

  /** The pass with the lock went on before the stop, and is on its way to the open. */
  predicate HolderOpens(lock: Lock, course: Course) {
    lock.held && lock.worker && !lock.sawStop && !course.done && (course.cleared || course.marked)
  }

  /** A pass saved its dispatch before the stop, then lost the lock, and is on its way to the open. */
  predicate LapsedOpens(p: Lapsed) {
    p.lock.held && p.lock.worker && !p.lock.sawStop && !p.course.done && p.course.marked
  }

  predicate NoneOpens(a: Snap) {
    !HolderOpens(a.lock, a.course) && forall i :: 0 <= i < |a.lapsed| ==> !LapsedOpens(a.lapsed[i])
  }

  predicate Unopened(a: Snap) {
    a.op.stop && !OpenSent(a.broker) && NoneOpens(a)
  }

  lemma UnsentFacts(a: Snap)
    requires Inv(a) && !OpenSent(a.broker)
    ensures !a.broker.admission.Admitted? && a.broker.admissions == 0
  {
  }

  lemma UnopenedLate(a: Snap, i: nat, act: Action)
    requires LateEnabled(a, i, act) && Unopened(a) && !a.broker.admission.Admitted?
    ensures !(act.AtBroker? && act.broker.OfferOpen?)
  {
    hide LockEnabled, MoneyEnabled, StreamEnabled, RunnerEnabled, LocEnabled;
  }

  lemma UnopenedLock(a: Snap, e: LockEvent)
    requires LockEnabled(a, e) && Unopened(a)
    ensures NoneOpens(ApplyLock(a, e)) && ApplyLock(a, e).broker == a.broker
  {
    hide KeyUsable, GrantExpired, LocRefused, GoesOn, HasRefillToAsk;
  }

  lemma UnopenedSave(a: Snap, o: OpRow, s: Secrets, v: View)
    requires a.lock.held && Unopened(a)
    ensures NoneOpens(ApplySave(a, o, s, v))
  {
    hide OpensRow;
  }

  lemma HolderOpensOnly(a: Snap, act: Action)
    requires Enabled(a, act) && Unopened(a) && !a.broker.admission.Admitted?
    ensures act.Save? ==> a.lock.held
    ensures act.AtBroker? && act.broker.OfferOpen? ==> false
    ensures act.AtBroker? ==>
              ApplyBroker(a, act.broker).opens == a.broker.opens
                  && ApplyBroker(a, act.broker).lateOpens == a.broker.lateOpens
  {
    hide KeepsPreparation, KeepsSession, KeepsBroker, KeepsRefill, KeepsObserved, KeepsClaim, KeepsKey, KeepsState,
      KeepsOutcome, FinishOk;
    hide LateEnabled, MoneyEnabled, StreamEnabled, RunnerEnabled, LocEnabled, LockEnabled;
  }

  lemma UnopenedStep(a: Snap, act: Action)
    requires Inv(a) && Enabled(a, act) && Unopened(a)
    ensures Unopened(Apply(a, act))
  {
    hide Inv, Enabled, Apply, SaveOk, LocRefused, Legal, Replay, Acts, ApplyAct, Core, LateEnabled, ApplySave;
    UnsentFacts(a);
    SentStays(a, act);
    HolderStays(a, act);
    LapsedEvolve(a, act);
    forall j | 0 <= j < |Apply(a, act).lapsed| ensures !LapsedOpens(Apply(a, act).lapsed[j]) {
      assert LapsedFrom(a, Apply(a, act), j);
    }
  }

  /** Nobody sends the open, and the stop stays. */
  lemma SentStays(a: Snap, act: Action)
    requires Enabled(a, act) && Unopened(a) && !a.broker.admission.Admitted?
    ensures Apply(a, act).op.stop && !OpenSent(Apply(a, act).broker)
  {
    hide Enabled, Apply, SaveOk, ApplyLoc, ApplyBroker, ApplyRunner, ApplyMoney, CourseAfterSave, Dwindles,
      LateCourse, LateEnabled;
    HolderOpensOnly(a, act);
    StepTouches(a, act);
    if act.Late? {
      Guards(a, act);
      UnopenedLate(a, act.i, act.late);
    }
  }

  /** No holder comes to be on its way to the open. */
  lemma HolderStays(a: Snap, act: Action)
    requires Enabled(a, act) && Unopened(a) && !a.broker.admission.Admitted?
    ensures !HolderOpens(Apply(a, act).lock, Apply(a, act).course)
  {
    hide Enabled, Apply, SaveOk, ApplyLock, ApplySave, ApplyLoc, ApplyBroker, ApplyRunner, ApplyMoney, LateCourse;
    HolderOpensOnly(a, act);
    StepTouches(a, act);
    if act.OnLock? {
      Guards(a, act);
      UnopenedLock(a, act.lock);
    } else if act.Save? {
      UnopenedSave(a, act.o, act.s, act.v);
    }
  }

  lemma {:induction false} StaysUnopened(a: Snap, log: seq<Action>)
    requires Inv(a) && Legal(a, log) && Unopened(a)
    ensures Unopened(Replay(a, log)) && Replay(a, log).broker.admissions == 0
    decreases |log|
  {
    hide Inv, Enabled, Apply, Unopened, SaveOk;
    RunInv(a, log);
    if log != [] {
      var before := log[..|log| - 1];
      StaysUnopened(a, before);
      RunInv(a, before);
      UnopenedStep(Replay(a, before), log[|log| - 1]);
    }
    UnopenedFacts(Replay(a, log));
  }

  lemma UnopenedFacts(a: Snap)
    requires Inv(a) && Unopened(a)
    ensures !OpenSent(a.broker) && a.broker.admissions == 0
  {
  }

  ghost predicate NeverOpens(a: Snap, log: seq<Action>) {
    Legal(a, log) ==> !OpenSent(Replay(a, log).broker) && Replay(a, log).broker.admissions == 0
  }

  /** The pass with the lock saves its dispatch and sends the open. */
  lemma {:induction false} HolderSendsOpen(a: Snap) returns (log: seq<Action>)
    requires Inv(a) && HolderOpens(a.lock, a.course)
    ensures Legal(a, log) && OpenSent(Replay(a, log).broker)
  {
    hide Leads, Inv, SaveOk, Enabled, Apply;
    ClearedFacts(a);
    Stay(a);
    log := [];
    var b := a;
    if !a.course.marked {
      var o := a.op.(attempts := a.op.attempts + 1);
      LoadSave(a, o);
      DispatchSave(a, o, a.s, a.v);
      hide Inv, SaveOk;
      ThenSave(a, log, b, o.(state := Dispatching), a.s.(dispatched := true), a.v);
      log := log + [Action.Save(o.(state := Dispatching), a.s.(dispatched := true), a.v)];
      b := ApplySave(a, o.(state := Dispatching), a.s.(dispatched := true), a.v);
    }
    ThenBroker(a, log, b, OfferOpen(false));
    log := log + [AtBroker(OfferOpen(false))];
    Arrives(a, log, b.(broker := ApplyBroker(b, OfferOpen(false)), course := b.course.(marked := false)));
  }

  lemma ClearedFacts(a: Snap)
    requires Inv(a) && a.lock.held && !a.course.done && (a.course.cleared || a.course.marked)
    ensures a.op.finished.None? && a.s.session.Some? && a.s.broker.None? && a.s.claim.None?
    ensures (a.course.marked ==> a.s.dispatched)
  {
  }

  lemma {:induction false} LapsedSendsOpen(a: Snap, i: nat) returns (log: seq<Action>)
    requires Inv(a) && i < |a.lapsed| && LapsedOpens(a.lapsed[i])
    ensures Legal(a, log) && OpenSent(Replay(a, log).broker)
  {
    assert LapsedAt(a, i);
    var p := a.lapsed[i];
    assert p.s.dispatched && p.s.session.Some? && p.s.broker.None? && p.s.claim.None?;
    var late := Late(i, AtBroker(OfferOpen(false)));
    hide Inv, LapsedOk, SaveOk, LockEnabled, MoneyEnabled, StreamEnabled, LocEnabled, RunnerEnabled, Legal, Replay;
    assert Enabled(a, late) && OpenSent(Apply(a, late).broker);
    FirstStep(a, late);
    log := [] + [late];
  }

  lemma {:induction false} FirstStep(a: Snap, act: Action)
    requires Enabled(a, act)
    ensures Legal(a, [] + [act]) && Replay(a, [] + [act]) == Apply(a, act)
  {
    hide Enabled, Apply;
    Extend(a, [], act);
  }

  /**
   * Stop safety, exactly: after a stop with no open sent, none is ever sent and the broker never has a session, if and
   * only if no control pass that went on before the stop is still on its way to the open, with the lock or without it.
   */
  lemma {:induction false} StopSafetyExactly(a: Snap)
    requires Inv(a) && a.op.stop && !OpenSent(a.broker)
    ensures NoneOpens(a) <==> forall log :: NeverOpens(a, log)
  {
    hide Inv, Legal, Replay;
    if NoneOpens(a) {
      forall log ensures NeverOpens(a, log) {
        if Legal(a, log) {
          StaysUnopened(a, log);
        }
      }
    } else if HolderOpens(a.lock, a.course) {
      var log := HolderSendsOpen(a);
      assert !NeverOpens(a, log);
    } else {
      var i :| 0 <= i < |a.lapsed| && LapsedOpens(a.lapsed[i]);
      var log := LapsedSendsOpen(a, i);
      assert !NeverOpens(a, log);
    }
  }

  // ---------- what an end reason forbids ----------

  /** Refill ids LOC was asked under, and the one the journal holds. */
  ghost predicate RefillId(a: Snap, id: Id) {
    RefillSeen(a.loc.refillAsked, id) || a.s.refillId == Some(id)
  }

  lemma EndReasonStep(a: Snap, act: Action)
    requires Inv(a) && Enabled(a, act) && a.s.endReason != NoReason
    ensures Apply(a, act).s.endReason != NoReason
    ensures forall id :: RefillId(Apply(a, act), id) ==> RefillId(a, id)
  {
    hide Inv, SaveOk, Acts, ApplyAct;
    if act.Save? {
      EndReasonSave(a, act.o, act.s, act.v);
    } else {
      OthersKeepJournal(a, act);
      AskedKnown(a, act);
      hide Inv, Enabled, Apply;
    }
  }

  lemma EndReasonSave(a: Snap, o: OpRow, s: Secrets, v: View)
    requires SaveOk(a, o, s, v) && a.s.endReason != NoReason
    ensures s.endReason != NoReason && (s.refillId.Some? ==> s.refillId == a.s.refillId)
  {
    hide KeepsPreparation, KeepsSession, KeepsBroker, KeepsObserved, KeepsKey, KeepsState, KeepsOutcome, FinishOk;
  }

  /** Whoever asks LOC for a refill, with the lock or without it, asks under an id the journal knows. */
  lemma AskedKnown(a: Snap, act: Action)
    requires Inv(a) && Enabled(a, act) && !act.Save?
    ensures forall id :: RefillSeen(Apply(a, act).loc.refillAsked, id) ==> RefillId(a, id)
  {
    StepTouches(a, act);
    if act.Late? {
      assert LapsedAt(a, act.i);
      LapsedRefill(a, a.lapsed[act.i]);
    } else if act.AtLoc? {
      Guards(a, act);
      AsksOnly(a.loc, act.loc);
    }
    hide Inv, LapsedOk, Enabled, Apply, LockEnabled, MoneyEnabled, StreamEnabled, BrokerEnabled, RunnerEnabled,
      ApplyLoc, ApplyBroker, ApplyRunner, ApplyMoney, Dwindles, LateCourse;
  }

  lemma AsksOnly(loc: Loc, e: LocEvent)
    ensures ApplyLoc(loc, e).refillAsked == if e.AskRefill? then loc.refillAsked + {e.refill} else loc.refillAsked
  {
  }

  lemma LapsedRefill(a: Snap, p: Lapsed)
    requires LapsedOk(p, a)
    ensures p.s.refillId.Some? ==> RefillId(a, p.s.refillId.value)
  {
    hide Outlived, KeyOutlived;
  }

  /** Once an end reason is saved it is never emptied, and no refill id is minted. */
  lemma {:induction false} EndReasonFreezesRefills(a: Snap, log: seq<Action>)
    requires Inv(a) && Legal(a, log) && a.s.endReason != NoReason
    ensures Replay(a, log).s.endReason != NoReason
    ensures forall id :: RefillId(Replay(a, log), id) ==> RefillId(a, id)
    decreases |log|
  {
    hide Inv, Enabled, Apply, RefillId;
    if log != [] {
      var before := log[..|log| - 1];
      EndReasonFreezesRefills(a, before);
      RunInv(a, before);
      EndReasonStep(Replay(a, before), log[|log| - 1]);
    }
  }

  /** Nor does a control pass with the lock ask the runner for a stream key. */
  lemma {:induction false} EndReasonStopsKeys(a: Snap, log: seq<Action>, key: KeyId)
    requires Inv(a) && Legal(a, log) && a.s.endReason != NoReason
    requires Enabled(Replay(a, log), AtRunner(AskKey(key)))
    ensures Replay(a, log).lock.held && !Replay(a, log).lock.worker
  {
    hide Inv, Legal, Replay, Enabled, Apply;
    EndReasonFreezesRefills(a, log);
    Guards(Replay(a, log), AtRunner(AskKey(key)));
  }

  /**
   * A control pass that lost its lock on its way to the request for the key of a saved identity: it saved the identity
   * or found it outstanding, and has looked at its key grant, or goes on to and the grant is still good.
   */
  predicate LapsedAsksKey(p: Lapsed, clock: Time) {
    && p.lock.held && p.lock.worker && !p.course.done && p.s.keyRequest.Some? && p.s.endReason == NoReason
    && (p.course.wantsKey || Checks(p, clock))
  }

  predicate NoneAsksKey(a: Snap) {
    forall i :: 0 <= i < |a.lapsed| ==> !LapsedAsksKey(a.lapsed[i], a.clock)
  }

  /** A control pass, with the lock or without it, asks the runner for a stream key. */
  predicate ControlAsksKey(a: Snap, act: Action) {
    || (act.AtRunner? && act.runner.AskKey? && a.lock.held && a.lock.worker)
    || (act.Late? && act.late.AtRunner? && act.late.runner.AskKey? && act.i < |a.lapsed|
        && a.lapsed[act.i].lock.held && a.lapsed[act.i].lock.worker)
  }

  ghost predicate NeverAsksKey(a: Snap, log: seq<Action>, act: Action) {
    Legal(a, log) && Enabled(Replay(a, log), act) ==> !ControlAsksKey(Replay(a, log), act)
  }

  lemma NoKeyNow(a: Snap, act: Action)
    requires Enabled(a, act) && a.s.endReason != NoReason && NoneAsksKey(a)
    ensures !ControlAsksKey(a, act)
  {
    hide SaveOk, LockEnabled, MoneyEnabled, StreamEnabled, BrokerEnabled, LocEnabled;
  }

  lemma NoKeyStep(a: Snap, act: Action)
    requires Inv(a) && Enabled(a, act) && a.s.endReason != NoReason && NoneAsksKey(a)
    ensures Apply(a, act).s.endReason != NoReason && NoneAsksKey(Apply(a, act))
  {
    hide Inv, Enabled, Apply, RefillId, LocRefused;
    EndReasonStep(a, act);
    LapsedEvolve(a, act);
    StepTouches(a, act);
    forall j | 0 <= j < |Apply(a, act).lapsed| ensures !LapsedAsksKey(Apply(a, act).lapsed[j], Apply(a, act).clock) {
      assert LapsedFrom(a, Apply(a, act), j);
    }
  }

  lemma {:induction false} StaysWithoutKey(a: Snap, log: seq<Action>)
    requires Inv(a) && Legal(a, log) && a.s.endReason != NoReason && NoneAsksKey(a)
    ensures Replay(a, log).s.endReason != NoReason && NoneAsksKey(Replay(a, log))
    decreases |log|
  {
    hide Inv, Enabled, Apply, NoneAsksKey;
    if log != [] {
      var before := log[..|log| - 1];
      StaysWithoutKey(a, before);
      RunInv(a, before);
      NoKeyStep(Replay(a, before), log[|log| - 1]);
    }
  }

  /** It looks at its grant, if it has yet to, and asks. */
  lemma {:induction false} LapsedAsks(a: Snap, i: nat) returns (log: seq<Action>, act: Action)
    requires i < |a.lapsed| && LapsedAsksKey(a.lapsed[i], a.clock)
    ensures !NeverAsksKey(a, log, act)
  {
    hide SaveOk, Enabled, Apply, ControlAsksKey;
    var check := Late(i, OnLock(CheckKey));
    act := Late(i, AtRunner(AskKey(a.lapsed[i].s.keyRequest.value)));
    if a.lapsed[i].course.wantsKey {
      AsksNow(a, i);
      log := [];
    } else {
      ChecksNow(a, i);
      Extend(a, [], check);
      AsksNow(Apply(a, check), i);
      log := [] + [check];
    }
  }

  lemma ChecksNow(a: Snap, i: nat)
    requires i < |a.lapsed| && LapsedAsksKey(a.lapsed[i], a.clock) && !a.lapsed[i].course.wantsKey
    ensures var check := Late(i, OnLock(CheckKey));
            var b := Apply(a, check);
            && Enabled(a, check) && i < |b.lapsed| && LapsedAsksKey(b.lapsed[i], b.clock) && b.lapsed[i].course.wantsKey
            && b.lapsed[i].s == a.lapsed[i].s
  {
    hide SaveOk, MoneyEnabled, StreamEnabled, BrokerEnabled, LocEnabled, RunnerEnabled, AfterLoc, AfterBroker,
      AfterRunner, ApplyStream, ApplyMoney;
  }

  lemma AsksNow(a: Snap, i: nat)
    requires i < |a.lapsed| && LapsedAsksKey(a.lapsed[i], a.clock) && a.lapsed[i].course.wantsKey
    ensures var late := Late(i, AtRunner(AskKey(a.lapsed[i].s.keyRequest.value)));
              Enabled(a, late) && ControlAsksKey(a, late)
  {
    hide SaveOk, LockEnabled, MoneyEnabled, StreamEnabled, BrokerEnabled, LocEnabled;
  }

  /**
   * Exactly when an end reason stops the keys: in no continuation does a control pass, with the lock or without it, ask
   * the runner for one, if and only if none that lost its lock is on its way to the request for a saved identity.
   */
  lemma {:induction false} KeysStopExactly(a: Snap)
    requires Inv(a) && a.s.endReason != NoReason
    ensures NoneAsksKey(a) <==> forall log, act :: NeverAsksKey(a, log, act)
  {
    hide Inv, Enabled, Apply, ControlAsksKey;
    if NoneAsksKey(a) {
      forall log, act ensures NeverAsksKey(a, log, act) {
        if Legal(a, log) && Enabled(Replay(a, log), act) {
          StaysWithoutKey(a, log);
          NoKeyNow(Replay(a, log), act);
        }
      }
    } else {
      var i :| 0 <= i < |a.lapsed| && LapsedAsksKey(a.lapsed[i], a.clock);
      var log, act := LapsedAsks(a, i);
    }
  }

  // ---------- media end ----------

  /** The media end is written once, with evidence or a reason, and no later state is active. */
  lemma {:induction false} MediaEndIrrevocable(a: Snap, log: seq<Action>)
    requires Inv(a) && Legal(a, log) && a.v.mediaEnded.Some?
    ensures a.s.claim.Some? || a.s.endReason != NoReason || a.op.state == Canceled
    ensures var b := Replay(a, log); b.v.mediaEnded == a.v.mediaEnded && b.op.state != Active
  {
    hide Enabled, Apply;
    JournalForward(a, log);
    RunInv(a, log);
  }

  // ---------- one identity ----------

  /**
   * Every authorization request is the same request, sent after the preparation it names was saved; the broker hears
   * of the session only after its grant was saved, and admits at most one.
   */
  lemma {:induction false} OneIdentity(start: Snap, log: seq<Action>)
    requires Initial(start) && Legal(start, log)
    ensures var a := Replay(start, log);
            && (forall q, r :: q in a.loc.openAsked && r in a.loc.openAsked ==> q == r)
            && (forall q :: q in a.loc.openAsked ==> a.s.prep.Some? && q == CanonicalOpen(a.cfg, a.s.prep.value))
            && (a.loc.openAsked != {} ==> a.op.attempts >= 1)
            && (OpenSent(a.broker) ==> a.s.dispatched && a.s.session.Some? && a.loc.authorized.Granted?)
            && a.broker.admissions <= 1
  {
    hide Enabled, Apply;
    Reachable(start, log);
  }

  // ---------- stream keys ----------

  /** At most one issuance identity is outstanding, and it is the one the journal holds. */
  lemma {:induction false} OneKeyOutstanding(start: Snap, log: seq<Action>)
    requires Initial(start) && Legal(start, log)
    ensures var a := Replay(start, log);
            && (forall k :: k in a.runner.asked - a.keysSaved ==> a.s.keyRequest == Some(k))
            && (a.s.upstream.Some? ==>
                  exists k :: k in a.keysSaved && k in a.runner.keys && a.runner.keys[k].url == a.s.upstream.value)
  {
    hide Enabled, Apply;
    Reachable(start, log);
  }

  /** A new identity is minted only when every key ever asked for has been saved, and it was never asked before. */
  lemma MintedAfterAllSaved(a: Snap, o: OpRow, s: Secrets, v: View)
    requires Inv(a) && SaveOk(a, o, s, v) && s.keyRequest.Some? && s.keyRequest != a.s.keyRequest
    ensures a.runner.asked == a.keysSaved && s.keyRequest.value !in a.runner.asked
  {
    hide LapsedOk;
  }
}
