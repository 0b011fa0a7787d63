/**
 * What a pass may rely on while LOC, the broker, the runner, the customer, the clock and passes without their lock act
 * between its own steps.
 */
module LiveRely {
  import opened Basics
  import opened LiveProtocol
  import opened LiveInvariant

  predicate LocGrows(a: Loc, b: Loc) {
    && (a.prepareAsked ==> b.prepareAsked)
    && a.openAsked <= b.openAsked
    && a.refillAsked <= b.refillAsked
    && (!a.prepared.Unanswered? ==> b.prepared == a.prepared)
    && (!a.authorized.Unanswered? ==> b.authorized == a.authorized)
    && a.issued <= b.issued
    && a.declined <= b.declined
    && (a.closeAsked ==> b.closeAsked)
    && (a.closed.Some? ==> b.closed == a.closed)
  }

  predicate BrokerGrows(a: Broker, b: Broker) {
    && a.opens <= b.opens && a.lateOpens <= b.lateOpens
    && a.topUpSent <= b.topUpSent
    && a.refusedTopUps <= b.refusedTopUps
    && a.endAsked <= b.endAsked
    && (a.admission.Rejected? || a.admission.NotAdmitted? ==> b.admission == a.admission)
    && (a.admission.Admitted? ==>
          && b.admission.Admitted? && b.admission.session == a.admission.session
          && a.admission.taken <= b.admission.taken
          && (a.admission.terminal.Some? ==> b.admission == a.admission))
  }

  predicate RunnerGrows(a: Runner, b: Runner) {
    && a.asked <= b.asked
    && a.keys.Keys <= b.keys.Keys
    && (forall k :: k in a.keys ==> k in b.keys && b.keys[k] == a.keys[k])
  }

  /** Late updates only close what is open. */
  predicate ReservationGrows(a: Reservation, b: Reservation) {
    (a.state.Open? || b.state == a.state) && (a.billed.Some? ==> b.billed == a.billed)
  }

  predicate RowOver(row: StreamRow) {
    row.status != Provisional && row.status != Live
  }

  /** A late projection strays; before any session, an ended row stays ended. */
  predicate RowGrows(a: Snap, b: Snap) {
    if a.s.session.Some? then b.strayed || (b.stream == a.stream && b.strayed == a.strayed)
    else
      && b.strayed == a.strayed
      && (RowOver(a.stream) ==> RowOver(b.stream))
      && (a.stream.status == Ended && a.stream.ended.Some? ==> b.stream.status == Ended && b.stream.ended.Some?)
  }

  /** What requests and row updates do not use up. */
  predicate SameLearned(a: Course, b: Course) {
    && b.done == a.done && b.mayRefuse == a.mayRefuse && b.heard == a.heard && b.cleared == a.cleared
    && b.checked == a.checked && b.keys == a.keys && b.polled == a.polled
  }

  /** The journal stays as it is, but for the stop flag; what the pass has learned stays; peers only go forward. */
  predicate JournalRely(a: Snap, b: Snap) {
    && b.cfg == a.cfg && a.clock <= b.clock && b.s == a.s && b.v == a.v && b.lock == a.lock
    && SameLearned(a.course, b.course)
    && b.keysSaved == a.keysSaved
    && b.op == a.op.(stop := b.op.stop)
    && (a.op.stop ==> b.op.stop)
    && LocGrows(a.loc, b.loc)
    && BrokerGrows(a.broker, b.broker)
    && RunnerGrows(a.runner, b.runner)
  }

  predicate Rely(a: Snap, b: Snap) {
    JournalRely(a, b) && b.course == a.course && b.broker.opens == a.broker.opens && ReservationGrows(a.res, b.res)
        && RowGrows(a, b)
  }

  lemma RelyTransitive(a: Snap, b: Snap, c: Snap)
    requires Rely(a, b) && Rely(b, c)
    ensures Rely(a, c)
  {
  }

  lemma LocRelies(a: Snap, e: LocEvent)
    requires LocEnabled(a, e)
    ensures LocGrows(a.loc, ApplyLoc(a.loc, e))
  {
    hide IdIssued, WorkSeen, RefillSeen;
  }

  lemma BrokerRelies(a: Snap, e: BrokerEvent)
    requires BrokerEnabled(a, e)
    ensures BrokerGrows(a.broker, ApplyBroker(a, e)) && (!e.OfferOpen? ==> ApplyBroker(a, e).opens == a.broker.opens)
  {
  }

  lemma RunnerRelies(a: Snap, e: RunnerEvent)
    requires RunnerEnabled(a, e)
    ensures RunnerGrows(a.runner, ApplyRunner(a.runner, e))
  {
  }

  /** Whatever neither saves nor is about the lock. */
  lemma ActRelies(a: Snap, act: Action)
    requires Acts(a, act) && !act.OnLock?
    ensures JournalRely(a, ApplyAct(a, act))
    ensures !(act.AtBroker? && act.broker.OfferOpen?) ==> ApplyAct(a, act).broker.opens == a.broker.opens
  {
    hide MoneyEnabled, StreamEnabled, LocEnabled, BrokerEnabled, RunnerEnabled, ApplyAct, ApplyLoc, ApplyBroker,
      ApplyRunner, ApplyMoney, LocGrows, BrokerGrows, RunnerGrows, Environment;
    ActTouches(a, act);
    GrowsItself(a);
    if act.AtLoc? {
      LocRelies(a, act.loc);
    } else if act.AtBroker? {
      BrokerRelies(a, act.broker);
    } else if act.AtRunner? {
      RunnerRelies(a, act.runner);
    }
  }

  lemma GrowsItself(a: Snap)
    ensures LocGrows(a.loc, a.loc) && BrokerGrows(a.broker, a.broker) && RunnerGrows(a.runner, a.runner)
  {
  }

  lemma PeersRely(a: Snap, act: Action)
    requires Environment(act) && Acts(a, act)
    ensures Rely(a, ApplyAct(a, act))
  {
    hide Acts, ApplyAct, ApplyLoc, ApplyBroker, ApplyRunner, ApplyMoney, JournalRely, Dwindles;
    ActRelies(a, act);
    ActTouches(a, act);
  }

  /** A pass without the lock belongs to an operation that LOC has not refused once its session is saved. */
  lemma LapsedFacts(a: Snap, p: Lapsed)
    requires Core(a) && LapsedOk(p, a)
    ensures a.s.session.Some? ==> !LocRefused(a.loc) && !(p.lock.sawStop && p.s.prep.None?)
    ensures p.s.session.Some? ==> a.s.session.Some?
    ensures a.res.billed.Some? ==> a.loc.closed.Some? && a.res.billed.value == a.loc.closed.value.billed
    ensures p.course.heard ==> LocRefused(a.loc)
  {
    hide Chain, Asked, Custody, Keys, Standing, RefillOutlived, KeyOutlived, Finished;
  }

  lemma LatePeersGrow(a: Snap, i: nat, act: Action)
    requires LateEnabled(a, i, act)
    ensures JournalRely(a, ApplyLate(a, i, act))
  {
    hide LateEnabled, ApplyLate, ApplyMoney, LateCourse;
    LateTouches(a, i, act);
  }

  /** What such a pass may still write. */
  lemma LateReservation(a: Snap, i: nat, e: MoneyEvent)
    requires Core(a) && LapsedAt(a, i) && LateEnabled(a, i, OnReservation(e))
    ensures ReservationGrows(a.res, ApplyMoney(a.res, e))
  {
    hide Core, LapsedOk, LockEnabled, StreamEnabled, LocEnabled, BrokerEnabled, RunnerEnabled;
    LapsedFacts(a, a.lapsed[i]);
  }

  lemma LateProjection(a: Snap, i: nat, e: StreamEvent)
    requires Core(a) && LapsedAt(a, i) && LateEnabled(a, i, OnStream(e))
    ensures RowGrows(a, ApplyLate(a, i, OnStream(e)))
  {
    hide Core, LapsedOk, LockEnabled, MoneyEnabled, LocEnabled, BrokerEnabled, RunnerEnabled, ApplyLock, ApplyMoney,
      AfterLoc, AfterBroker, AfterRunner;
    LapsedFacts(a, a.lapsed[i]);
  }

  lemma LateRely(a: Snap, i: nat, act: Action)
    requires Core(a) && LapsedAt(a, i) && LateEnabled(a, i, act)
    ensures Rely(a, ApplyLate(a, i, act))
  {
    hide Core, LapsedAt, Acts, JournalRely, ReservationGrows, ApplyLate, ApplyMoney, LateCourse;
    LatePeersGrow(a, i, act);
    LateTouches(a, i, act);
    GrowsNothing(a.res);
    if act.OnStream? {
      LateProjection(a, i, act.stream);
    } else if act.OnReservation? {
      LateReservation(a, i, act.money);
    }
  }

  lemma GrowsNothing(res: Reservation)
    ensures ReservationGrows(res, res)
  {
  }

  lemma EnvironmentRely(a: Snap, act: Action)
    requires Inv(a) && Environment(act) && Enabled(a, act)
    ensures Rely(a, Apply(a, act))
  {
    hide Core, Counting, LapsedAt, Acts, LateEnabled, ApplyLate, ApplyAct, SaveOk, Rely;
    if act.Late? {
      assert LapsedAt(a, act.i);
      LateRely(a, act.i, act.late);
    } else {
      PeersRely(a, act);
    }
  }

  // ---------- a permitted journal write stays permitted ----------

  lemma SessionStays(a: Snap, b: Snap, s: Secrets)
    requires JournalRely(a, b) && KeepsPreparation(a, s) && KeepsSession(a, s)
    ensures KeepsPreparation(b, s) && KeepsSession(b, s)
  {
  }

  lemma BrokerStays(a: Snap, b: Snap, s: Secrets)
    requires JournalRely(a, b) && KeepsBroker(a, s) && KeepsClaim(a, s)
    ensures KeepsBroker(b, s) && KeepsClaim(b, s)
  {
  }

  lemma ReasonStays(a: Snap, b: Snap, s: Secrets)
    requires JournalRely(a, b) && KeepsReason(a, s) && EvidenceSought(a, s)
    ensures KeepsReason(b, s) && EvidenceSought(b, s)
  {
  }

  lemma ObservedStays(a: Snap, b: Snap, s: Secrets, v: View)
    requires JournalRely(a, b) && KeepsObserved(a, s, v)
    ensures KeepsObserved(b, s, v)
  {
  }

  lemma KeyStays(a: Snap, b: Snap, s: Secrets)
    requires JournalRely(a, b) && KeepsKey(a, s) && (KeyMinted(a, s) ==> s.keyRequest.value !in b.runner.asked)
    ensures KeepsKey(b, s)
  {
    if KeyMinted(a, s) {
      assert KeyMinted(b, s);
    } else if KeyRecorded(a, s) {
      assert KeyRecorded(b, s);
    } else {
      assert KeySame(b, s);
    }
  }

  lemma StateStays(a: Snap, b: Snap, o: OpRow, s: Secrets, v: View)
    requires JournalRely(a, b) && KeepsState(a, o, s, v) && KeepsOutcome(a, o, s, v)
    ensures KeepsState(b, o, s, v) && KeepsOutcome(b, o, s, v)
  {
    hide Outcome, ExpireGrant;
  }

  lemma FinishStays(a: Snap, b: Snap, o: OpRow, s: Secrets, v: View)
    requires Rely(a, b) && FinishOk(a, o, s, v) && (SettledByLoc(a, o, s, v) || a.s.session.None?)
    ensures FinishOk(b, o, s, v)
  {
    hide TerminalView, Projection;
  }

  /** Only the refill and the key identity need a look at what changed. */
  lemma SaveStays(a: Snap, b: Snap, o: OpRow, s: Secrets, v: View)
    requires SaveOk(a, o, s, v) && JournalRely(a, b) && KeepsRefill(b, s)
    requires KeyMinted(a, s) ==> s.keyRequest.value !in b.runner.asked
    requires o.finished.None? || FinishOk(b, o, s, v)
    ensures SaveOk(b, o, s, v)
  {
    hide KeepsRefill, KeepsPreparation, KeepsSession, KeepsBroker, KeepsClaim, KeepsKey, KeepsState, KeepsOutcome,
      KeepsObserved, KeepsReason, EvidenceSought;
    SessionStays(a, b, s);
    BrokerStays(a, b, s);
    ReasonStays(a, b, s);
    ObservedStays(a, b, s, v);
    KeyStays(a, b, s);
    StateStays(a, b, o, s, v);
  }

  lemma FinishedSession(a: Snap, o: OpRow, s: Secrets, v: View)
    requires Core(a) && SaveOk(a, o, s, v) && o.finished.Some?
    ensures SettledByLoc(a, o, s, v) || a.s.session.None?
  {
    hide Chain, Asked, Custody, Evidence, Money, Ends, Keys, Standing, KeepsRefill, KeepsKey, KeepsOutcome;
  }

  lemma SaveRelies(a: Snap, b: Snap, o: OpRow, s: Secrets, v: View)
    requires Core(a) && SaveOk(a, o, s, v) && Rely(a, b) && KeepsRefill(b, s)
    requires KeyMinted(a, s) ==> s.keyRequest.value !in b.runner.asked
    ensures SaveOk(b, o, s, v)
  {
    if o.finished.Some? {
      FinishedSession(a, o, s, v);
      FinishStays(a, b, o, s, v);
    }
    hide Core, KeepsRefill, SaveOk, JournalRely, FinishOk;
    SaveStays(a, b, o, s, v);
  }

  lemma SaveHasRefill(a: Snap, o: OpRow, s: Secrets, v: View)
    requires SaveOk(a, o, s, v)
    ensures KeepsRefill(a, s) && KeepsKey(a, s)
  {
    hide KeepsPreparation, KeepsSession, KeepsBroker, KeepsRefill, KeepsObserved, KeepsClaim, KeepsKey, KeepsState,
      KeepsOutcome, FinishOk;
  }

  lemma RefillStaysOk(a: Snap, b: Snap, s: Secrets)
    requires JournalRely(a, b) && KeepsRefill(a, s)
    requires RefillMinted(a, s) ==> !RefillSeen(b.loc.refillAsked, s.refillId.value)
    requires RefillAdopted(a, s) ==> IsActive(b.broker, a.s.refill.value.work)
    ensures KeepsRefill(b, s)
  {
    if RefillMinted(a, s) {
      assert RefillMinted(b, s);
    } else if RefillAdopted(a, s) {
      assert RefillAdopted(b, s);
    } else if RefillDropped(a, s) {
      assert RefillDropped(b, s);
    } else {
      assert RefillStays(b, s);
    }
  }

  /** The pending grant, once in use, stays in use until the journal adopts it. */
  lemma ActiveStays(a: Snap, e: BrokerEvent)
    requires Core(a) && BrokerEnabled(a, e) && a.s.refill.Some? && IsActive(a.broker, a.s.refill.value.work)
    ensures IsActive(ApplyBroker(a, e), a.s.refill.value.work)
  {
    hide Identity, Evidence, Money, Ends, Keys, Standing, Finished, Asked, Chain;
  }

  lemma PeerKeepsSave(a: Snap, act: Action, o: OpRow, s: Secrets, v: View)
    requires Core(a) && SaveOk(a, o, s, v) && Environment(act) && Acts(a, act)
    ensures SaveOk(ApplyAct(a, act), o, s, v)
  {
    var b := ApplyAct(a, act);
    PeersRely(a, act);
    SaveHasRefill(a, o, s, v);
    if RefillAdopted(a, s) && act.AtBroker? {
      ActiveStays(a, act.broker);
    }
    ActTouches(a, act);
    PeersAskNothing(a, act);
    hide SaveOk, Core, Acts, ApplyAct, ApplyLoc, ApplyBroker, ApplyRunner, ApplyMoney, KeepsRefill, KeepsKey, Rely,
      Dwindles;
    RefillStaysOk(a, b, s);
    SaveRelies(a, b, o, s, v);
  }

  lemma PeersAskNothing(a: Snap, act: Action)
    requires Environment(act) && Acts(a, act)
    ensures act.AtLoc? ==> ApplyLoc(a.loc, act.loc).refillAsked == a.loc.refillAsked
    ensures act.AtRunner? ==> ApplyRunner(a.runner, act.runner).asked == a.runner.asked
  {
    hide LockEnabled, MoneyEnabled, StreamEnabled, LocEnabled, BrokerEnabled, RunnerEnabled;
  }

  /** The holder's own row writes matter to a journal write only when it finishes the operation; its requests do not. */
  lemma OwnKeepsSave(a: Snap, act: Action, o: OpRow, s: Secrets, v: View)
    requires SaveOk(a, o, s, v) && Acts(a, act) && Outlives(act) && !act.OnLock? && o.finished.None?
    ensures SaveOk(ApplyAct(a, act), o, s, v)
  {
    hide SaveOk, Acts, ApplyAct, ApplyLoc, ApplyBroker, ApplyRunner, ApplyMoney, KeepsRefill, KeepsKey, JournalRely,
      Dwindles, KeepsPreparation, KeepsSession, KeepsBroker, KeepsObserved, KeepsClaim, KeepsState, KeepsOutcome,
      FinishOk, SettledByLoc, TerminalView, Inv, LateEnabled, ApplyLate, Enabled, Apply;
    var b := ApplyAct(a, act);
    ActRelies(a, act);
    ActTouches(a, act);
    OwnAsksKnown(a, act);
    SaveHasRefill(a, o, s, v);
    RefillStaysOk(a, b, s);
    SaveStays(a, b, o, s, v);
  }

  lemma OwnAsksKnown(a: Snap, act: Action)
    requires Acts(a, act) && Outlives(act)
    ensures forall s :: KeyMinted(a, s) ==> s.keyRequest.value !in ApplyAct(a, act).runner.asked
    ensures forall s :: RefillMinted(a, s) ==> !RefillSeen(ApplyAct(a, act).loc.refillAsked, s.refillId.value)
    ensures ApplyAct(a, act).broker.admission == a.broker.admission
  {
    hide LockEnabled, MoneyEnabled, StreamEnabled, BrokerEnabled, ApplyAct, ApplyMoney, Dwindles;
    ActTouches(a, act);
    if act.AtLoc? {
      hide RunnerEnabled, ApplyBroker, ApplyRunner, KeyMinted;
    } else if act.AtRunner? {
      hide LocEnabled, ApplyLoc, ApplyBroker, RefillMinted, RefillSeen;
    } else {
      hide LocEnabled, RunnerEnabled, ApplyLoc, ApplyRunner, RefillSeen;
    }
  }

  /** A pass without the lock asks under identities the journal knows. */
  lemma LateAsksKnown(a: Snap, i: nat, act: Action)
    requires Core(a) && LateEnabled(a, i, act) && LapsedAt(a, i)
    ensures forall s :: RefillMinted(a, s) ==> !RefillSeen(ApplyLate(a, i, act).loc.refillAsked, s.refillId.value)
    ensures forall s :: KeyMinted(a, s) ==> s.keyRequest.value !in ApplyLate(a, i, act).runner.asked
  {
    hide LateEnabled, ApplyLate, Identity, Chain, Asked, Custody, Evidence, Money, Ends, Standing, Finished,
      Outlived, ApplyMoney, LateCourse;
    LateTouches(a, i, act);
    LateKeyKnown(a, i, act);
  }

  lemma LateKeyKnown(a: Snap, i: nat, act: Action)
    requires LateEnabled(a, i, act)
    ensures act.AtRunner? && act.runner.AskKey? ==> i < |a.lapsed| && a.lapsed[i].s.keyRequest == Some(act.runner.key)
  {
    hide LockEnabled, MoneyEnabled, StreamEnabled, LocEnabled, BrokerEnabled;
  }

  lemma LateKeepsSave(a: Snap, i: nat, act: Action, o: OpRow, s: Secrets, v: View)
    requires Core(a) && LapsedAt(a, i) && SaveOk(a, o, s, v) && LateEnabled(a, i, act)
    ensures SaveOk(ApplyLate(a, i, act), o, s, v)
  {
    hide SaveOk, Core, LateEnabled, LapsedAt, ApplyLate, KeepsRefill, KeepsKey, JournalRely, ApplyMoney, LateCourse,
      KeepsPreparation, KeepsSession, KeepsBroker, KeepsObserved, KeepsClaim, KeepsReason, EvidenceSought, KeepsState,
      KeepsOutcome, FinishOk, SettledByLoc, TerminalView, Inv, Acts, ApplyAct, Enabled, Apply;
    var b := ApplyLate(a, i, act);
    LateRely(a, i, act);
    LateTouches(a, i, act);
    LateAsksKnown(a, i, act);
    SaveHasRefill(a, o, s, v);
    RefillStaysOk(a, b, s);
    SaveRelies(a, b, o, s, v);
  }

  lemma EnvironmentKeepsSave(a: Snap, act: Action, o: OpRow, s: Secrets, v: View)
    requires Inv(a) && SaveOk(a, o, s, v) && Enabled(a, act) && Environment(act)
    ensures SaveOk(Apply(a, act), o, s, v)
  {
    hide SaveOk, Core, Counting, LapsedAt, Acts, ApplyAct, ApplyLate, LateEnabled;
    if act.Late? {
      assert LapsedAt(a, act.i);
      LateKeepsSave(a, act.i, act.late, o, s, v);
    } else {
      PeerKeepsSave(a, act, o, s, v);
    }
  }
}
