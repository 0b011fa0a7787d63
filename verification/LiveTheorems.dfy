/**
 * What holds over every run of a live operation: any interleaving of control passes, reconnects, customer stops, LOC,
 * the broker and the runner, with a crash after any step.
 */
module LiveTheorems {
  import opened Basics
  import opened LiveProtocol
  import opened LiveInvariant
  import opened LiveRely
  import opened LiveSaves

  lemma {:induction false} Reachable(start: Snap, log: seq<Action>)
    requires Initial(start) && Legal(start, log)
    ensures Inv(Replay(start, log))
  {
    hide Core, Legal, Replay, LapsedOk, Counting;
    InitialInv(start);
    RunInv(start, log);
  }

  /**
   * A crash after any step leaves a legal run. Without its process the pass is gone and the lock is free; without its
   * lock connection alone the pass lives on, and everything else is as it was.
   */
  lemma {:induction false} CrashAnywhere(a: Snap, log: seq<Action>, k: nat)
    requires Legal(a, log) && k <= |log|
    ensures Legal(a, log[..k])
    ensures Replay(a, log[..k]).lock.held ==>
              && Legal(a, log[..k] + [OnLock(Release)])
              && Replay(a, log[..k] + [OnLock(Release)]) == Replay(a, log[..k]).(lock := FREE, course := IDLE)
    ensures Replay(a, log[..k]).lock.held && Replay(a, log[..k]).op.finished.None? ==>
              var b := Replay(a, log[..k]);
              && Legal(a, log[..k] + [OnLock(Lose)])
              && Replay(a, log[..k] + [OnLock(Lose)]) ==
                   b.(lock := FREE, course := IDLE, lapsed := b.lapsed + [Lapsed(b.op, b.s, b.v, b.lock, b.course)])
    decreases |log|
  {
    if k < |log| {
      CrashAnywhere(a, log[..|log| - 1], k);
      assert log[..|log| - 1][..k] == log[..k];
    } else {
      assert log[..k] == log;
      if Replay(a, log).lock.held {
        Extend(a, log, OnLock(Release));
        if Replay(a, log).op.finished.None? {
          Extend(a, log, OnLock(Lose));
        }
      }
    }
  }

  // ---------- accounting ----------

  /**
   * A finished operation either had its reservation refunded and LOC never authorized it, or LOC closed its session and
   * the reservation carries LOC's units and LOC's billed value. Nothing is committed while LOC is open. The product row
   * shows the finished view, unless a pass that had lost its lock wrote it last.
   */
  lemma {:induction false} AccountingTruth(start: Snap, log: seq<Action>)
    requires Initial(start) && Legal(start, log)
    ensures var a := Replay(start, log);
            && (a.op.finished.Some? ==>
                  || ((a.op.state == Canceled || a.op.state == IssuanceRefused)
                      && a.res.state == Refunded && !a.loc.authorized.Granted? && RowOver(a.stream))
                  || (a.loc.closed.Some? && a.op.finished == Some(a.loc.closed.value.at)
                      && a.res == Reservation(Committed(Some(a.loc.closed.value.units)),
                                              Some(a.loc.closed.value.billed))
                      && a.v.units == Some(a.loc.closed.value.units)
                      && Shown(a, Projection(a.op, a.v))))
            && (a.res.state.Committed? ==>
                  a.loc.closed.Some? && a.res.state.units == Some(a.loc.closed.value.units))
            && (a.res.billed.Some? ==> a.loc.closed.Some? && a.res.billed.value == a.loc.closed.value.billed)
  {
    hide Legal, Replay, Counting, AllLapsedOk, Chain, Asked, Custody, Keys;
    Reachable(start, log);
    var a := Replay(start, log);
  }

  /**
   * What the customer sees of an operation LOC settled, in plain terms: it failed if and only if its close reason is a
   * failing one, it has a failure code, or its output stalled; else it ended. The claim's reason, output and code come
   * first; of the gateway's own codes two survive a claim without one. The product row agrees, unless a pass without
   * its lock wrote it last.
   */
  lemma {:induction false} ShownEnd(start: Snap, log: seq<Action>)
    requires Initial(start) && Legal(start, log) && Replay(start, log).op.finished.Some?
    requires Replay(start, log).op.state == LocSettled || Replay(start, log).op.state == BrokerSettled
    ensures var a := Replay(start, log);
            && (a.v.status == Failed <==>
                  || a.v.closeReason in {OutputFailed, RunnerFailed, OpenFailed, BackendFailed, CapacityExhausted,
                                         RecoveryFailed, IngestFailed, PaymentUnrecoverable}
                  || a.v.failure != NoCode || a.v.output == Stalled)
            && (a.v.status == Failed || a.v.status == Ended)
            && a.v.closeReason == (if a.s.claim.Some? && a.s.claim.value.closeReason != NoReason
                                   then a.s.claim.value.closeReason else a.s.endReason)
            && (a.s.claim.Some? ==>
                  && (a.s.claim.value.output != NoOutput ==> a.v.output == a.s.claim.value.output)
                  && (a.v.failure == a.s.claim.value.failure
                      || (a.s.claim.value.failure == NoCode
                          && (a.v.failure == KeyGrantExpired || a.v.failure == RefillRefusedCode))))
            && (a.op.state == BrokerSettled ==>
                  && a.loc.closeAsked && a.loc.closed.Some? && a.s.claim.Some?
                  && a.s.claim.value.units == a.loc.closed.value.units)
            && (!a.strayed ==>
                  && a.stream.status == a.v.status && a.stream.closeReason == a.v.closeReason
                  && a.stream.locClosed == a.op.finished
                  && a.stream.ended == if a.v.mediaEnded.Some? then a.v.mediaEnded else a.op.finished)
  {
    hide Legal, Replay, Counting, AllLapsedOk, Chain, Asked, Custody, Keys, Identity, Standing, Ends, Money, Evidence;
    Reachable(start, log);
    FinishedSettled(Replay(start, log));
  }

  lemma FinishedSettled(a: Snap)
    requires Inv(a) && a.op.finished.Some? && (a.op.state == LocSettled || a.op.state == BrokerSettled)
    ensures SettledByLoc(a, a.op, a.s, a.v)
  {
    hide Counting, AllLapsedOk, Chain, Asked, Custody, Keys, Identity, Standing, Ends, Money, Evidence;
  }

  // ---------- why the journal says what it says ----------

  /** What the journal's secrets say now and did not say at first, some write made them say. */
  lemma {:induction false} Written(start: Snap, log: seq<Action>, says: Secrets -> bool) returns (i: nat)
    requires Legal(start, log) && says(Replay(start, log).s) && !says(start.s)
    ensures i < |log| && Legal(start, log[..i]) && log[i].Save? && Enabled(Replay(start, log[..i]), log[i])
    ensures says(log[i].s) && !says(Replay(start, log[..i]).s)
    decreases |log|
  {
    hide Enabled, Apply;
    var last := |log| - 1;
    var a := Replay(start, log[..last]);
    if says(a.s) {
      i := Written(start, log[..last], says);
      assert log[..last][..i] == log[..i];
    } else {
      i := last;
      if !log[last].Save? {
        OthersKeepJournal(a, log[last]);
      }
      SavesSecrets(a, log[last]);
    }
  }

  lemma SavesSecrets(a: Snap, act: Action)
    requires Enabled(a, act)
    ensures act.Save? ==> Apply(a, act).s == act.s && SaveOk(a, act.o, act.s, act.v)
  {
    hide SaveOk;
  }

  /**
   * Every end reason in the journal was written for cause: the pass had read a stop, or the broker had refused its
   * top-up; the broker's open had left no descriptor; LOC had declined the refill; the key grant had run out; or the
   * broker had answered that pass's poll that the session is over, for its reason or the runner's end, or winds down.
   */
  lemma {:induction false} EndReasonsHaveCause(start: Snap, log: seq<Action>) returns (i: nat)
    requires Initial(start) && Legal(start, log) && Replay(start, log).s.endReason != NoReason
    ensures i < |log| && Legal(start, log[..i]) && log[i].Save?
    ensures var a, r := Replay(start, log[..i]), Replay(start, log).s.endReason;
            && a.s.endReason != r && log[i].s.endReason == r
            && (|| (r == GatewayClose && ((a.lock.held && a.lock.sawStop && a.op.stop) || log[i].s.refillRefused))
                || (r == OpenFailed && log[i].s.broker.None?)
                || (r == RefillRefusal && a.s.refillId.Some? && a.s.refillId.value in a.loc.declined)
                || (r == RecoveryFailed && a.s.broker.Some? && a.s.broker.value.keyGrantUntil <= a.clock + 15)
                || (a.course.polled.Some? && var st := a.course.polled.value;
                    st.outputSeconds && st.claimed >= 0
                        && (|| (st.state == Over && st.closeReason != NoReason && r == st.closeReason)
                            || (st.state == Over && st.closeReason == NoReason && r == RunnerEnded)
                            || (st.state == WindingDown && r == RunnerEnded))))
  {
    hide Legal, Replay, SaveOk, Enabled, Apply;
    var r := Replay(start, log).s.endReason;
    i := Written(start, log, (s: Secrets) => s.endReason == r);
    SavesSecrets(Replay(start, log[..i]), log[i]);
    Reachable(start, log[..i]);
    ReasonsOf(Replay(start, log[..i]), log[i].o, log[i].s, log[i].v);
  }

  lemma ReasonsOf(a: Snap, o: OpRow, s: Secrets, v: View)
    requires Inv(a) && SaveOk(a, o, s, v)
    ensures a.lock.held && KeepsReason(a, s) && (a.lock.sawStop ==> a.op.stop)
  {
    hide KeepsPreparation, KeepsSession, KeepsBroker, KeepsRefill, KeepsObserved, KeepsClaim, EvidenceSought, KeepsKey,
      KeepsState, KeepsOutcome, FinishOk, Counting, AllLapsedOk, Chain, Asked, Custody, Keys, Identity, Standing, Money,
      Evidence, Finished;
  }

  /** Every refill in the journal was minted by a pass whose poll found the session running with little runway left. */
  lemma {:induction false} RefillsAreNeeded(start: Snap, log: seq<Action>) returns (i: nat)
    requires Initial(start) && Legal(start, log) && Replay(start, log).s.refillId.Some?
    ensures i < |log| && Legal(start, log[..i]) && log[i].Save?
    ensures var a, s := Replay(start, log[..i]), log[i].s;
            && a.s.refillId.None? && s.refillId == Replay(start, log).s.refillId
            && a.course.polled.Some? && a.course.polled.value.state == Running
            && a.course.polled.value.runwayLow && !a.course.polled.value.willRefuse
            && a.s.session.Some? && a.s.session.value.extensible && a.s.cap < a.cfg.limit
            && s.refillCap == Min(a.cfg.limit, a.s.cap + a.cfg.fund)
            && a.s.endReason == NoReason && a.s.claim.None?
  {
    hide Legal, Replay, SaveOk, Enabled, Apply;
    var id := Replay(start, log).s.refillId;
    i := Written(start, log, (s: Secrets) => s.refillId == id);
    SavesSecrets(Replay(start, log[..i]), log[i]);
    MintsOf(Replay(start, log[..i]), log[i].o, log[i].s, log[i].v);
  }

  lemma MintsOf(a: Snap, o: OpRow, s: Secrets, v: View)
    requires SaveOk(a, o, s, v)
    ensures s.refillId.Some? && s.refillId != a.s.refillId ==> RefillMinted(a, s)
  {
    hide KeepsPreparation, KeepsSession, KeepsBroker, KeepsObserved, KeepsClaim, EvidenceSought, KeepsKey,
      KeepsState, KeepsOutcome, FinishOk, KeepsReason;
  }

  /**
   * The evidence of a session with a descriptor was sought: before the claim was written, the broker had been asked to
   * end the session for the reason in the journal, or a pending top-up had been sent to it.
   */
  lemma {:induction false} EvidenceIsSought(start: Snap, log: seq<Action>) returns (i: nat)
    requires Initial(start) && Legal(start, log) && Replay(start, log).s.claim.Some?
    ensures i < |log| && Legal(start, log[..i]) && log[i].Save? && log[i].s.claim == Replay(start, log).s.claim
    ensures var a := Replay(start, log[..i]);
            && a.s.claim.None?
            && (a.s.broker.Some? ==>
                  || (a.s.endReason != NoReason && a.s.endReason in a.broker.endAsked)
                  || (a.s.refill.Some? && a.s.refill.value.work in a.broker.topUpSent))
  {
    hide Legal, Replay, SaveOk, Enabled, Apply;
    var claim := Replay(start, log).s.claim;
    i := Written(start, log, (s: Secrets) => s.claim == claim);
    SavesSecrets(Replay(start, log[..i]), log[i]);
    EvidenceOf(Replay(start, log[..i]), log[i].o, log[i].s, log[i].v);
  }

  lemma EvidenceOf(a: Snap, o: OpRow, s: Secrets, v: View)
    requires SaveOk(a, o, s, v)
    ensures EvidenceSought(a, s) && (a.s.claim.Some? ==> s.claim == a.s.claim)
  {
    hide KeepsPreparation, KeepsSession, KeepsBroker, KeepsRefill, KeepsObserved, KeepsKey, KeepsState, KeepsOutcome,
      FinishOk, KeepsReason;
  }

  /** The reservation update an action makes, if it makes one. */
  function MoneyOf(act: Action): Option<MoneyEvent> {
    if act.OnReservation? then Some(act.money)
    else if act.Late? && act.late.OnReservation? then Some(act.late.money)
    else None
  }

  lemma MoneyChanges(a: Snap, act: Action)
    requires Enabled(a, act)
    ensures Apply(a, act).res == if MoneyOf(act).Some? then ApplyMoney(a.res, MoneyOf(act).value) else a.res
    ensures MoneyOf(act).Some? && MoneyOf(act).value.MarkSettled? ==>
              a.loc.closed.Some? && MoneyOf(act).value.billed == a.loc.closed.value.billed
    ensures MoneyOf(act).Some? && MoneyOf(act).value.Commit? ==>
              a.loc.closed.Some? && MoneyOf(act).value.units == Some(a.loc.closed.value.units)
  {
    hide SaveOk, LockEnabled, StreamEnabled, LocEnabled, BrokerEnabled, RunnerEnabled, Apply, ApplyBroker,
      ApplyMoney, LateCourse;
    StepTouches(a, act);
  }

  lemma RefundedStep(a: Snap, act: Action)
    requires Enabled(a, act) && a.res.state == Refunded
    ensures Apply(a, act).res.state == Refunded
  {
    hide Enabled, Apply;
    MoneyChanges(a, act);
  }

  /** Once refunded, a reservation stays refunded and LOC never authorizes the operation, in whatever follows. */
  lemma {:induction false} RefundIsFinal(a: Snap, log: seq<Action>)
    requires Inv(a) && Legal(a, log) && a.res.state == Refunded
    ensures Replay(a, log).res.state == Refunded && !Replay(a, log).loc.authorized.Granted?
    ensures Replay(a, log).loc.issued == [] && Replay(a, log).broker.admissions == 0
    decreases |log|
  {
    hide Inv, Enabled, Apply, Core;
    RunInv(a, log);
    if log != [] {
      var before := log[..|log| - 1];
      RefundIsFinal(a, before);
      RunInv(a, before);
      RefundedStep(Replay(a, before), log[|log| - 1]);
    }
    RefundedFacts(Replay(a, log));
  }

  lemma RefundedFacts(a: Snap)
    requires Inv(a)
    ensures a.res.state == Refunded ==> !a.loc.authorized.Granted? && a.loc.issued == [] && a.broker.admissions == 0
  {
  }

  // ---------- the journal only moves forward ----------

  predicate Keeps<T(==)>(a: Option<T>, b: Option<T>) {
    a.Some? ==> b == a
  }

  /** Fields written once, flags that never revert, and a finished journal row and reservation that never change. */
  ghost predicate Forward(a: Snap, b: Snap) {
    && (a.op.stop ==> b.op.stop)
    && a.op.attempts <= b.op.attempts
    && Keeps(a.s.prep, b.s.prep)
    && Keeps(a.s.claim, b.s.claim)
    && Keeps(a.v.mediaEnded, b.v.mediaEnded)
    && (a.s.session.Some? ==> b.s.session.Some?
                              && b.s.session.value == a.s.session.value.(work := b.s.session.value.work))
    && (a.s.broker.Some? ==> b.s.broker.Some? && b.s.broker.value == a.s.broker.value.(work := b.s.broker.value.work))
    && (a.s.dispatched ==> b.s.dispatched)
    && (a.s.endReason != NoReason ==> b.s.endReason != NoReason)
    && (a.s.upstream.Some? ==> b.s.upstream.Some?)
    && a.s.cap <= b.s.cap
    && (a.op.finished.Some? ==> b.op == a.op && b.s == a.s && b.v == a.v && b.res == a.res)
  }

  lemma ForwardSave(a: Snap, o: OpRow, s: Secrets, v: View)
    requires Inv(a) && SaveOk(a, o, s, v)
    ensures Forward(a, ApplySave(a, o, s, v))
  {
    hide AllLapsedOk, Evidence, Keys, Standing, Asked;
  }

  lemma FinishedMoney(a: Snap, act: Action)
    requires Inv(a) && Enabled(a, act) && a.op.finished.Some?
    ensures Apply(a, act).res == a.res
  {
    hide Enabled, Apply, Counting, AllLapsedOk, Chain, Asked, Custody, Evidence, Keys, Standing, Identity, Ends,
      TerminalView, Projection, SaveOk;
    MoneyChanges(a, act);
    RefundedFacts(a);
    EvidenceFacts(a);
  }

  lemma EvidenceFacts(a: Snap)
    requires Inv(a)
    ensures a.loc.closed.Some? ==> a.loc.authorized.Granted?
  {
  }

  lemma OthersKeepJournal(a: Snap, act: Action)
    requires Enabled(a, act) && !act.Save?
    ensures var b := Apply(a, act);
              b.s == a.s && b.v == a.v && b.op == a.op.(stop := b.op.stop) && (a.op.stop ==> b.op.stop)
    ensures a.op.finished.Some? ==> Apply(a, act).op == a.op
  {
    hide Enabled, ApplyBroker, ApplyMoney, Dwindles, LateCourse, SaveOk, ApplyAct, ApplySave;
    StepTouches(a, act);
  }

  lemma ForwardStep(a: Snap, act: Action)
    requires Inv(a) && Enabled(a, act)
    ensures Forward(a, Apply(a, act))
  {
    hide Inv, SaveOk, ApplyAct;
    if act.Save? {
      ForwardSave(a, act.o, act.s, act.v);
    } else {
      OthersKeepJournal(a, act);
      if a.op.finished.Some? {
        FinishedMoney(a, act);
      }
      hide Inv, Enabled, Apply;
    }
  }

  /** Whatever happens between two states, the journal has only moved forward. */
  lemma {:induction false} JournalForward(a: Snap, log: seq<Action>)
    requires Inv(a) && Legal(a, log)
    ensures Forward(a, Replay(a, log))
    decreases |log|
  {
    hide Inv, Enabled, Apply;
    if log != [] {
      var before := log[..|log| - 1];
      JournalForward(a, before);
      RunInv(a, before);
      ForwardStep(Replay(a, before), log[|log| - 1]);
    }
  }

  // ---------- the product row of a finished operation ----------

  /** A pass that lost its lock before it could project the row as not closed. */
  predicate MayReopen(p: Lapsed) {
    !p.course.done && p.lock.held && p.lock.worker && p.course.open && p.s.session.Some?
  }

  predicate NoneReopens(a: Snap) {
    forall i :: 0 <= i < |a.lapsed| ==> !MayReopen(a.lapsed[i])
  }

  /** A settled operation whose product row shows LOC's closing time. */
  predicate ShownClosed(a: Snap) {
    a.op.finished.Some? && a.s.session.Some? && a.stream.locClosed == a.op.finished
  }

  lemma ShownClosedStep(a: Snap, act: Action)
    requires Inv(a) && Enabled(a, act) && ShownClosed(a) && NoneReopens(a)
    ensures ShownClosed(Apply(a, act)) && NoneReopens(Apply(a, act))
  {
    FinishedFacts(a);
    DoneShowsNothing(a, act);
    StepTouches(a, act);
    if act.Late? {
      LateClosed(a, act.i, act.late);
    }
    hide Inv, Enabled, Apply, ApplyLoc, ApplyBroker, ApplyRunner, ApplyMoney, SaveOk;
  }

  /** A finished operation is not saved; a pass that has returned neither projects nor counts nor loses the lock. */
  lemma DoneShowsNothing(a: Snap, act: Action)
    requires Enabled(a, act) && a.op.finished.Some? && (a.lock.held ==> a.course.done)
    ensures !act.Save? && !act.OnStream? && act != OnLock(Lose)
  {
    hide KeepsPreparation, KeepsSession, KeepsBroker, KeepsRefill, KeepsObserved, KeepsClaim, KeepsKey, KeepsState,
      KeepsOutcome, FinishOk;
    hide LateEnabled, MoneyEnabled, LocEnabled, BrokerEnabled, RunnerEnabled;
  }

  lemma FinishedFacts(a: Snap)
    requires Inv(a) && a.op.finished.Some?
    ensures a.lock.held ==> a.course.done
    ensures a.s.session.Some? ==> a.loc.closed.Some? && a.op.finished == Some(a.loc.closed.value.at)
  {
    hide Counting, AllLapsedOk, Chain, Asked, Custody, Keys;
  }

  lemma LateClosed(a: Snap, i: nat, act: Action)
    requires LateEnabled(a, i, act) && NoneReopens(a) && a.loc.closed.Some? && a.s.session.Some?
    requires a.stream.locClosed == Some(a.loc.closed.value.at)
    ensures ApplyLate(a, i, act).stream.locClosed == Some(a.loc.closed.value.at)
  {
    if act.OnStream? {
      hide MoneyEnabled, LocEnabled, RunnerEnabled, BrokerEnabled, LockEnabled, ApplyMoney, ApplyLock, AfterLoc,
        AfterBroker, AfterRunner;
    } else {
      LateTouches(a, i, act);
      hide LateEnabled, ApplyLate, ApplyMoney, LateCourse;
    }
  }

  ghost predicate StaysClosed(a: Snap, log: seq<Action>) {
    Legal(a, log) ==> Replay(a, log).stream.locClosed == a.op.finished
  }

  lemma {:induction false} StaysShownClosed(a: Snap, log: seq<Action>)
    requires Inv(a) && Legal(a, log) && ShownClosed(a) && NoneReopens(a)
    ensures ShownClosed(Replay(a, log)) && NoneReopens(Replay(a, log)) && Replay(a, log).op.finished == a.op.finished
    decreases |log|
  {
    JournalForward(a, log);
    hide Inv, Enabled, ShownClosed, NoneReopens;
    if log != [] {
      var before := log[..|log| - 1];
      StaysShownClosed(a, before);
      RunInv(a, before);
      ShownClosedStep(Replay(a, before), log[|log| - 1]);
    }
  }

  /**
   * Exactly when the product row of a settled operation stays closed: no pass that lost its lock is still on its way to
   * a projection of its own.
   */
  lemma {:induction false} RowStaysClosedExactly(a: Snap)
    requires Inv(a) && ShownClosed(a)
    ensures NoneReopens(a) <==> forall log :: StaysClosed(a, log)
  {
    hide Inv, Enabled, Apply;
    if NoneReopens(a) {
      forall log ensures StaysClosed(a, log) {
        if Legal(a, log) {
          StaysShownClosed(a, log);
          assert ShownClosed(Replay(a, log));
        }
      }
    } else {
      var i :| 0 <= i < |a.lapsed| && MayReopen(a.lapsed[i]);
      LapsedUnfinished(a, i);
      var late := Late(i, OnStream(Project(Projection(a.lapsed[i].op, a.lapsed[i].v), true)));
      Reopens(a, i);
      Extend(a, [], late);
      assert !StaysClosed(a, [] + [late]);
    }
  }

  lemma Reopens(a: Snap, i: nat)
    requires i < |a.lapsed| && MayReopen(a.lapsed[i]) && a.lapsed[i].op.finished.None?
    ensures var late := Late(i, OnStream(Project(Projection(a.lapsed[i].op, a.lapsed[i].v), true)));
            Enabled(a, late) && Apply(a, late).stream.locClosed.None?
  {
    hide SaveOk;
  }

  lemma LapsedUnfinished(a: Snap, i: nat)
    requires Inv(a) && i < |a.lapsed|
    ensures a.lapsed[i].lock.held && a.lapsed[i].op.finished.None?
  {
    hide Core, Counting, RefillOutlived;
    assert LapsedAt(a, i);
  }

  /** With every such pass returned, nothing of a finished operation changes any more. */
  lemma {:induction false} QuietRowsStay(a: Snap, log: seq<Action>)
    requires Inv(a) && Legal(a, log) && a.op.finished.Some?
    requires forall i :: 0 <= i < |a.lapsed| ==> a.lapsed[i].course.done
    ensures var b := Replay(a, log);
            && b.op == a.op && b.s == a.s && b.v == a.v && b.res == a.res && b.stream == a.stream
            && b.refills == a.refills
            && b.lapsed == a.lapsed
    decreases |log|
  {
    hide Inv, Enabled, Apply;
    if log != [] {
      var before := log[..|log| - 1];
      QuietRowsStay(a, before);
      RunInv(a, before);
      QuietStep(Replay(a, before), log[|log| - 1]);
    }
  }

  lemma QuietStep(a: Snap, act: Action)
    requires Inv(a) && Enabled(a, act) && a.op.finished.Some?
    requires forall i :: 0 <= i < |a.lapsed| ==> a.lapsed[i].course.done
    ensures var b := Apply(a, act);
            && b.op == a.op && b.s == a.s && b.v == a.v && b.res == a.res && b.stream == a.stream
            && b.refills == a.refills
            && b.lapsed == a.lapsed
  {
    FinishedFacts(a);
    FinishedMoney(a, act);
    DoneShowsNothing(a, act);
    StepTouches(a, act);
    if act.Late? {
      ReturnedStays(a, act.i, act.late);
    }
    hide Inv, Enabled, Apply, ApplyLoc, ApplyBroker, ApplyRunner, ApplyMoney, SaveOk;
  }

  lemma ReturnedStays(a: Snap, i: nat, act: Action)
    requires LateEnabled(a, i, act) && a.lapsed[i].course.done
    ensures act == OnLock(Quit) && ApplyLate(a, i, act).lapsed == a.lapsed
  {
    hide Inv;
  }

  // ---------- custody of the grant ----------

  /**
   * In every journal snapshot with a session, the broker uses the session's grant or its one pending successor, and the
   * terminal settlement of the grant in use is exactly the evidence the lookup accepts.
   */
  lemma {:induction false} GrantCustody(start: Snap, log: seq<Action>)
    requires Initial(start) && Legal(start, log)
    ensures var a := Replay(start, log);
            a.s.session.Some? ==>
              && a.s.prep.Some?
              && (a.broker.admission.Admitted? ==>
                    || a.broker.admission.active == a.s.session.value.work
                    || (a.s.refill.Some? && a.broker.admission.active == a.s.refill.value.work))
              && Adopted(a.s, a.loc.issued) <= |a.loc.issued| <= Adopted(a.s, a.loc.issued) + 1
              && (forall c :: Terminal(a.broker, c) ==> Accepted(a.s, c))
  {
    hide Enabled, Apply;
    Reachable(start, log);
  }

  // ---------- refills ----------

  /** The cap after `n` refills is the closed form, whatever the number of crashes between them. */
  lemma {:induction false} CapFormula(cfg: Config, n: nat)
    requires ValidConfig(cfg)
    ensures CapAfter(cfg, n) == Min(cfg.limit, cfg.firstCap + n * cfg.fund)
    ensures cfg.firstCap <= CapAfter(cfg, n) <= cfg.limit
  {
    if n > 0 {
      CapFormula(cfg, n - 1);
      assert n * cfg.fund == (n - 1) * cfg.fund + cfg.fund;
      assert (n - 1) * cfg.fund >= 0;
    }
  }

  /** While the limit is out of reach, each refill raises the cap by the whole fund. */
  lemma {:induction false} CapBelowLimit(cfg: Config, n: nat)
    requires ValidConfig(cfg) && CapAfter(cfg, n) < cfg.limit
    ensures CapAfter(cfg, n) >= cfg.firstCap + n
  {
    if n > 0 {
      CapFormula(cfg, n - 1);
      CapBelowLimit(cfg, n - 1);
    }
  }

  /**
   * Each refill identity is issued once, with the next cap of the chain; caps strictly increase and never pass the
   * limit, so at most `limit - firstCap` revisions are ever issued; after `n` adoptions the journal's cap is
   * `min(limit, firstCap + n * fund)`.
   */
  ghost predicate Ledger(cfg: Config, s: Secrets, issued: seq<IssuedRevision>) {
    && s.cap == Min(cfg.limit, cfg.firstCap + Adopted(s, issued) * cfg.fund)
    && (forall i :: 0 <= i < |issued| ==>
        issued[i].cap == Min(cfg.limit, cfg.firstCap + (i + 1) * cfg.fund) <= cfg.limit)
    && (forall i, j :: 0 <= i < j < |issued| ==> issued[i].id != issued[j].id && issued[i].cap < issued[j].cap)
    && |issued| <= cfg.limit - cfg.firstCap
  }

  /** The ledger holds in every run, and the product row never counts more refills than were adopted. */
  lemma {:induction false} RefillLedger(start: Snap, log: seq<Action>)
    requires Initial(start) && Legal(start, log)
    ensures var a := Replay(start, log);
            Ledger(a.cfg, a.s, a.loc.issued) && a.refills <= Adopted(a.s, a.loc.issued)
  {
    hide *;
    Reachable(start, log);
    var a := Replay(start, log);
    LedgerOfChain(a);
  }

  lemma LedgerOfChain(a: Snap)
    requires Inv(a)
    ensures Ledger(a.cfg, a.s, a.loc.issued) && a.refills <= Adopted(a.s, a.loc.issued)
  {
    hide LapsedOk;
    ChainLedger(a.cfg, a.s, a.loc.authorized, a.loc.issued, a.loc.declined);
    AtMost(a.counted, Adopted(a.s, a.loc.issued));
  }

  lemma {:induction false} AtMost(ids: set<nat>, n: nat)
    requires forall i :: i in ids ==> 1 <= i <= n
    ensures |ids| <= n
    decreases n
  {
    if n > 0 {
      AtMost(ids - {n}, n - 1);
      assert n in ids ==> ids == (ids - {n}) + {n};
      assert n !in ids ==> ids == ids - {n};
    } else {
      assert ids == {};
    }
  }

  lemma ChainLedger(cfg: Config, s: Secrets, root: Answer<Grant>, issued: seq<IssuedRevision>, declined: set<Id>)
    requires ValidConfig(cfg) && Chain(cfg, s, root, issued, declined)
    ensures Ledger(cfg, s, issued)
  {
    CapFormula(cfg, Adopted(s, issued));
    forall i | 0 <= i < |issued|
      ensures issued[i].cap == Min(cfg.limit, cfg.firstCap + (i + 1) * cfg.fund) <= cfg.limit
    {
      CapFormula(cfg, i + 1);
    }
    forall i, j | 0 <= i < j < |issued| ensures issued[i].cap < issued[j].cap {
      CapsIncrease(cfg, i + 1, j + 1);
    }
    if issued != [] {
      CapBelowLimit(cfg, |issued| - 1);
    }
  }

  lemma {:induction false} CapsIncrease(cfg: Config, i: nat, j: nat)
    requires ValidConfig(cfg) && i < j && CapAfter(cfg, j - 1) < cfg.limit
    ensures CapAfter(cfg, i) < CapAfter(cfg, j)
  {
    if i < j - 1 {
      CapFormula(cfg, j - 2);
      assert CapAfter(cfg, j - 2) < cfg.limit;
      CapsIncrease(cfg, i, j - 1);
    }
  }

  /** Every replay of a refill identity carries the same cap, and the same observed usage until LOC closes. */
  lemma {:induction false} RefillReplays(start: Snap, log: seq<Action>, q: RefillRequest, r: RefillRequest)
    requires Initial(start) && Legal(start, log)
    requires q in Replay(start, log).loc.refillAsked && r in Replay(start, log).loc.refillAsked && q.id == r.id
    ensures q.cap == r.cap && (Replay(start, log).loc.closed.None? ==> q == r)
  {
    hide Enabled, Apply;
    Reachable(start, log);
  }

  // ---------- runs, step by step ----------

  ghost predicate Leads(a: Snap, log: seq<Action>, b: Snap) {
    Legal(a, log) && Replay(a, log) == b
  }

  lemma Stay(a: Snap)
    ensures Leads(a, [], a)
  {
    hide Enabled, Apply;
  }

  lemma {:induction false} Then(a: Snap, log: seq<Action>, b: Snap, act: Action, c: Snap)
    requires Leads(a, log, b) && Enabled(b, act) && Apply(b, act) == c
    ensures Leads(a, log + [act], c)
  {
    hide Enabled, Apply;
    Extend(a, log, act);
  }

  lemma {:induction false} ThenSave(a: Snap, log: seq<Action>, b: Snap, o: OpRow, s: Secrets, v: View)
    requires Leads(a, log, b) && SaveOk(b, o, s, v) && (o.finished.Some? ==> b.course.done)
    ensures Leads(a, log + [Action.Save(o, s, v)], ApplySave(b, o, s, v))
  {
    hide SaveOk, ApplySave, Leads, Acts, ApplyAct;
    Then(a, log, b, Action.Save(o, s, v), ApplySave(b, o, s, v));
  }

  lemma {:induction false} ThenLock(a: Snap, log: seq<Action>, b: Snap, e: LockEvent)
    requires Leads(a, log, b) && LockEnabled(b, e)
    ensures Leads(a, log + [OnLock(e)], ApplyLock(b, e))
  {
    hide LockEnabled, ApplyLock, Leads, SaveOk;
    Then(a, log, b, OnLock(e), ApplyLock(b, e));
  }

  lemma {:induction false} ThenMoney(a: Snap, log: seq<Action>, b: Snap, e: MoneyEvent)
    requires Leads(a, log, b) && MoneyEnabled(b, e)
    ensures Leads(a, log + [OnReservation(e)], b.(res := ApplyMoney(b.res, e)))
  {
    hide ApplyMoney, Leads, SaveOk;
    Then(a, log, b, OnReservation(e), b.(res := ApplyMoney(b.res, e)));
  }

  lemma {:induction false} ThenStream(a: Snap, log: seq<Action>, b: Snap, e: StreamEvent)
    requires Leads(a, log, b) && StreamEnabled(b, e)
    ensures Leads(a, log + [OnStream(e)], ApplyStream(b, e))
  {
    hide ApplyStream, Leads, SaveOk;
    Then(a, log, b, OnStream(e), ApplyStream(b, e));
  }

  lemma {:induction false} ThenLoc(a: Snap, log: seq<Action>, b: Snap, e: LocEvent)
    requires Leads(a, log, b) && LocEnabled(b, e)
    ensures Leads(a, log + [AtLoc(e)],
                  b.(loc := ApplyLoc(b.loc, e), course := if e.AskRefill? then b.course.(asks := false) else b.course))
  {
    hide LocEnabled, SaveOk;
    Then(a, log, b, AtLoc(e), b.(loc := ApplyLoc(b.loc, e),
                                 course := if e.AskRefill? then b.course.(asks := false) else b.course));
  }

  lemma Arrives(a: Snap, log: seq<Action>, b: Snap)
    requires Leads(a, log, b)
    ensures Legal(a, log) && Replay(a, log) == b
  {
    hide Legal, Replay;
  }

  lemma {:induction false} ThenBroker(a: Snap, log: seq<Action>, b: Snap, e: BrokerEvent)
    requires Leads(a, log, b) && BrokerEnabled(b, e)
    ensures Leads(a, log + [AtBroker(e)],
                  b.(broker := ApplyBroker(b, e),
                     course := if e.OfferOpen? then b.course.(marked := false) else b.course))
  {
    hide BrokerEnabled, SaveOk;
    Then(a, log, b, AtBroker(e),
         b.(broker := ApplyBroker(b, e), course := if e.OfferOpen? then b.course.(marked := false) else b.course));
  }

  lemma {:induction false} ThenRunner(a: Snap, log: seq<Action>, b: Snap, e: RunnerEvent)
    requires Leads(a, log, b) && RunnerEnabled(b, e)
    ensures Leads(a, log + [AtRunner(e)],
                  b.(runner := ApplyRunner(b.runner, e),
                     course := if e.AskKey? then b.course.(wantsKey := false) else b.course))
  {
    hide RunnerEnabled, Leads, SaveOk;
    Then(a, log, b, AtRunner(e),
         b.(runner := ApplyRunner(b.runner, e),
            course := if e.AskKey? then b.course.(wantsKey := false) else b.course));
  }

  /** Runs compose. */
  lemma {:induction false} Compose(a: Snap, log: seq<Action>, more: seq<Action>)
    requires Legal(a, log) && Legal(Replay(a, log), more)
    ensures Legal(a, log + more) && Replay(a, log + more) == Replay(Replay(a, log), more)
    decreases |more|
  {
    hide Enabled, Apply;
    if more == [] {
      assert log + more == log;
    } else {
      var before := more[..|more| - 1];
      Compose(a, log, before);
      Extend(a, log + before, more[|more| - 1]);
      assert log + more == (log + before) + [more[|more| - 1]];
    }
  }

  lemma {:induction false} Follow(a: Snap, log: seq<Action>, b: Snap, more: seq<Action>, c: Snap)
    requires Leads(a, log, b) && Leads(b, more, c)
    ensures Leads(a, log + more, c)
  {
    hide Legal, Replay;
    Compose(a, log, more);
  }

  /** A worker takes the lock afresh. */
  lemma {:induction false} TakeLock(a: Snap, worker: bool) returns (log: seq<Action>)
    requires a.op.finished.None?
    ensures Leads(a, log, ApplyLock(a.(lock := FREE, course := IDLE), Acquire(worker)))
  {
    hide SaveOk;
    var free := a.(lock := FREE, course := IDLE);
    Stay(a);
    log := [];
    if a.lock.held {
      Then(a, log, a, OnLock(Release), free);
      log := log + [OnLock(Release)];
      Then(a, log, free, OnLock(Acquire(worker)), ApplyLock(free, Acquire(worker)));
    } else {
      Then(a, log, a, OnLock(Acquire(worker)), ApplyLock(free, Acquire(worker)));
    }
    log := log + [OnLock(Acquire(worker))];
  }

  lemma {:induction false} LeadsInv(a: Snap, log: seq<Action>, b: Snap)
    requires Inv(a) && Leads(a, log, b)
    ensures Inv(b)
  {
    hide Inv, Legal, Replay;
    RunInv(a, log);
  }
}
