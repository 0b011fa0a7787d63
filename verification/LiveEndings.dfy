/**
 * When a session whose first key is saved still becomes active, and when an operation LOC refused still finishes:
 * exactly, over all continuations.
 */
module LiveEndings {
  import opened Basics
  import opened LiveProtocol
  import opened LiveInvariant
  import opened LiveSaves
  import opened LiveTheorems

  // ---------- becoming active ----------

  /** The pass that issues the first key found it usable, or can still get a usable one. */
  predicate KeyHope(a: Snap) {
    match a.course.keys
    case Usable => true
    case Recorded(n) => !a.course.done && (n == 1 || KeyUsable(a.s, a.clock))
    case Expired(n) =>
      && !a.course.done && n == 1
      && (a.s.keyRequest.Some? && a.s.keyRequest.value in a.runner.keys ==>
            a.runner.keys[a.s.keyRequest.value].expires > a.clock + 15)
    case Untried => false
  }

  predicate CanActivate(a: Snap) {
    && a.lock.held && a.lock.worker && !a.lock.hadKey
    && a.s.endReason == NoReason && a.s.claim.None? && a.op.finished.None?
    && KeyHope(a)
  }

  /** A first key is saved, the operation is not active, and no pass can make it so. */
  predicate Stranded(a: Snap) {
    a.s.upstream.Some? && a.op.state != Active && !CanActivate(a)
  }

  lemma StrandedLock(a: Snap, e: LockEvent)
    requires Inv(a) && LockEnabled(a, e) && Stranded(a)
    ensures Stranded(ApplyLock(a, e))
  {
    hide Core, Counting, AllLapsedOk, LocRefused, GrantExpired, GoesOn, HasRefillToAsk;
  }

  lemma StrandedSave(a: Snap, o: OpRow, s: Secrets, v: View)
    requires Inv(a) && SaveOk(a, o, s, v) && Stranded(a)
    ensures Stranded(ApplySave(a, o, s, v))
  {
    hide Counting, AllLapsedOk, Identity, Chain, Asked, Custody, Evidence, Money, KeepsRefill, KeepsOutcome,
      KeepsObserved, FinishOk, OpensRow;
  }

  lemma StrandedStep(a: Snap, act: Action)
    requires Inv(a) && Enabled(a, act) && Stranded(a)
    ensures Stranded(Apply(a, act))
  {
    hide Inv, Enabled, Apply, SaveOk, LockEnabled, ApplyLock, ApplySave;
    Guards(a, act);
    StepTouches(a, act);
    if act.OnLock? {
      StrandedLock(a, act.lock);
    } else if act.Save? {
      StrandedSave(a, act.o, act.s, act.v);
    } else {
      if act.AtRunner? {
        RunnerAddsKeys(a, act);
      }
      hide MoneyEnabled, StreamEnabled, LocEnabled, BrokerEnabled, RunnerEnabled, ApplyLoc, ApplyBroker, ApplyRunner,
        ApplyMoney, Stranded;
      OthersLeaveHope(a, Apply(a, act));
    }
  }

  lemma RunnerAddsKeys(a: Snap, act: Action)
    requires Enabled(a, act) && act.AtRunner?
    ensures forall k :: k in a.runner.keys ==> k in ApplyRunner(a.runner, act.runner).keys
                                               && ApplyRunner(a.runner, act.runner).keys[k] == a.runner.keys[k]
  {
    hide Enabled, Apply, LockEnabled, ApplyLock;
    Guards(a, act);
  }

  /** Time, the runner's answers, requests and rows leave a stranded session stranded. */
  lemma OthersLeaveHope(a: Snap, b: Snap)
    requires Stranded(a) && b.s == a.s && b.op == a.op.(stop := b.op.stop) && a.clock <= b.clock && b.lock == a.lock
    requires Dwindles(a.course, b.course)
    requires forall k :: k in a.runner.keys ==> k in b.runner.keys && b.runner.keys[k] == a.runner.keys[k]
    ensures Stranded(b)
  {
  }

  lemma {:induction false} StrandedForever(a: Snap, log: seq<Action>)
    requires Inv(a) && Legal(a, log) && Stranded(a)
    ensures Stranded(Replay(a, log))
    decreases |log|
  {
    hide Inv, Enabled, Stranded, Apply;
    if log != [] {
      var before := log[..|log| - 1];
      StrandedForever(a, before);
      RunInv(a, before);
      StrandedStep(Replay(a, before), log[|log| - 1]);
    }
  }

  ghost predicate BecomesActive(a: Snap, log: seq<Action>) {
    Legal(a, log) && Replay(a, log).op.state == Active
  }

  /** With a usable key in hand the pass saves the active state. */
  lemma {:induction false} SavesActive(a: Snap) returns (act: Action)
    requires Inv(a) && a.s.upstream.Some? && a.op.state != Active && CanActivate(a) && a.course.keys == Usable
    ensures Enabled(a, act) && Apply(a, act).op.state == Active
  {
    hide Inv, SaveOk, LockEnabled, RunnerEnabled, ApplyRunner, ApplyLock, MoneyEnabled, StreamEnabled, LocEnabled,
      BrokerEnabled, ApplyLoc, ApplyBroker, ApplyMoney, ApplyStream, OpensRow, LapsedOk;
    UnendedMedia(a);
    var o := a.op.(attempts := a.op.attempts + 1);
    LoadSave(a, o);
    ActiveSave(a, o, a.s, a.v, a.v);
    act := Action.Save(o.(state := Active), a.s, a.v);
  }

  lemma UnendedMedia(a: Snap)
    requires Inv(a) && a.s.claim.None? && a.s.endReason == NoReason && a.op.finished.None?
    ensures a.v.mediaEnded.None?
  {
  }

  lemma KeyFactsOf(a: Snap)
    requires Inv(a) && a.lock.held
    ensures a.course.keys.Recorded? || a.course.keys.Usable? ==> a.s.keyRequest.None?
    ensures a.s.upstream.Some? ==> a.s.broker.Some? && a.s.broker.value.urlsValid
    ensures a.course.keys.Recorded? || a.course.keys.Expired? ==> 1 <= a.course.keys.n <= 2
    ensures a.s.keyRequest.Some? && a.s.keyRequest.value !in a.runner.asked ==> a.s.keyRequest.value !in a.runner.keys
    ensures !a.course.done ==> a.op.finished.None?
    ensures a.course.keys != Untried ==> a.course.checked
  {
  }

  /** From a key found expired, a second identity gets a key that lasts. */
  lemma {:induction false} SecondKey(a: Snap) returns (log: seq<Action>, b: Snap)
    requires Inv(a) && a.s.upstream.Some? && a.op.state != Active && CanActivate(a) && a.course.keys == Expired(1)
    ensures Leads(a, log, b) && b.s.upstream.Some? && b.op.state != Active && CanActivate(b) && b.course.keys == Usable
  {
    hide Leads, SaveOk, Enabled, Apply;
    Stay(a);
    log := [];
    b := a;
    if a.s.keyRequest.None? {
      var act := MintsKey(a);
      Then(a, log, b, act, Apply(b, act));
      log, b := log + [act], Apply(b, act);
    }
    LeadsInv(a, log, b);
    KeyFactsOf(b);
    var k := b.s.keyRequest.value;
    if k !in b.runner.keys {
      hide Inv;
      if k !in b.runner.asked {
        ThenRunner(a, log, b, AskKey(k));
        log := log + [AtRunner(AskKey(k))];
        b := b.(runner := b.runner.(asked := b.runner.asked + {k}), course := b.course.(wantsKey := false));
      }
      var issued := IssuedKey(0, b.clock + 16);
      ThenRunner(a, log, b, RunnerIssue(k, issued));
      log, b := log + [AtRunner(RunnerIssue(k, issued))], b.(runner := b.runner.(keys := b.runner.keys[k := issued]));
    }
    var more, last := RecordsUsable(a, log, b);
    log, b := more, last;
  }

  lemma {:induction false} FreshId(asked: set<KeyId>) returns (id: Id)
    ensures RenewedKey(id) !in asked
  {
    ghost var used := set k | k in asked && k.RenewedKey? :: k.id;
    UnusedId(used);
    id :| id !in used;
  }

  lemma {:induction false} MintsKey(a: Snap) returns (act: Action)
    requires Inv(a) && a.s.upstream.Some? && a.op.state != Active && CanActivate(a) && a.course.keys == Expired(1)
    requires a.s.keyRequest.None?
    ensures Enabled(a, act) && act.Save?
    ensures var b := Apply(a, act);
            && b.s.upstream.Some? && b.op.state != Active && CanActivate(b) && b.course.keys == Expired(1)
            && b.s.keyRequest.Some?
            && b.s.keyRequest.value !in b.runner.keys
  {
    hide Inv, SaveOk, KeyHope, OpensRow, Legal, Acts, ApplyAct;
    var id := FreshId(a.runner.asked);
    AskedKeys(a);
    KeyFactsOf(a);
    var s := a.s.(keyRequest := Some(RenewedKey(id)));
    var o := MintIsOk(a, id);
    act := Action.Save(o, s, a.v);
    assert Apply(a, act) == ApplySave(a, o, s, a.v);
    MintKeepsHope(a, o, s);
  }

  lemma {:induction false} MintIsOk(a: Snap, id: Id) returns (o: OpRow)
    requires Inv(a) && a.lock.held && a.lock.worker && a.op.finished.None? && a.s.endReason == NoReason
    requires a.s.keyRequest.None?
    requires a.course.keys == Expired(1) && a.s.upstream.Some? && a.s.broker.Some? && a.s.broker.value.urlsValid
    requires RenewedKey(id) !in a.runner.asked
    ensures SaveOk(a, o, a.s.(keyRequest := Some(RenewedKey(id))), a.v) && o == a.op.(attempts := a.op.attempts + 1)
  {
    o := a.op.(attempts := a.op.attempts + 1);
    hide SaveOk;
    LoadSave(a, o);
    hide Inv;
    KeyMintSave(a, o, a.s, a.v, RenewedKey(id));
  }

  lemma MintKeepsHope(a: Snap, o: OpRow, s: Secrets)
    requires CanActivate(a) && a.course.keys == Expired(1) && a.s.keyRequest.None?
    requires s == a.s.(keyRequest := s.keyRequest) && s.keyRequest.Some? && s.keyRequest.value !in a.runner.keys
    requires o == a.op.(attempts := o.attempts)
    ensures CanActivate(ApplySave(a, o, s, a.v)) && ApplySave(a, o, s, a.v).course.keys == Expired(1)
  {
  }

  lemma AskedKeys(a: Snap)
    requires Inv(a)
    ensures a.runner.keys.Keys <= a.runner.asked
  {
  }

  /** The answer is recorded; a key that lasts is found usable. */
  lemma {:induction false} RecordIsOk(b: Snap) returns (o: OpRow, s: Secrets)
    requires Inv(b) && b.lock.held && b.lock.worker && b.op.finished.None? && b.course.keys == Expired(1)
    requires b.s.keyRequest.Some? && b.s.keyRequest.value in b.runner.keys
    ensures SaveOk(b, o, s, b.v) && o == b.op.(attempts := b.op.attempts + 1)
    ensures var k := b.runner.keys[b.s.keyRequest.value];
            s == b.s.(upstream := Some(k.url), keyExpires := k.expires, keyRequest := None)
  {
    hide SaveOk, Inv;
    o := b.op.(attempts := b.op.attempts + 1);
    var k := b.runner.keys[b.s.keyRequest.value];
    s := b.s.(upstream := Some(k.url), keyExpires := k.expires, keyRequest := None);
    LoadSave(b, o);
    KeyFactsOf(b);
    KeyRecordSave(b, o, b.s, b.v);
  }

  lemma RecordKeepsHope(b: Snap, o: OpRow, s: Secrets)
    requires CanActivate(b) && b.course.keys == Expired(1) && b.s.keyRequest.Some?
    requires b.s.keyRequest.value in b.runner.keys
    requires o == b.op.(attempts := o.attempts) && b.op.state != Active
    requires var k := b.runner.keys[b.s.keyRequest.value];
             s == b.s.(upstream := Some(k.url), keyExpires := k.expires, keyRequest := None)
    ensures var c := ApplySave(b, o, s, b.v);
            && LockEnabled(c, JudgeKey)
            && var d := ApplyLock(c, JudgeKey);
               d.s.upstream.Some? && d.op.state != Active && CanActivate(d) && d.course.keys == Usable
  {
  }

  lemma {:induction false} RecordsUsable(a: Snap, before: seq<Action>, b: Snap) returns (log: seq<Action>, c: Snap)
    requires Inv(a) && Leads(a, before, b) && b.s.upstream.Some? && b.op.state != Active && CanActivate(b)
    requires b.course.keys == Expired(1)
    requires b.s.keyRequest.Some? && b.s.keyRequest.value in b.runner.keys
    ensures Leads(a, log, c) && c.s.upstream.Some? && c.op.state != Active && CanActivate(c) && c.course.keys == Usable
  {
    LeadsInv(a, before, b);
    hide Leads, SaveOk, Inv, KeyHope, ApplySave, ApplyLock, LockEnabled;
    var o, s := RecordIsOk(b);
    RecordKeepsHope(b, o, s);
    hide CanActivate, KeyUsable;
    ThenSave(a, before, b, o, s, b.v);
    log, c := before + [Action.Save(o, s, b.v)], ApplySave(b, o, s, b.v);
    ThenLock(a, log, c, JudgeKey);
    log, c := log + [OnLock(JudgeKey)], ApplyLock(c, JudgeKey);
  }

  /** Every hope can be fulfilled. */
  lemma {:induction false} HopeActivates(a: Snap) returns (log: seq<Action>)
    requires Inv(a) && a.s.upstream.Some? && a.op.state != Active && CanActivate(a)
    ensures BecomesActive(a, log)
  {
    hide Leads, Enabled, Apply, Inv, SaveOk, Legal, Replay, Acts, ApplyAct, Core, LateEnabled, ApplySave;
    KeyFactsOf(a);
    Stay(a);
    log := [];
    var b := a;
    if a.course.keys.Recorded? {
      ThenLock(a, log, a, JudgeKey);
      log, b := log + [OnLock(JudgeKey)], ApplyLock(a, JudgeKey);
    }
    LeadsInv(a, log, b);
    if b.course.keys.Expired? {
      var more, c := SecondKey(b);
      Follow(a, log, b, more, c);
      log, b := log + more, c;
      LeadsInv(a, log, b);
    }
    var act := SavesActive(b);
    Then(a, log, b, act, Apply(b, act));
    log := log + [act];
    Arrives(a, log, Apply(b, act));
  }

  /**
   * Exactly when an operation whose first key is saved can still become active: the pass that issued it holds the lock,
   * nothing has ended the session, and a key of that pass is usable or can still be got. A crash ends that, and so do
   * two keys that come back expired.
   */
  lemma {:induction false} ActivatesExactly(a: Snap)
    requires Inv(a) && a.s.upstream.Some? && a.op.state != Active
    ensures CanActivate(a) <==> exists log :: BecomesActive(a, log)
  {
    hide Inv, Legal, Replay;
    if CanActivate(a) {
      var log := HopeActivates(a);
    } else {
      forall log ensures !BecomesActive(a, log) {
        if Legal(a, log) {
          StrandedForever(a, log);
        }
      }
    }
  }

  /** Losing the lock, in whatever way, is enough to strand the session. */
  lemma {:induction false} CrashStrands(a: Snap, e: LockEvent)
    requires Inv(a) && a.lock.held && a.op.finished.None? && a.s.upstream.Some? && a.op.state != Active
    requires (e == Release || e == Lose)
    ensures Legal(a, [] + [OnLock(e)]) && Stranded(Replay(a, [] + [OnLock(e)]))
  {
    hide Inv, SaveOk;
    Extend(a, [], OnLock(e));
  }

  // ---------- a refused operation ----------

  /** The pass under way heard LOC's refusal, or can still hear it, and may act on it. */
  predicate MayHear(lock: Lock, course: Course) {
    lock.held && lock.worker && course.mayRefuse && (course.heard || !course.done)
  }

  /** LOC refused; the operation is prepared, no refusal was recorded, and no pass may act on one. */
  predicate RefusalMissed(a: Snap) {
    && LocRefused(a.loc) && a.op.finished.None? && a.s.prep.Some? && a.op.state != IssuanceRefused
    && !MayHear(a.lock, a.course)
  }

  lemma MissedLock(a: Snap, e: LockEvent)
    requires Inv(a) && LockEnabled(a, e) && RefusalMissed(a)
    ensures RefusalMissed(ApplyLock(a, e))
  {
    hide Counting, AllLapsedOk, Chain, Asked, Custody, Evidence, Money, Keys, KeyUsable, GrantExpired, GoesOn,
      HasRefillToAsk, LocRefused;
  }

  lemma MissedSave(a: Snap, o: OpRow, s: Secrets, v: View)
    requires Inv(a) && SaveOk(a, o, s, v) && RefusalMissed(a) && (o.finished.Some? ==> a.course.done)
    ensures RefusalMissed(ApplySave(a, o, s, v))
  {
    hide Counting, AllLapsedOk, Chain, Asked, Custody, Money, Keys, KeepsRefill, KeepsOutcome, KeepsObserved,
      KeepsKey, OpensRow, TerminalView;
  }

  lemma RefusalStays(a: Snap, act: Action)
    requires Enabled(a, act) && LocRefused(a.loc)
    ensures LocRefused(Apply(a, act).loc)
  {
    hide Enabled, Apply, SaveOk, LockEnabled, CourseAfterSave, MoneyEnabled, StreamEnabled, BrokerEnabled,
      RunnerEnabled, ApplyBroker, ApplyRunner, ApplyMoney, Dwindles, LateCourse;
    StepTouches(a, act);
    Guards(a, act);
  }

  lemma MissedStep(a: Snap, act: Action)
    requires Inv(a) && Enabled(a, act) && RefusalMissed(a)
    ensures RefusalMissed(Apply(a, act))
  {
    hide Inv, Enabled, Apply, SaveOk, LockEnabled, ApplyLock, ApplySave, MoneyEnabled, StreamEnabled, LocEnabled,
      BrokerEnabled, RunnerEnabled, ApplyLoc, ApplyBroker, ApplyRunner, ApplyMoney, LateCourse, LocRefused;
    Guards(a, act);
    StepTouches(a, act);
    if act.OnLock? {
      MissedLock(a, act.lock);
    } else if act.Save? {
      MissedSave(a, act.o, act.s, act.v);
    } else {
      RefusalStays(a, act);
    }
  }

  lemma {:induction false} StaysMissed(a: Snap, log: seq<Action>)
    requires Inv(a) && Legal(a, log) && RefusalMissed(a)
    ensures RefusalMissed(Replay(a, log))
    decreases |log|
  {
    hide Inv, Enabled, RefusalMissed, Apply;
    if log != [] {
      var before := log[..|log| - 1];
      StaysMissed(a, before);
      RunInv(a, before);
      MissedStep(Replay(a, before), log[|log| - 1]);
    }
  }

  ghost predicate Finishes(a: Snap, log: seq<Action>) {
    Legal(a, log) && Replay(a, log).op.finished.Some?
  }

  lemma RefusedFacts(a: Snap)
    requires Inv(a) && LocRefused(a.loc)
    ensures a.s.session.None? && a.s.claim.None? && !a.res.state.Committed? && a.s.refillId.None?
    ensures a.op.finished.None? ==> a.v.mediaEnded.None?
    ensures a.s.prep.Some? ==> a.op.attempts >= 1
  {
  }

  lemma {:induction false} RefusedIsOk(c: Snap) returns (o: OpRow, v: View)
    requires Inv(c) && c.lock.held && c.lock.worker && c.course.heard && LocRefused(c.loc) && c.op.finished.None?
    requires c.res.state == Refunded && c.stream.status != Provisional && c.stream.status != Status.Live
    ensures SaveOk(c, o, c.s, v) && o.finished.Some?
  {
    hide SaveOk, Inv, Enabled, Apply, Legal, Replay, Acts, ApplyAct, Core, LateEnabled, ApplySave;
    RefusedFacts(c);
    o := c.op.(attempts := c.op.attempts + 1);
    v := c.v.(status := Failed);
    LoadSave(c, o);
    ViewSave(c, o, c.s, c.v, v);
    RefusedSave(c, o, c.s, v);
    o := o.(state := IssuanceRefused, finished := Some(0));
  }

  /** The pass that heard the refusal refunds, fails the stream row, returns and finishes. */
  lemma {:induction false} HeardFinishes(a: Snap, before: seq<Action>, b: Snap) returns (log: seq<Action>)
    requires Inv(a) && Leads(a, before, b) && b.lock.held && b.lock.worker && b.course.heard && !b.course.done
    requires LocRefused(b.loc) && b.op.finished.None? && !b.res.state.Committed?
    ensures Finishes(a, log)
  {
    hide Leads, SaveOk, Inv, Enabled, Apply;
    log := before;
    ThenMoney(a, log, b, MoneyEvent.Refund);
    log := log + [OnReservation(MoneyEvent.Refund)];
    var c := b.(res := ApplyMoney(b.res, MoneyEvent.Refund));
    ThenStream(a, log, c, Fail(0));
    log := log + [OnStream(Fail(0))];
    c := ApplyStream(c, Fail(0));
    ThenLock(a, log, c, Quit);
    log := log + [OnLock(Quit)];
    c := ApplyLock(c, Quit);
    LeadsInv(a, log, c);
    var o, v := RefusedIsOk(c);
    ThenSave(a, log, c, o, c.s, v);
    log := log + [Action.Save(o, c.s, v)];
    Arrives(a, log, ApplySave(c, o, c.s, v));
  }

  lemma {:induction false} HearsAndFinishes(a: Snap, before: seq<Action>, b: Snap) returns (log: seq<Action>)
    requires Inv(a) && Leads(a, before, b) && b.lock.held && b.lock.worker && b.course.mayRefuse && !b.course.done
    requires LocRefused(b.loc) && b.op.finished.None? && b.s.prep.Some?
    ensures Finishes(a, log)
  {
    hide Leads, Inv, SaveOk, Enabled, Apply, Legal, Replay, Acts, ApplyAct, Core, LateEnabled, ApplySave;
    LeadsInv(a, before, b);
    RefusedFacts(b);
    ThenLock(a, before, b, HearRefusal);
    log := HeardFinishes(a, before + [OnLock(HearRefusal)], ApplyLock(b, HearRefusal));
  }

  /** A recorded refusal is heard again by any later pass. */
  lemma {:induction false} RecordedFinishes(a: Snap, before: seq<Action>, b: Snap) returns (log: seq<Action>)
    requires Inv(a) && Leads(a, before, b) && LocRefused(b.loc) && b.op.finished.None? && b.s.prep.Some?
    requires b.op.state == IssuanceRefused
    ensures Finishes(a, log)
  {
    hide Leads, Inv, Legal, Replay;
    var more := TakeLock(b, true);
    var c := ApplyLock(b.(lock := FREE, course := IDLE), Acquire(true));
    Follow(a, before, b, more, c);
    log := HearsAndFinishes(a, before + more, c);
  }

  /** A pass that heard the refusal and returned at least records it. */
  lemma {:induction false} ReturnedFinishes(a: Snap) returns (log: seq<Action>)
    requires Inv(a) && LocRefused(a.loc) && a.op.finished.None? && a.s.prep.Some? && a.lock.held && a.lock.worker
    requires a.course.heard
    ensures Finishes(a, log)
  {
    hide Leads, SaveOk, Inv, Enabled, Apply;
    RefusedFacts(a);
    var o := a.op.(attempts := a.op.attempts + 1);
    LoadSave(a, o);
    RefusedSave(a, o, a.s, a.v);
    Stay(a);
    var recorded := o.(state := IssuanceRefused);
    ThenSave(a, [], a, recorded, a.s, a.v);
    log := RecordedFinishes(a, [] + [Action.Save(recorded, a.s, a.v)], ApplySave(a, recorded, a.s, a.v));
  }

  /** Before any preparation is saved, a stop cancels the operation. */
  lemma {:induction false} StopFinishes(a: Snap) returns (log: seq<Action>)
    requires Inv(a) && LocRefused(a.loc) && a.op.finished.None? && a.s.prep.None?
    ensures Finishes(a, log)
  {
    hide Leads, SaveOk, Inv;
    Stay(a);
    var b := a.(op := a.op.(stop := true));
    Then(a, [], a, RequestStop, b);
    log := [] + [RequestStop];
    var more := TakeLock(b, true);
    var c := ApplyLock(b.(lock := FREE, course := IDLE), Acquire(true));
    Follow(a, log, b, more, c);
    log := log + more;
    LeadsInv(a, log, c);
    RefusedFacts(c);
    log := CancelFinishes(a, log, c);
  }

  lemma {:induction false} CancelFinishes(a: Snap, before: seq<Action>, b: Snap) returns (log: seq<Action>)
    requires Inv(a) && Leads(a, before, b) && b.lock.held && b.lock.worker && b.lock.sawStop && !b.course.done
    requires b.op.finished.None? && b.s.prep.None? && !b.res.state.Committed?
    ensures Finishes(a, log)
  {
    hide Leads, SaveOk, Inv;
    log := before;
    ThenMoney(a, log, b, MoneyEvent.Refund);
    log := log + [OnReservation(MoneyEvent.Refund)];
    var c := b.(res := ApplyMoney(b.res, MoneyEvent.Refund));
    ThenStream(a, log, c, Cancel(0));
    log := log + [OnStream(Cancel(0))];
    c := ApplyStream(c, Cancel(0));
    ThenLock(a, log, c, Quit);
    log := log + [OnLock(Quit)];
    c := ApplyLock(c, Quit);
    LeadsInv(a, log, c);
    var o := c.op.(attempts := c.op.attempts + 1);
    LoadSave(c, o);
    CancelSave(c, o, c.s, c.v, 0);
    var last, v := o.(state := Canceled, finished := Some(0)),
        c.v.(status := Ended, closeReason := GatewayClose, mediaEnded := Some(0));
    ThenSave(a, log, c, last, c.s, v);
    log := log + [Action.Save(last, c.s, v)];
    Arrives(a, log, ApplySave(c, last, c.s, v));
  }

  /**
   * Exactly when an operation LOC refused can still finish: no preparation is saved, so that a stop cancels it; or the
   * refusal is recorded; or a pass that may act on a refusal heard it, or can still hear it. A first attempt that loses
   * LOC's reply, or dies after its refund, leaves none of these.
   */
  lemma {:induction false} RefusedFinishesExactly(a: Snap)
    requires Inv(a) && LocRefused(a.loc) && a.op.finished.None?
    ensures a.s.prep.None? || a.op.state == IssuanceRefused || MayHear(a.lock, a.course) <==>
              exists log :: Finishes(a, log)
  {
    hide Leads, Inv, Legal, Replay;
    Stay(a);
    if a.s.prep.None? {
      var log := StopFinishes(a);
    } else if a.op.state == IssuanceRefused {
      var log := RecordedFinishes(a, [], a);
    } else if MayHear(a.lock, a.course) {
      if a.course.heard {
        var log := ReturnedFinishes(a);
      } else {
        var log := HearsAndFinishes(a, [], a);
      }
    } else {
      forall log ensures !Finishes(a, log) {
        if Legal(a, log) {
          StaysMissed(a, log);
        }
      }
    }
  }
}
