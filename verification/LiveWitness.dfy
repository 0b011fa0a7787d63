/**
 * Concrete runs from submission, in the engine's own steps: how a session is stranded, how a claim comes to be saved
 * while a reconnect can still change its outcome, how a refusal is missed, what a pass without its lock still does, and
 * how an operation settles.
 */
module LiveWitness {
  import opened Basics
  import opened LiveProtocol
  import opened LiveInvariant
  import opened LiveTheorems
  import opened LiveOutcomes
  import opened LiveEndings
  import opened LiveReplays

  const GRANT := Grant(1, 2, 10, true)
  const ENDED := Claim(5, 3, 10, true, true, 60, NoReason, NoOutput, NoCode)
  const CLOSED := Closure(60, 5, 9)

  const FRESH := Course(false, true, false, false, false, false, false, false, false, false, Untried, None, None)

  /** What the broker answers when the runway is low. */
  const LOW := BrokerStatus(Running, true, 30, true, false, OtherOutput("live"), NoCode, NoReason)

  /** The course of a pass that activated the session and polled it. */
  const POLLED := FRESH.(checked := true, keys := Usable, polled := Some(LOW))

  /** A descriptor and a key that last for a while. */
  function LastingDescriptor(a: Snap): Descriptor {
    Descriptor(5, 10, true, true, a.clock + 100)
  }

  function LastingKey(a: Snap): IssuedKey {
    IssuedKey(7, a.clock + 1000)
  }

  // ---------- from submission to a stream key ----------

  /** Prepared, the answer saved. */
  function Preparation(a: Snap): Snap {
    a.(op := OpRow(Prepared, 1, false, None), s := a.s.(prep := Some(3), body := Some(3)),
       lock := Lock(true, true, false, false), course := FRESH,
           loc := a.loc.(prepareAsked := true, prepared := Granted(3)))
  }

  lemma {:induction false} Prepares(a: Snap) returns (log: seq<Action>)
    requires Initial(a)
    ensures Leads(a, log, Preparation(a))
  {
    hide Leads;
    Stay(a);
    var b := a.(lock := Lock(true, true, false, false), course := FRESH);
    ThenLock(a, [], a, Acquire(true));
    log := [] + [OnLock(Acquire(true))];
    ThenLoc(a, log, b, AskPrepare);
    log, b := log + [AtLoc(AskPrepare)], b.(loc := b.loc.(prepareAsked := true));
    ThenLoc(a, log, b, LocPrepare(3));
    log, b := log + [AtLoc(LocPrepare(3))], b.(loc := b.loc.(prepared := Granted(3)));
    var o, s := OpRow(Prepared, 1, false, None), a.s.(prep := Some(3), body := Some(3));
    ThenSave(a, log, b, o, s, b.v);
    log := log + [Action.Save(o, s, b.v)];
  }

  /** Authorized, the grant saved, the stop read. */
  function Authorization(a: Snap): Snap {
    var b := Preparation(a);
    b.(op := OpRow(Authorized, 1, false, None), s := b.s.(session := Some(GRANT)), course := FRESH.(cleared := true),
       loc := b.loc.(openAsked := {CanonicalOpen(a.cfg, 3)}, authorized := Granted(GRANT)))
  }

  lemma {:induction false} Authorizes(a: Snap) returns (log: seq<Action>)
    requires Initial(a)
    ensures Leads(Preparation(a), log, Authorization(a))
  {
    hide Leads;
    var start := Preparation(a);
    Stay(start);
    var q := CanonicalOpen(a.cfg, 3);
    ThenLoc(start, [], start, AskOpen(q));
    log := [] + [AtLoc(AskOpen(q))];
    assert {q} == start.loc.openAsked + {q};
    var b := start.(loc := start.loc.(openAsked := {q}));
    ThenLoc(start, log, b, LocOpen(GRANT));
    log, b := log + [AtLoc(LocOpen(GRANT))], b.(loc := b.loc.(authorized := Granted(GRANT)));
    var o, s := OpRow(Authorized, 1, false, None), b.s.(session := Some(GRANT));
    ThenSave(start, log, b, o, s, b.v);
    log, b := log + [Action.Save(o, s, b.v)], b.(op := o, s := s);
    ThenLock(start, log, b, RereadStop);
    log := log + [OnLock(RereadStop)];
  }

  /** The dispatch is saved, the open not yet sent. */
  function Dispatch(a: Snap): Snap {
    var b := Authorization(a);
    b.(op := OpRow(Dispatching, 1, false, None), s := b.s.(dispatched := true), course := FRESH.(marked := true))
  }

  lemma {:induction false} Dispatches(a: Snap) returns (log: seq<Action>)
    requires Initial(a)
    ensures Leads(Authorization(a), log, Dispatch(a))
  {
    hide Leads;
    var start := Authorization(a);
    Stay(start);
    var o, s := OpRow(Dispatching, 1, false, None), start.s.(dispatched := true);
    ThenSave(start, [], start, o, s, start.v);
    log := [] + [Action.Save(o, s, start.v)];
  }

  /** Admitted, the descriptor saved, the stop read again. */
  function Admission(a: Snap): Snap {
    var b := Dispatch(a);
    b.(op := OpRow(Provisioning, 1, false, None), s := b.s.(broker := Some(LastingDescriptor(a))),
       course := FRESH.(nearKey := true),
       broker := Broker(1, 0, 1, Admitted(5, 10, {10}, 0, None), {}, {}, {}))
  }

  lemma {:induction false} Admits(a: Snap) returns (log: seq<Action>)
    requires Initial(a)
    ensures Leads(Dispatch(a), log, Admission(a))
  {
    hide Leads;
    var start := Dispatch(a);
    Stay(start);
    ThenBroker(start, [], start, OfferOpen(false));
    log := [] + [AtBroker(OfferOpen(false))];
    var b := start.(broker := start.broker.(opens := 1), course := FRESH);
    ThenBroker(start, log, b, BrokerAdmit(5));
    log, b := log + [AtBroker(BrokerAdmit(5))], b.(broker := Admission(a).broker);
    var o, s := OpRow(Provisioning, 1, false, None), b.s.(broker := Some(LastingDescriptor(a)));
    ThenSave(start, log, b, o, s, b.v);
    log, b := log + [Action.Save(o, s, b.v)], b.(op := o, s := s);
    ThenLock(start, log, b, RereadStop);
    log := log + [OnLock(RereadStop)];
  }

  /** The key grant is good, and the first key's identity is saved, not yet sent. */
  function Minted(a: Snap): Snap {
    var b := Admission(a);
    b.(s := b.s.(keyRequest := Some(FirstKey)), course := FRESH.(checked := true, wantsKey := true))
  }

  lemma {:induction false} Mints(a: Snap) returns (log: seq<Action>)
    requires Initial(a)
    ensures Leads(Admission(a), log, Minted(a))
  {
    hide Leads;
    var start := Admission(a);
    Stay(start);
    ThenLock(start, [], start, CheckKey);
    log := [] + [OnLock(CheckKey)];
    var b := start.(course := FRESH.(checked := true));
    ThenSave(start, log, b, b.op, Minted(a).s, b.v);
    log := log + [Action.Save(b.op, Minted(a).s, b.v)];
  }

  /** A first key is saved. */
  function Keyed(a: Snap, key: IssuedKey): Snap {
    var b := Minted(a);
    b.(s := b.s.(upstream := Some(key.url), keyExpires := key.expires, keyRequest := None),
       course := FRESH.(checked := true, keys := Recorded(1)),
       runner := Runner({FirstKey}, map[FirstKey := key]), keysSaved := {FirstKey})
  }

  lemma {:induction false} Keys(a: Snap, key: IssuedKey) returns (log: seq<Action>)
    requires Initial(a)
    ensures Leads(Minted(a), log, Keyed(a, key))
  {
    hide Leads;
    var start := Minted(a);
    Stay(start);
    ThenRunner(start, [], start, AskKey(FirstKey));
    assert {FirstKey} == start.runner.asked + {FirstKey};
    log := [] + [AtRunner(AskKey(FirstKey))];
    var b := start.(runner := Runner({FirstKey}, map[]), course := FRESH.(checked := true));
    ThenRunner(start, log, b, RunnerIssue(FirstKey, key));
    log, b := log + [AtRunner(RunnerIssue(FirstKey, key))], b.(runner := Keyed(a, key).runner);
    var s := Keyed(a, key).s;
    ThenSave(start, log, b, b.op, s, b.v);
    log := log + [Action.Save(b.op, s, b.v)];
  }

  lemma {:induction false} ReachesDispatch(a: Snap) returns (log: seq<Action>)
    requires Initial(a)
    ensures Leads(a, log, Dispatch(a))
  {
    hide Leads, Preparation, Authorization, Dispatch;
    log := Prepares(a);
    var more := Authorizes(a);
    Follow(a, log, Preparation(a), more, Authorization(a));
    log := log + more;
    more := Dispatches(a);
    Follow(a, log, Authorization(a), more, Dispatch(a));
    log := log + more;
  }

  lemma {:induction false} ReachesMinted(a: Snap) returns (log: seq<Action>)
    requires Initial(a)
    ensures Leads(a, log, Minted(a))
  {
    hide Leads, Dispatch, Admission, Minted;
    log := ReachesDispatch(a);
    var more := Admits(a);
    Follow(a, log, Dispatch(a), more, Admission(a));
    log := log + more;
    more := Mints(a);
    Follow(a, log, Admission(a), more, Minted(a));
    log := log + more;
  }

  lemma {:induction false} ReachesKeyed(a: Snap, key: IssuedKey) returns (log: seq<Action>)
    requires Initial(a)
    ensures Leads(a, log, Keyed(a, key))
  {
    hide Leads, Minted, Keyed;
    log := ReachesMinted(a);
    var more := Keys(a, key);
    Follow(a, log, Minted(a), more, Keyed(a, key));
    log := log + more;
  }

  // ---------- stranded sessions ----------

  /** Some run of every operation strands it: the gateway dies right after the first stream key is saved. */
  lemma {:induction false} SomeRunStrands(a: Snap) returns (log: seq<Action>)
    requires Initial(a)
    ensures Legal(a, log) && Stranded(Replay(a, log)) && !Replay(a, log).op.stop
    ensures Replay(a, log).broker.admissions == 1
  {
    hide Leads, Legal, Replay;
    log := ReachesKeyed(a, LastingKey(a));
    var b := Keyed(a, LastingKey(a));
    ThenLock(a, log, b, Release);
    log := log + [OnLock(Release)];
    Arrives(a, log, ApplyLock(b, Release));
  }

  /** A second key is saved in the same pass. */
  function KeyedTwice(a: Snap, key: IssuedKey): Snap {
    var b := Keyed(a, key);
    b.(course := FRESH.(checked := true, keys := Recorded(2)),
       runner := Runner({FirstKey, RenewedKey(1)}, map[FirstKey := key, RenewedKey(1) := key]),
           keysSaved := {FirstKey, RenewedKey(1)})
  }

  lemma {:induction false} KeysAgain(a: Snap, key: IssuedKey) returns (log: seq<Action>)
    requires Initial(a) && key.expires <= a.clock + 15
    ensures Leads(Keyed(a, key), log, KeyedTwice(a, key))
  {
    hide Leads;
    var start := Keyed(a, key);
    Stay(start);
    ThenLock(start, [], start, JudgeKey);
    log := [] + [OnLock(JudgeKey)];
    var b := start.(course := start.course.(keys := Expired(1)));
    var k := RenewedKey(1);
    var s := b.s.(keyRequest := Some(k));
    ThenSave(start, log, b, b.op, s, b.v);
    log, b := log + [Action.Save(b.op, s, b.v)], b.(s := s, course := b.course.(wantsKey := true));
    ThenRunner(start, log, b, AskKey(k));
    assert {FirstKey, k} == b.runner.asked + {k};
    log, b := log + [AtRunner(AskKey(k))],
        b.(runner := b.runner.(asked := {FirstKey, k}), course := b.course.(wantsKey := false));
    ThenRunner(start, log, b, RunnerIssue(k, key));
    log, b := log + [AtRunner(RunnerIssue(k, key))], b.(runner := KeyedTwice(a, key).runner);
    s := KeyedTwice(a, key).s;
    ThenSave(start, log, b, b.op, s, b.v);
    log := log + [Action.Save(b.op, s, b.v)];
    assert KeyedTwice(a, key).keysSaved == b.keysSaved + {k};
  }

  /** Without any crash: two keys come back expired, and the pass that asked for them returns an error. */
  lemma {:induction false} SomeKeysExpire(a: Snap) returns (log: seq<Action>)
    requires Initial(a)
    ensures Legal(a, log) && Stranded(Replay(a, log)) && !Replay(a, log).op.stop
    ensures Replay(a, log).broker.admissions == 1
    ensures forall act :: act in log ==> act != OnLock(Lose)
    ensures Replay(a, log).op.attempts == 1 && !Replay(a, log).lock.held
  {
    hide Legal, Replay;
    var key := IssuedKey(7, a.clock + 10);
    log := KeysExpire(a, key);
    NeverLoses(a, log);
  }

  lemma {:induction false} KeysExpire(a: Snap, key: IssuedKey) returns (log: seq<Action>)
    requires Initial(a) && key.expires <= a.clock + 15
    ensures Legal(a, log) && Stranded(Replay(a, log)) && !Replay(a, log).op.stop
    ensures Replay(a, log).broker.admissions == 1
    ensures Replay(a, log).lapsed == [] && Replay(a, log).op.attempts == 1 && !Replay(a, log).lock.held
  {
    hide Leads;
    log := ReachesKeyed(a, key);
    var more := KeysAgain(a, key);
    Follow(a, log, Keyed(a, key), more, KeyedTwice(a, key));
    log := log + more;
    var b := KeyedTwice(a, key);
    ThenLock(a, log, b, JudgeKey);
    log, b := log + [OnLock(JudgeKey)], b.(course := b.course.(keys := Expired(2)));
    ThenLock(a, log, b, Quit);
    log, b := log + [OnLock(Quit)], b.(course := b.course.(done := true));
    ThenSave(a, log, b, b.op, b.s, b.v);
    log, b := log + [Action.Save(b.op, b.s, b.v)], ApplySave(b, b.op, b.s, b.v);
    ThenLock(a, log, b, Release);
    log := log + [OnLock(Release)];
    Arrives(a, log, ApplyLock(b, Release));
  }

  /** A run that ends with no pass outside the lock never lost it. */
  lemma {:induction false} NeverLoses(a: Snap, log: seq<Action>)
    requires Legal(a, log) && Replay(a, log).lapsed == []
    ensures forall act :: act in log ==> act != OnLock(Lose)
    decreases |log|
  {
    hide Enabled, Apply;
    if log != [] {
      var before := log[..|log| - 1];
      LapsedRemain(Replay(a, before), log[|log| - 1]);
      NeverLoses(a, before);
      assert log == before + [log[|log| - 1]];
    }
  }

  lemma LapsedRemain(a: Snap, act: Action)
    requires Enabled(a, act)
    ensures |Apply(a, act).lapsed| == |a.lapsed| + (if act == OnLock(Lose) then 1 else 0)
  {
    hide Enabled, Apply, SaveOk, ApplyLoc, ApplyBroker, ApplyRunner, ApplyMoney, CourseAfterSave, Dwindles, LateCourse;
    StepTouches(a, act);
  }

  // ---------- a live session ----------

  /** Active, projected, and polled once. */
  function Polling(a: Snap): Snap {
    var b := Keyed(a, LastingKey(a));
    var o, v := OpRow(Active, 1, false, None), b.v.(status := Live, playable := true);
    b.(op := o, v := v, stream := Projection(o, v), course := FRESH.(checked := true, keys := Usable, open := true))
  }

  lemma {:induction false} Polls(a: Snap) returns (log: seq<Action>)
    requires Initial(a)
    ensures Leads(Keyed(a, LastingKey(a)), log, Polling(a))
  {
    hide Leads;
    var start := Keyed(a, LastingKey(a));
    Stay(start);
    ThenLock(start, [], start, JudgeKey);
    log := [] + [OnLock(JudgeKey)];
    var b := start.(course := start.course.(keys := Usable));
    var o, v := Polling(a).op, Polling(a).v;
    ThenSave(start, log, b, o, b.s, v);
    log, b := log + [Action.Save(o, b.s, v)], ApplySave(b, o, b.s, v);
    assert b == Polling(a).(stream := b.stream);
    ThenStream(start, log, b, Project(Projection(o, v), false));
    log := log + [OnStream(Project(Projection(o, v), false))];
  }

  lemma {:induction false} ReachesPolling(a: Snap) returns (log: seq<Action>)
    requires Initial(a)
    ensures Leads(a, log, Polling(a))
  {
    hide Leads, Keyed, Polling;
    log := ReachesKeyed(a, LastingKey(a));
    var more := Polls(a);
    Follow(a, log, Keyed(a, LastingKey(a)), more, Polling(a));
    log := log + more;
  }

  /** The poll found little runway: a refill identity is saved, with the usage the poll reported, and LOC is asked. */
  function Refilling(a: Snap): Snap {
    var b := Polling(a);
    var cap := Min(a.cfg.limit, a.cfg.firstCap + a.cfg.fund);
    b.(v := b.v.(output := OtherOutput("live"), units := Some(30)), s := b.s.(refillId := Some(20), refillCap := cap),
       course := POLLED,
       loc := b.loc.(refillAsked := {RefillRequest(20, cap, Some(30))}))
  }

  lemma {:induction false} Refills(a: Snap) returns (log: seq<Action>)
    requires Initial(a) && a.cfg.firstCap < a.cfg.limit
    ensures Leads(Polling(a), log, Refilling(a))
  {
    hide Leads;
    var start, end := Polling(a), Refilling(a);
    Stay(start);
    ThenLock(start, [], start, HearStatus(LOW));
    log := [] + [OnLock(HearStatus(LOW))];
    var b := ApplyLock(start, HearStatus(LOW));
    ThenSave(start, log, b, end.op, end.s, end.v);
    log, b := log + [Action.Save(end.op, end.s, end.v)], ApplySave(b, end.op, end.s, end.v);
    var q := RefillRequest(20, end.s.refillCap, Some(30));
    ThenLoc(start, log, b, AskRefill(q));
    assert {q} == b.loc.refillAsked + {q};
    log := log + [AtLoc(AskRefill(q))];
  }

  /** Two requests under one refill id report different usage: LOC closed, and a recovery could not be projected. */
  lemma {:induction false} SomeReplaysDiffer(a: Snap) returns (log: seq<Action>)
    requires Initial(a) && a.cfg.firstCap < a.cfg.limit
    ensures Legal(a, log)
    ensures exists q, r :: q in Replay(a, log).loc.refillAsked && r in Replay(a, log).loc.refillAsked && q.id == r.id
              && q.observed != r.observed
  {
    hide Leads, Inv, Legal, Replay;
    log := ReachesPolling(a);
    var more := Refills(a);
    Follow(a, log, Polling(a), more, Refilling(a));
    log := log + more;
    Arrives(a, log, Refilling(a));
    Reachable(a, log);
    var other := DifferingRun(Refilling(a));
    Compose(a, log, other);
    log := log + other;
  }

  lemma {:induction false} DifferingRun(b: Snap) returns (other: seq<Action>)
    requires Inv(b) && PendingRefill(b, 20) && FinalUnits(b.loc, b.broker.admission).None?
    ensures Legal(b, other)
    ensures exists q, r :: q in Replay(b, other).loc.refillAsked && r in Replay(b, other).loc.refillAsked
              && q.id == r.id && q.observed != r.observed
  {
    hide Inv, Replay, Legal;
    other := UnitsDiffer(b, 20);
    RunInv(b, other);
    SameCaps(Replay(b, other), 20);
  }

  /** The revision is saved, its delivery lost; the runner ended, and its signed claim is saved. */
  function Evidenced(a: Snap): Snap {
    var b := Refilling(a);
    b.(s := b.s.(refill := Some(Revision(20, 11)), claim := Some(ENDED)), course := b.course.(open := true),
       loc := b.loc.(issued := [IssuedRevision(20, 11, b.s.refillCap)]),
       broker := b.broker.(topUpSent := {11}, admission := Admitted(5, 10, {10}, 0, Some(ENDED))))
  }

  lemma {:induction false} Evidences(a: Snap) returns (log: seq<Action>)
    requires Initial(a) && a.cfg.firstCap < a.cfg.limit
    ensures Leads(Refilling(a), log, Evidenced(a))
  {
    hide Leads;
    var start, end := Refilling(a), Evidenced(a);
    Stay(start);
    var q := RefillRequest(20, start.s.refillCap, Some(30));
    ThenLoc(start, [], start, LocRevise(q, 11));
    log := [] + [AtLoc(LocRevise(q, 11))];
    assert end.loc.issued == start.loc.issued + [IssuedRevision(20, 11, start.s.refillCap)];
    var b := start.(loc := end.loc);
    var s := b.s.(refill := Some(Revision(20, 11)));
    ThenSave(start, log, b, b.op, s, b.v);
    log, b := log + [Action.Save(b.op, s, b.v)], b.(s := s);
    ThenBroker(start, log, b, OfferTopUp(11));
    assert {11} == b.broker.topUpSent + {11};
    log, b := log + [AtBroker(OfferTopUp(11))], b.(broker := b.broker.(topUpSent := {11}));
    ThenBroker(start, log, b, BrokerTerminate(ENDED));
    log, b := log + [AtBroker(BrokerTerminate(ENDED))], b.(broker := end.broker);
    ThenSave(start, log, b, b.op, end.s, b.v);
    log := log + [Action.Save(b.op, end.s, b.v)];
  }

  lemma {:induction false} ReachesEvidence(a: Snap) returns (log: seq<Action>)
    requires Initial(a) && a.cfg.firstCap < a.cfg.limit
    ensures Leads(a, log, Evidenced(a))
  {
    hide Leads, Polling, Refilling, Evidenced;
    log := ReachesPolling(a);
    var more := Refills(a);
    Follow(a, log, Polling(a), more, Refilling(a));
    log := log + more;
    more := Evidences(a);
    Follow(a, log, Refilling(a), more, Evidenced(a));
    log := log + more;
  }

  /** Some run saves its claim undetermined: two continuations end differently. */
  lemma {:induction false} SomeRunDiverges(a: Snap) returns (log: seq<Action>, other: seq<Action>)
    requires Initial(a) && a.cfg.firstCap < a.cfg.limit
    ensures Legal(a, log) && Replay(a, log).s.claim == Some(ENDED)
    ensures !Determined(Replay(a, log)) && !SameOutcome(Replay(a, log), other)
  {
    hide Leads, Inv, Legal, Replay;
    log := ReachesEvidence(a);
    Arrives(a, log, Evidenced(a));
    Reachable(a, log);
    other := Divergence(Evidenced(a));
  }

  /** The media end is recorded, LOC has closed on the claim, and every row follows; the pass has returned. */
  function Settling(a: Snap): Snap {
    var b := Evidenced(a);
    var v := TerminalView(b.s, b.v, 60).(mediaEnded := Some(8));
    var o := OpRow(BrokerSettled, 1, false, Some(9));
    b.(op := OpRow(AccountingPending, 1, false, None), v := v,
       course := POLLED.(done := true),
       loc := b.loc.(closeAsked := true, closed := Some(CLOSED)), res := Reservation(Committed(Some(60)), Some(5)),
           stream := Projection(o, v))
  }

  lemma {:induction false} Observes(a: Snap) returns (log: seq<Action>)
    requires Initial(a) && a.cfg.firstCap < a.cfg.limit
    ensures var end := Settling(a);
            Leads(Evidenced(a), log,
                  Evidenced(a).(op := end.op, v := end.v, course := POLLED,
                                stream := Projection(end.op, end.v)))
  {
    hide Leads;
    var start, end := Evidenced(a), Settling(a);
    Stay(start);
    var row := Projection(end.op, end.v);
    ThenStream(start, [], start, Project(row, true));
    log := [] + [OnStream(Project(row, true))];
    var b := ApplyStream(start, Project(row, true));
    ThenSave(start, log, b, end.op, b.s, end.v);
    log := log + [Action.Save(end.op, b.s, end.v)];
  }

  lemma {:induction false} Settles(a: Snap) returns (log: seq<Action>)
    requires Initial(a) && a.cfg.firstCap < a.cfg.limit
    ensures Leads(Evidenced(a), log, Settling(a))
  {
    hide Leads;
    var start, end := Evidenced(a), Settling(a);
    log := Observes(a);
    var b := start.(op := end.op, v := end.v, course := POLLED, stream := Projection(end.op, end.v));
    ThenLoc(start, log, b, AskClose);
    log, b := log + [AtLoc(AskClose)], b.(loc := b.loc.(closeAsked := true));
    ThenLoc(start, log, b, LocClose(CLOSED));
    log, b := log + [AtLoc(LocClose(CLOSED))], b.(loc := end.loc);
    ThenMoney(start, log, b, MoneyEvent.MarkSettled(5));
    log, b := log + [OnReservation(MoneyEvent.MarkSettled(5))], b.(res := b.res.(billed := Some(5)));
    ThenStream(start, log, b, Project(end.stream, false));
    log, b := log + [OnStream(Project(end.stream, false))], b.(stream := end.stream);
    ThenMoney(start, log, b, MoneyEvent.Commit(Some(60)));
    log, b := log + [OnReservation(MoneyEvent.Commit(Some(60)))], b.(res := end.res);
    ThenLock(start, log, b, Quit);
    log := log + [OnLock(Quit)];
  }

  /** Some run finishes on the broker's settlement: the discipline the proofs impose can be met to the end. */
  lemma {:induction false} SomeRunSettles(a: Snap) returns (log: seq<Action>)
    requires Initial(a) && a.cfg.firstCap < a.cfg.limit
    ensures Legal(a, log)
    ensures var b := Replay(a, log);
            b.op.finished.Some? && b.op.state == BrokerSettled && b.res == Reservation(Committed(Some(60)), Some(5))
                && !b.strayed
  {
    hide Leads, Settling, SaveOk, Enabled, Apply;
    log := ReachesEvidence(a);
    var more := Settles(a);
    Follow(a, log, Evidenced(a), more, Settling(a));
    log := log + more;
    var end := Settling(a);
    var o := OpRow(BrokerSettled, 1, false, Some(9));
    FinishEnabled(a, o);
    ThenSave(a, log, end, o, end.s, end.v);
    log := log + [Action.Save(o, end.s, end.v)];
    Arrives(a, log, ApplySave(end, o, end.s, end.v));
  }

  lemma FinishEnabled(a: Snap, o: OpRow)
    requires Initial(a) && a.cfg.firstCap < a.cfg.limit && o == OpRow(BrokerSettled, 1, false, Some(9))
    ensures var end := Settling(a);
            && SaveOk(end, o, end.s, end.v) && end.course.done && end.res == Reservation(Committed(Some(60)), Some(5))
            && !end.strayed
  {
  }

  // ---------- what a pass without its lock still does ----------

  /** The poll's pass lost its lock; LOC has closed, and another pass recovers from LOC's record. */
  function Recovering(a: Snap): Snap {
    var p := Polling(a);
    var v := TerminalView(p.s, p.v, 60);
    p.(lock := Lock(true, true, false, true),
       course := IDLE.(open := true),
       lapsed := [Lapsed(p.op, p.s, p.v, p.lock, p.course)], v := p.v,
       broker := p.broker.(admission := Admitted(5, 10, {10}, 0, Some(ENDED))), loc := p.loc.(closed := Some(CLOSED)),
       res := Reservation(Committed(Some(60)), Some(5)), stream := Projection(OpRow(LocSettled, 2, false, Some(9)), v))
  }

  lemma {:induction false} Relocks(a: Snap) returns (log: seq<Action>)
    requires Initial(a)
    ensures var p := Polling(a);
            Leads(p, log, p.(lock := Lock(true, true, false, true),
                             lapsed := [Lapsed(p.op, p.s, p.v, p.lock, p.course)],
                             course := IDLE.(done := false, open := true)))
  {
    hide Leads;
    var p := Polling(a);
    Stay(p);
    ThenLock(p, [], p, Lose);
    log := [] + [OnLock(Lose)];
    var b := ApplyLock(p, Lose);
    assert b.lapsed == [Lapsed(p.op, p.s, p.v, p.lock, p.course)];
    ThenLock(p, log, b, Acquire(true));
    log, b := log + [OnLock(Acquire(true))], ApplyLock(b, Acquire(true));
    ThenLock(p, log, b, RereadStop);
    log := log + [OnLock(RereadStop)];
  }

  lemma {:induction false} Recovers(a: Snap) returns (log: seq<Action>)
    requires Initial(a)
    ensures Leads(Polling(a), log, Recovering(a))
  {
    hide Leads;
    var p, end := Polling(a), Recovering(a);
    log := Relocks(a);
    var b := p.(lock := end.lock, lapsed := end.lapsed, course := end.course.(done := false));
    ThenStream(p, log, b, Project(p.stream, false));
    log := log + [OnStream(Project(p.stream, false))];
    ThenBroker(p, log, b, BrokerTerminate(ENDED));
    log, b := log + [AtBroker(BrokerTerminate(ENDED))], b.(broker := end.broker);
    ThenLoc(p, log, b, LocClose(CLOSED));
    log, b := log + [AtLoc(LocClose(CLOSED))], b.(loc := end.loc);
    ThenMoney(p, log, b, MoneyEvent.MarkSettled(5));
    log, b := log + [OnReservation(MoneyEvent.MarkSettled(5))], b.(res := b.res.(billed := Some(5)));
    ThenStream(p, log, b, Project(end.stream, false));
    log, b := log + [OnStream(Project(end.stream, false))], b.(stream := end.stream);
    ThenMoney(p, log, b, MoneyEvent.Commit(Some(60)));
    log, b := log + [OnReservation(MoneyEvent.Commit(Some(60)))], b.(res := end.res);
    ThenLock(p, log, b, Quit);
    log := log + [OnLock(Quit)];
  }

  /**
   * A settled operation's product row is set back to live: the first pass's connection dies during a poll, another pass
   * recovers and finishes, and the first pass's projection arrives last.
   */
  lemma {:induction false} SomeRunReopens(a: Snap) returns (log: seq<Action>)
    requires Initial(a)
    ensures Legal(a, log)
    ensures var b := Replay(a, log);
            b.op.finished.Some? && b.op.state == LocSettled && b.stream.status == Status.Live && b.stream.ended.None?
                && b.stream.locClosed.None?
  {
    hide Leads, SaveOk, Enabled, Apply;
    log := ReachesPolling(a);
    var more := Recovers(a);
    Follow(a, log, Polling(a), more, Recovering(a));
    log := log + more;
    var b := Recovering(a);
    var o, v := OpRow(LocSettled, 2, false, Some(9)), TerminalView(b.s, b.v, 60);
    RecoveryEnabled(a, o, v);
    ThenSave(a, log, b, o, b.s, v);
    log := log + [Action.Save(o, b.s, v)];
    ReopensLast(a, log, ApplySave(b, o, b.s, v));
    log := log + [Late(0, OnStream(Project(Projection(OpRow(Active, 1, false, None), b.v), true)))];
  }

  lemma RecoveryEnabled(a: Snap, o: OpRow, v: View)
    requires Initial(a) && o == OpRow(LocSettled, 2, false, Some(9))
    requires v == TerminalView(Recovering(a).s, Recovering(a).v, 60)
    ensures SaveOk(Recovering(a), o, Recovering(a).s, v) && Recovering(a).course.done
  {
  }

  lemma {:induction false} ReopensLast(a: Snap, log: seq<Action>, b: Snap)
    requires Initial(a) && Leads(a, log, b) && b.op.finished.Some? && b.op.state == LocSettled
    requires b.lapsed == Recovering(a).lapsed
    ensures var more := log + [Late(0,
                                    OnStream(Project(Projection(OpRow(Active, 1, false, None), Recovering(a).v),
                                                     true)))];
            && Legal(a, more)
            && var c := Replay(a, more);
               c.op == b.op && c.stream.status == Status.Live && c.stream.ended.None? && c.stream.locClosed.None?
  {
    hide Leads, SaveOk;
    var late := Late(0, OnStream(Project(Projection(OpRow(Active, 1, false, None), Recovering(a).v), true)));
    Then(a, log, b, late, Apply(b, late));
    Arrives(a, log + [late], Apply(b, late));
  }

  /**
   * An open is sent after a stop was seen: the first pass saves its dispatch and loses its connection, the customer
   * stops, the next pass sees the stop, and the first pass sends the open.
   */
  lemma {:induction false} SomeRunOpensAfterStop(a: Snap) returns (log: seq<Action>, seen: seq<Action>)
    requires Initial(a)
    ensures seen <= log && Legal(a, seen) && StopSeen(Replay(a, seen)) && !OpenSent(Replay(a, seen).broker)
    ensures Legal(a, log) && OpenSent(Replay(a, log).broker)
  {
    hide Leads, SaveOk;
    log := ReachesDispatch(a);
    var b := Dispatch(a);
    ThenLock(a, log, b, Lose);
    log, b := log + [OnLock(Lose)], ApplyLock(b, Lose);
    Then(a, log, b, RequestStop, b.(op := b.op.(stop := true)));
    log, b := log + [RequestStop], b.(op := b.op.(stop := true));
    ThenLock(a, log, b, Acquire(true));
    log, b := log + [OnLock(Acquire(true))], ApplyLock(b, Acquire(true));
    Arrives(a, log, b);
    seen := log;
    var late := Late(0, AtBroker(OfferOpen(false)));
    Then(a, log, b, late, Apply(b, late));
    log := log + [late];
    Arrives(a, log, Apply(b, late));
  }

  /** A pass lost its lock before it sent the key request; the next one saw a stop and saved that it ends. */
  function Closing(p: Snap): Snap {
    p.(op := OpRow(Ending, 2, true, None), s := p.s.(endReason := GatewayClose),
       v := p.v.(status := Status.Closing, closeReason := GatewayClose), lock := Lock(true, true, true, false),
       course := IDLE.(done := false), lapsed := [Lapsed(p.op, p.s, p.v, p.lock, p.course)])
  }

  lemma {:induction false} Closes(a: Snap, p: Snap) returns (log: seq<Action>)
    requires Initial(a) && (p == Minted(a) || p == Found(a))
    ensures Leads(p, log, Closing(p))
  {
    hide Leads;
    var end := Closing(p);
    Stay(p);
    ThenLock(p, [], p, Lose);
    log := [] + [OnLock(Lose)];
    var b := ApplyLock(p, Lose);
    assert b.lapsed == end.lapsed;
    Then(p, log, b, RequestStop, b.(op := b.op.(stop := true)));
    log, b := log + [RequestStop], b.(op := b.op.(stop := true));
    ThenLock(p, log, b, Acquire(true));
    log, b := log + [OnLock(Acquire(true))], ApplyLock(b, Acquire(true));
    ThenLock(p, log, b, RereadStop);
    log, b := log + [OnLock(RereadStop)], ApplyLock(b, RereadStop);
    ThenSave(p, log, b, end.op, end.s, end.v);
    log := log + [Action.Save(end.op, end.s, end.v)];
  }

  /** A control pass asks the runner for the first stream key after an end reason is saved. */
  lemma {:induction false} SomeRunAsksAfterEnd(a: Snap) returns (log: seq<Action>, ended: seq<Action>)
    requires Initial(a)
    ensures ended <= log && Legal(a, ended) && Replay(a, ended).s.endReason == GatewayClose
    ensures Replay(a, ended).runner.asked == {}
    ensures Legal(a, log) && Replay(a, log).runner.asked == {FirstKey} && Replay(a, log).s.endReason == GatewayClose
  {
    hide Leads, SaveOk;
    log := ReachesMinted(a);
    var more := Closes(a, Minted(a));
    Follow(a, log, Minted(a), more, Closing(Minted(a)));
    log := log + more;
    var b := Closing(Minted(a));
    Arrives(a, log, b);
    ended := log;
    var late := Late(0, AtRunner(AskKey(FirstKey)));
    Then(a, log, b, late, Apply(b, late));
    log := log + [late];
    assert {FirstKey} == b.runner.asked + {FirstKey};
    Arrives(a, log, Apply(b, late));
  }

  /** The gateway dies before it sends the key request; the next pass finds the identity, and has read the stop. */
  function Found(a: Snap): Snap {
    Minted(a).(lock := Lock(true, true, false, false), course := IDLE.(done := false, nearKey := true))
  }

  lemma {:induction false} Finds(a: Snap) returns (log: seq<Action>)
    requires Initial(a)
    ensures Leads(Minted(a), log, Found(a))
  {
    hide Leads;
    var p := Minted(a);
    Stay(p);
    ThenLock(p, [], p, Release);
    log := [] + [OnLock(Release)];
    var b := ApplyLock(p, Release);
    ThenLock(p, log, b, Acquire(true));
    log, b := log + [OnLock(Acquire(true))], ApplyLock(b, Acquire(true));
    ThenLock(p, log, b, RereadStop);
    log := log + [OnLock(RereadStop)];
  }

  lemma {:induction false} ReachesFoundEnd(a: Snap) returns (log: seq<Action>)
    requires Initial(a)
    ensures Leads(a, log, Closing(Found(a)))
  {
    hide Leads, Minted, Found, Closing;
    log := ReachesMinted(a);
    var more := Finds(a);
    Follow(a, log, Minted(a), more, Found(a));
    log := log + more;
    more := Closes(a, Found(a));
    Follow(a, log, Found(a), more, Closing(Found(a)));
    log := log + more;
  }

  /**
   * So does one that found the identity of an earlier pass outstanding and lost its lock before it looked at its key
   * grant.
   */
  lemma {:induction false} SomeFoundKeyIsAsked(a: Snap) returns (log: seq<Action>, ended: seq<Action>)
    requires Initial(a)
    ensures ended <= log && Legal(a, ended) && Replay(a, ended).s.endReason == GatewayClose
    ensures Replay(a, ended).runner.asked == {}
    ensures forall p :: p in Replay(a, ended).lapsed ==> !p.course.checked && !p.course.wantsKey
    ensures Legal(a, log) && Replay(a, log).runner.asked == {FirstKey} && Replay(a, log).s.endReason == GatewayClose
  {
    hide Leads, Enabled, Apply, Closing, Found;
    log := ReachesFoundEnd(a);
    var b := Closing(Found(a));
    Arrives(a, log, b);
    ended := log;
    var check, ask := Late(0, OnLock(CheckKey)), Late(0, AtRunner(AskKey(FirstKey)));
    FoundGoesOn(a, b, check, ask);
    Then(a, log, b, check, Apply(b, check));
    log, b := log + [check], Apply(b, check);
    Then(a, log, b, ask, Apply(b, ask));
    log := log + [ask];
    Arrives(a, log, Apply(b, ask));
  }

  lemma FoundGoesOn(a: Snap, b: Snap, check: Action, ask: Action)
    requires Initial(a) && b == Closing(Found(a))
    requires check == Late(0, OnLock(CheckKey)) && ask == Late(0, AtRunner(AskKey(FirstKey)))
    ensures b.s.endReason == GatewayClose && b.runner.asked == {}
    ensures forall p :: p in b.lapsed ==> !p.course.checked && !p.course.wantsKey
    ensures Enabled(b, check) && Enabled(Apply(b, check), ask)
    ensures var c := Apply(Apply(b, check), ask); c.s == b.s && c.runner.asked == {FirstKey}
  {
    hide SaveOk, MoneyEnabled, StreamEnabled, LocEnabled, BrokerEnabled, AfterLoc, AfterBroker, ApplyStream, ApplyMoney;
    assert b.runner.asked + {FirstKey} == {FirstKey};
  }

  // ---------- a refusal that is missed ----------

  /** LOC has refused the operation's request. */
  function Refusal(a: Snap): Snap {
    var b := Preparation(a);
    b.(loc := b.loc.(openAsked := {CanonicalOpen(a.cfg, 3)}, authorized := Refused(403)))
  }

  lemma {:induction false} Refuses(a: Snap) returns (log: seq<Action>)
    requires Initial(a)
    ensures Leads(a, log, Refusal(a))
  {
    hide Leads;
    log := Prepares(a);
    var b := Preparation(a);
    var q := CanonicalOpen(a.cfg, 3);
    ThenLoc(a, log, b, AskOpen(q));
    assert {q} == b.loc.openAsked + {q};
    log, b := log + [AtLoc(AskOpen(q))], b.(loc := b.loc.(openAsked := {q}));
    ThenLoc(a, log, b, LocRefuseOpen(403));
    log := log + [AtLoc(LocRefuseOpen(403))];
  }

  /** The gateway dies after the refund; no later pass finishes the operation. */
  lemma {:induction false} SomeRefundIsStranded(a: Snap) returns (log: seq<Action>)
    requires Initial(a)
    ensures Legal(a, log) && RefusalMissed(Replay(a, log)) && Replay(a, log).res.state == Refunded
    ensures !Replay(a, log).lock.held
  {
    hide Leads, Legal, Replay;
    log := Refuses(a);
    var b := Refusal(a);
    ThenLock(a, log, b, HearRefusal);
    log, b := log + [OnLock(HearRefusal)], b.(course := b.course.(heard := true));
    ThenMoney(a, log, b, MoneyEvent.Refund);
    log, b := log + [OnReservation(MoneyEvent.Refund)], b.(res := b.res.(state := Refunded));
    ThenLock(a, log, b, Release);
    log := log + [OnLock(Release)];
    Arrives(a, log, ApplyLock(b, Release));
  }

  /** LOC's reply is lost; the pass returns, and no later pass refunds. */
  lemma {:induction false} SomeRefusalIsUnheard(a: Snap) returns (log: seq<Action>)
    requires Initial(a)
    ensures Legal(a, log) && RefusalMissed(Replay(a, log)) && Replay(a, log).res.state.Open?
    ensures !Replay(a, log).lock.held
  {
    hide Leads, Enabled, Apply;
    log := Refuses(a);
    var b := Refusal(a);
    ThenLock(a, log, b, Quit);
    log, b := log + [OnLock(Quit)], b.(course := b.course.(done := true));
    ThenSave(a, log, b, b.op, b.s, b.v);
    log, b := log + [Action.Save(b.op, b.s, b.v)], ApplySave(b, b.op, b.s, b.v);
    ThenLock(a, log, b, Release);
    log := log + [OnLock(Release)];
    Arrives(a, log, ApplyLock(b, Release));
  }
}
