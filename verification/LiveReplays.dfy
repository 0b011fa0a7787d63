/** When all requests under one refill id are the same request: exactly, over all continuations of a pending refill. */
module LiveReplays {
  import opened Basics
  import opened LiveProtocol
  import opened LiveInvariant
  import opened LiveSaves
  import opened LiveTheorems

  /** The units LOC closes with, once they are known. */
  function FinalUnits(loc: Loc, admission: Admission): Option<int> {
    if loc.closed.Some? then Some(loc.closed.value.units)
    else if admission.Admitted? && admission.terminal.Some? then Some(admission.terminal.value.units)
    else None
  }

  /** A pass that lost its lock on its way to a refill request. */
  predicate MayAsk(p: Lapsed, id: Id) {
    && p.lock.held && p.lock.worker && !p.course.done && p.course.asks
    && p.s.refillId == Some(id) && p.s.refill.None?
  }

  /** Whoever asked, asks or may ask under the id reports the units LOC closes with. */
  ghost predicate Agreed(a: Snap, id: Id, units: int) {
    && FinalUnits(a.loc, a.broker.admission) == Some(units)
    && (forall q :: q in a.loc.refillAsked && q.id == id ==> q.observed == Some(units))
    && (if a.s.refillId == Some(id) then a.s.refill.None? ==> a.v.units == Some(units)
        else RefillSeen(a.loc.refillAsked, id))
    && (forall i :: 0 <= i < |a.lapsed| && MayAsk(a.lapsed[i], id) ==> a.lapsed[i].v.units == Some(units))
  }

  lemma FinalLoc(a: Snap, e: LocEvent)
    requires LocEnabled(a, e)
    ensures var f := FinalUnits(a.loc, a.broker.admission);
              f.Some? ==> FinalUnits(ApplyLoc(a.loc, e), a.broker.admission) == f
  {
  }

  lemma FinalBroker(a: Snap, e: BrokerEvent)
    requires BrokerEnabled(a, e)
    ensures var f := FinalUnits(a.loc, a.broker.admission);
              f.Some? ==> FinalUnits(a.loc, ApplyBroker(a, e).admission) == f
  {
  }

  lemma FinalStep(a: Snap, act: Action)
    requires Enabled(a, act)
    ensures var f := FinalUnits(a.loc, a.broker.admission);
            f.Some? ==> FinalUnits(Apply(a, act).loc, Apply(a, act).broker.admission) == f
  {
    hide Enabled, Apply, SaveOk, LockEnabled, ApplyLock, MoneyEnabled, StreamEnabled, LocEnabled, BrokerEnabled,
      RunnerEnabled, ApplyLoc, ApplyBroker, ApplyRunner, ApplyMoney, Dwindles, LateCourse;
    StepTouches(a, act);
    Guards(a, act);
    if act.AtLoc? {
      FinalLoc(a, act.loc);
    } else if act.AtBroker? {
      FinalBroker(a, act.broker);
    }
  }

  lemma AgreedSave(a: Snap, o: OpRow, s: Secrets, v: View, id: Id, units: int)
    requires Inv(a) && SaveOk(a, o, s, v) && Agreed(a, id, units)
    ensures Agreed(ApplySave(a, o, s, v), id, units)
  {
    RetiredSeen(a, s, id);
    ObservedKept(a, o, s, v);
    hide Inv, SaveOk;
  }

  lemma ObservedKept(a: Snap, o: OpRow, s: Secrets, v: View)
    requires SaveOk(a, o, s, v)
    ensures a.s.refillId.Some? && s.refillId == a.s.refillId && s.refill.None? ==>
              a.s.refill.None? && (v.units == a.v.units
                                   || (a.loc.closed.Some? && v.units == Some(a.loc.closed.value.units)))
  {
    hide KeepsPreparation, KeepsSession, KeepsBroker, KeepsKey, KeepsState, KeepsOutcome, FinishOk, KeepsClaim;
  }

  lemma RetiredSeen(a: Snap, s: Secrets, id: Id)
    requires Inv(a) && KeepsRefill(a, s)
    ensures a.s.refillId == Some(id) && s.refillId != Some(id) ==> RefillSeen(a.loc.refillAsked, id)
    ensures a.s.refillId != Some(id) && RefillSeen(a.loc.refillAsked, id) ==> s.refillId != Some(id)
  {
    hide Identity, Custody, Evidence, Money, Ends, Keys, Standing, Finished, AllLapsedOk, Counting;
    if a.s.refillId == Some(id) && RefillAdopted(a, s) {
      assert a.loc.issued[|a.loc.issued| - 1].id == id;
    }
  }

  lemma AskingAct(a: Snap, act: Action)
    requires Acts(a, act) && act.AtLoc?
    ensures ApplyLoc(a.loc, act.loc).refillAsked == if act.loc.AskRefill? then a.loc.refillAsked + {act.loc.refill}
              else a.loc.refillAsked
    ensures act.loc.AskRefill? ==>
              a.s.refillId == Some(act.loc.refill.id) && a.s.refill.None? && act.loc.refill.observed == a.v.units
  {
    hide LockEnabled, MoneyEnabled, StreamEnabled, BrokerEnabled, RunnerEnabled;
  }

  lemma AgreedAct(a: Snap, act: Action, id: Id, units: int)
    requires Acts(a, act) && Agreed(a, id, units)
    requires FinalUnits(ApplyAct(a, act).loc, ApplyAct(a, act).broker.admission) == Some(units)
    ensures Agreed(ApplyAct(a, act), id, units)
  {
    hide Acts, ApplyAct, FinalUnits, ApplyLoc, ApplyBroker, ApplyRunner, ApplyMoney, Dwindles;
    ActTouches(a, act);
    if act.AtLoc? {
      AskingAct(a, act);
    }
    var b := ApplyAct(a, act);
    if RefillSeen(a.loc.refillAsked, id) {
      var q :| q in a.loc.refillAsked && q.id == id;
      assert q in b.loc.refillAsked;
    }
  }

  lemma AgreedLate(a: Snap, i: nat, act: Action, id: Id, units: int)
    requires LateEnabled(a, i, act) && Agreed(a, id, units)
    requires FinalUnits(ApplyLate(a, i, act).loc, ApplyLate(a, i, act).broker.admission) == Some(units)
    ensures Agreed(ApplyLate(a, i, act), id, units)
  {
    hide LateEnabled, ApplyLate, FinalUnits, ApplyMoney;
    LateAsker(a, i, act);
    LateTouches(a, i, act);
    var b := ApplyLate(a, i, act);
    if RefillSeen(a.loc.refillAsked, id) {
      var q :| q in a.loc.refillAsked && q.id == id;
      assert q in b.loc.refillAsked;
    }
    forall j | 0 <= j < |b.lapsed| && MayAsk(b.lapsed[j], id) ensures b.lapsed[j].v.units == Some(units) {
      assert MayAsk(a.lapsed[j], id);
    }
  }

  lemma LateAsker(a: Snap, i: nat, act: Action)
    requires LateEnabled(a, i, act)
    ensures act.AtLoc? && act.loc.AskRefill? ==> i < |a.lapsed| && MayAsk(a.lapsed[i], act.loc.refill.id)
  {
    hide MoneyEnabled, StreamEnabled, BrokerEnabled, RunnerEnabled, LockEnabled;
  }

  lemma AgreedStep(a: Snap, act: Action, id: Id, units: int)
    requires Inv(a) && Enabled(a, act) && Agreed(a, id, units)
    ensures Agreed(Apply(a, act), id, units)
  {
    hide Inv, SaveOk, ApplySave, LateEnabled, ApplyLate, Acts, ApplyAct, Agreed, FinalUnits;
    FinalStep(a, act);
    FinalAgreed(a, id, units);
    if act.Late? {
      AgreedLate(a, act.i, act.late, id, units);
    } else if act.Save? {
      AgreedSave(a, act.o, act.s, act.v, id, units);
    } else {
      AgreedAct(a, act, id, units);
    }
  }

  lemma FinalAgreed(a: Snap, id: Id, units: int)
    requires Agreed(a, id, units)
    ensures FinalUnits(a.loc, a.broker.admission) == Some(units)
  {
  }

  lemma {:induction false} StaysAgreed(a: Snap, log: seq<Action>, id: Id, units: int)
    requires Inv(a) && Legal(a, log) && Agreed(a, id, units)
    ensures Agreed(Replay(a, log), id, units)
    decreases |log|
  {
    hide Inv, Enabled, Agreed, Apply;
    if log != [] {
      var before := log[..|log| - 1];
      StaysAgreed(a, before, id, units);
      RunInv(a, before);
      AgreedStep(Replay(a, before), log[|log| - 1], id, units);
    }
  }

  /** All requests under the id, in the state this run leads to, report the same usage. */
  ghost predicate OneRequest(a: Snap, log: seq<Action>, id: Id) {
    Legal(a, log) ==>
      var asked := Replay(a, log).loc.refillAsked;
      forall q, r :: q in asked && r in asked && q.id == id && r.id == id ==> q == r
  }

  // ---------- how they come to differ ----------

  /** A refill is pending and its revision is not saved. */
  predicate PendingRefill(a: Snap, id: Id) {
    a.s.refillId == Some(id) && a.s.refill.None? && a.op.finished.None?
  }

  lemma PendingFactsOf(a: Snap, id: Id)
    requires Inv(a) && PendingRefill(a, id)
    ensures HasRefillToAsk(a.s) && a.s.session.Some? && a.s.prep.Some? && a.broker.admission.Admitted?
    ensures a.loc.authorized.Granted?
    ensures a.v.mediaEnded.Some? ==> a.s.endReason != NoReason
  {
  }

  /** The next pass, once it has reread the stop. */
  function NextPass(b: Snap): Snap
    requires b.op.finished.None?
  {
    ApplyLock(ApplyLock(b.(lock := FREE, course := IDLE), Acquire(true)), RereadStop)
  }

  lemma NextPassFacts(b: Snap)
    requires b.op.finished.None?
    ensures var c := NextPass(b);
            && c == b.(lock := c.lock, course := c.course) && c.lock.held && c.lock.worker && !c.course.done
            && (c.course.asks <==> HasRefillToAsk(b.s))
  {
    hide GoesOn, HasRefillToAsk;
  }

  lemma {:induction false} NextPassRereads(a: Snap, before: seq<Action>, b: Snap) returns (log: seq<Action>)
    requires Leads(a, before, b) && b.op.finished.None?
    ensures Leads(a, log, NextPass(b))
  {
    hide Leads;
    var more := TakeLock(b, true);
    var c := ApplyLock(b.(lock := FREE, course := IDLE), Acquire(true));
    Follow(a, before, b, more, c);
    log := before + more;
    ThenLock(a, log, c, RereadStop);
    log := log + [OnLock(RereadStop)];
  }

  /** The next pass rereads the stop and asks LOC. */
  lemma {:induction false} NextPassAsks(a: Snap, before: seq<Action>, b: Snap,
                                        id: Id) returns (log: seq<Action>, c: Snap)
    requires Inv(a) && Leads(a, before, b) && PendingRefill(b, id)
    ensures Leads(a, log, c) && PendingRefill(c, id) && c.s == b.s && c.v == b.v && c.lapsed == b.lapsed
    ensures c.broker == b.broker
    ensures c.lock.held && c.lock.worker && !c.course.done && c.op == b.op && c.res == b.res
    ensures c.loc == b.loc.(refillAsked := b.loc.refillAsked + {RefillRequest(id, b.s.refillCap, b.v.units)})
  {
    hide Leads, NextPass, Inv, SaveOk, Enabled, Apply, Legal, Replay, Acts, ApplyAct, Core, LateEnabled, ApplySave;
    LeadsInv(a, before, b);
    PendingFactsOf(b, id);
    log := NextPassRereads(a, before, b);
    NextPassFacts(b);
    c := NextPass(b);
    var q := RefillRequest(id, b.s.refillCap, b.v.units);
    ThenLoc(a, log, c, AskRefill(q));
    log := log + [AtLoc(AskRefill(q))];
    c := c.(loc := ApplyLoc(c.loc, AskRefill(q)), course := c.course.(asks := false));
  }

  /** The broker's terminal claim that shows `units`. */
  function Terminating(b: Snap, units: int): Claim
    requires b.broker.admission.Admitted? && b.s.prep.Some?
  {
    Claim(b.broker.admission.session, b.s.prep.value, b.broker.admission.active, true, true, units, NoReason, NoOutput,
          NoCode)
  }

  lemma {:induction false} Terminates(a: Snap, before: seq<Action>, b: Snap) returns (log: seq<Action>, c: Snap)
    requires Leads(a, before, b) && b.broker.admission.Admitted? && b.s.prep.Some?
    requires b.broker.admission.terminal.Some? ==>
              b.broker.admission.terminal.value.units >= 0 && Some(b.broker.admission.terminal.value.units) != b.v.units
    ensures Leads(a, log, c) && c == b.(broker := c.broker) && c.broker.admission.Admitted?
    ensures c.broker.admission.terminal.Some?
    ensures c.broker.admission.terminal.value.units >= 0 && Some(c.broker.admission.terminal.value.units) != b.v.units
  {
    hide Leads;
    log, c := before, b;
    if b.broker.admission.terminal.None? {
      var e := BrokerTerminate(Terminating(b, if b.v.units == Some(0) then 1 else 0));
      ThenBroker(a, log, c, e);
      log, c := log + [AtBroker(e)], c.(broker := ApplyBroker(c, e));
    }
  }

  lemma {:induction false} ClosesOnClaim(a: Snap, before: seq<Action>, b: Snap) returns (log: seq<Action>, c: Snap)
    requires Leads(a, before, b) && b.s.session.Some? && b.loc.authorized.Granted? && b.loc.closed.None?
    requires b.broker.admission.Admitted? && b.broker.admission.terminal.Some?
    requires b.broker.admission.terminal.value.units >= 0
    ensures Leads(a, log, c) && c == b.(loc := b.loc.(closed := c.loc.closed)) && c.loc.closed.Some?
    ensures c.loc.closed.value.units == b.broker.admission.terminal.value.units
  {
    hide Leads;
    var closure := Closure(b.broker.admission.terminal.value.units, 0, 1);
    ThenLoc(a, before, b, LocClose(closure));
    log := before + [AtLoc(LocClose(closure))];
    c := b.(loc := ApplyLoc(b.loc, LocClose(closure)));
  }

  /** LOC closes with units other than those reported, if it can. */
  lemma {:induction false} ClosesOtherwise(a: Snap, before: seq<Action>, b: Snap,
                                           id: Id) returns (log: seq<Action>, c: Snap)
    requires Inv(a) && Leads(a, before, b) && PendingRefill(b, id)
    requires FinalUnits(b.loc, b.broker.admission).None? || FinalUnits(b.loc, b.broker.admission) != b.v.units
    ensures Leads(a, log, c) && c == b.(loc := b.loc.(closed := c.loc.closed), broker := c.broker) && c.loc.closed.Some?
    ensures FinalUnits(c.loc, c.broker.admission) != b.v.units
  {
    hide Leads, BrokerEnabled, ApplyBroker, Inv, SaveOk, Enabled, Apply, Legal, Replay, Acts, ApplyAct, Core,
      LateEnabled, ApplySave;
    LeadsInv(a, before, b);
    PendingFactsOf(b, id);
    UnitsFacts(b);
    log, c := before, b;
    if b.loc.closed.None? {
      log, c := Terminates(a, before, b);
      log, c := ClosesOnClaim(a, log, c);
    }
  }

  lemma UnitsFacts(a: Snap)
    requires Inv(a)
    ensures a.broker.admission.Admitted? && a.broker.admission.terminal.Some? ==>
              a.broker.admission.terminal.value.units >= 0
  {
  }

  /** A recovery whose projection fails leaves LOC's units in the view, and the refill pending. */
  lemma {:induction false} RecoveryRewrites(a: Snap, before: seq<Action>, b: Snap,
                                            id: Id) returns (log: seq<Action>, c: Snap)
    requires Inv(a) && Leads(a, before, b) && PendingRefill(b, id) && b.lock.held && b.lock.worker && !b.course.done
    requires b.loc.closed.Some?
    ensures Leads(a, log, c) && PendingRefill(c, id) && c.s == b.s && c.v.units == Some(b.loc.closed.value.units)
    ensures c.loc == b.loc
  {
    hide Leads, SaveOk, Inv, OpensRow, Enabled;
    var billed := b.loc.closed.value.billed;
    ThenMoney(a, before, b, MoneyEvent.MarkSettled(billed));
    log := before + [OnReservation(MoneyEvent.MarkSettled(billed))];
    c := b.(res := ApplyMoney(b.res, MoneyEvent.MarkSettled(billed)));
    ThenLock(a, log, c, Quit);
    log, c := log + [OnLock(Quit)], ApplyLock(c, Quit);
    LeadsInv(a, log, c);
    PendingFactsOf(c, id);
    var o, v := RecoveredIsOk(c, id);
    ThenSave(a, log, c, o, c.s, v);
    log, c := log + [Action.Save(o, c.s, v)], ApplySave(c, o, c.s, v);
  }

  lemma {:induction false} RecoveredIsOk(c: Snap, id: Id) returns (o: OpRow, v: View)
    requires Inv(c) && PendingRefill(c, id) && c.lock.held && c.lock.worker && c.loc.closed.Some? && c.s.claim.None?
    ensures SaveOk(c, o, c.s, v) && o.finished.None? && v == TerminalView(c.s, c.v, c.loc.closed.value.units)
  {
    hide SaveOk, Inv;
    o := c.op.(attempts := c.op.attempts + 1);
    LoadSave(c, o);
    StateSave(c, o, c.s, c.v, AccountingPending);
    o := o.(state := AccountingPending);
    TerminalViewSave(c, o, c.s, c.v, c.loc.closed.value.units);
    v := TerminalView(c.s, c.v, c.loc.closed.value.units);
  }

  lemma {:induction false} UnitsDiffer(a: Snap, id: Id) returns (log: seq<Action>)
    requires Inv(a) && PendingRefill(a, id)
    requires FinalUnits(a.loc, a.broker.admission).None? || FinalUnits(a.loc, a.broker.admission) != a.v.units
    ensures !OneRequest(a, log, id)
  {
    hide Leads, Inv, Legal, Replay;
    Stay(a);
    var b: Snap;
    log, b := NextPassAsks(a, [], a, id);
    var q := RefillRequest(id, a.s.refillCap, a.v.units);
    log, b := ClosesOtherwise(a, log, b, id);
    log, b := RecoveryRewrites(a, log, b, id);
    var r := RefillRequest(id, b.s.refillCap, b.v.units);
    log, b := NextPassAsks(a, log, b, id);
    Shows(a, log, b);
    assert q in b.loc.refillAsked && r in b.loc.refillAsked && q != r;
  }

  lemma Shows(a: Snap, log: seq<Action>, b: Snap)
    requires Leads(a, log, b)
    ensures Legal(a, log) && Replay(a, log) == b
  {
    hide Legal, Replay;
  }

  /** A pass without the lock still asks what it knew. */
  lemma {:induction false} LateAskDiffers(a: Snap, id: Id, i: nat) returns (log: seq<Action>)
    requires Inv(a) && PendingRefill(a, id) && i < |a.lapsed| && MayAsk(a.lapsed[i], id)
    requires a.lapsed[i].v.units != a.v.units
    ensures !OneRequest(a, log, id)
  {
    hide Leads, Inv, SaveOk;
    Stay(a);
    var b: Snap;
    log, b := NextPassAsks(a, [], a, id);
    var q := RefillRequest(id, a.s.refillCap, a.v.units);
    var r := RefillRequest(id, a.lapsed[i].s.refillCap, a.lapsed[i].v.units);
    var late := Late(i, AtLoc(AskRefill(r)));
    assert Enabled(b, late) && Apply(b, late).loc.refillAsked == b.loc.refillAsked + {r};
    Then(a, log, b, late, Apply(b, late));
    log := log + [late];
    Shows(a, log, Apply(b, late));
    assert q in Apply(b, late).loc.refillAsked && r in Apply(b, late).loc.refillAsked && q != r;
  }

  lemma {:induction false} EarlierAskDiffers(a: Snap, id: Id, r: RefillRequest) returns (log: seq<Action>)
    requires Inv(a) && PendingRefill(a, id) && r in a.loc.refillAsked && r.id == id && r.observed != a.v.units
    ensures !OneRequest(a, log, id)
  {
    hide Leads, Inv, Legal, Replay;
    Stay(a);
    var b: Snap;
    log, b := NextPassAsks(a, [], a, id);
    var q := RefillRequest(id, a.s.refillCap, a.v.units);
    Shows(a, log, b);
    assert q in b.loc.refillAsked && r in b.loc.refillAsked && q != r;
  }

  lemma SameCaps(a: Snap, id: Id)
    requires Inv(a)
    ensures forall q, r :: q in a.loc.refillAsked && r in a.loc.refillAsked && q.id == id && r.id == id ==>
              q.cap == r.cap
  {
  }

  /**
   * Exactly when all requests under a pending refill id are the same, in every continuation: the units LOC closes with
   * are known, and every request sent, and every pass that may send one, reports them. Otherwise a recovery that could
   * not be projected, or a pass without its lock, makes two requests differ.
   */
  lemma {:induction false} ReplaysExactly(a: Snap, id: Id)
    requires Inv(a) && PendingRefill(a, id)
    ensures (exists units :: Agreed(a, id, units)) <==> forall log :: OneRequest(a, log, id)
  {
    hide Inv, SaveOk, Enabled, Apply, Legal, Replay, Acts, ApplyAct, Core, LateEnabled, ApplySave;
    if units :| Agreed(a, id, units) {
      forall log ensures OneRequest(a, log, id) {
        if Legal(a, log) {
          StaysAgreed(a, log, id, units);
          RunInv(a, log);
          SameCaps(Replay(a, log), id);
          hide Inv, Legal, Replay;
        }
      }
    } else {
      var final := FinalUnits(a.loc, a.broker.admission);
      var log: seq<Action>;
      if final.None? || Some(final.value) != a.v.units {
        log := UnitsDiffer(a, id);
      } else if r :| r in a.loc.refillAsked && r.id == id && r.observed != a.v.units {
        log := EarlierAskDiffers(a, id, r);
      } else {
        assert !Agreed(a, id, final.value);
        var i :| 0 <= i < |a.lapsed| && MayAsk(a.lapsed[i], id) && a.lapsed[i].v.units != a.v.units;
        log := LateAskDiffers(a, id, i);
      }
      assert !OneRequest(a, log, id);
    }
  }
}
