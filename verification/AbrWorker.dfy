/**
 * One pass of the paid engine over an ABR operation. As in `LiveWorker`, the pass mutates its copies of the operation,
 * its secrets and its view, every atomic step is an action of the run, and the peers may act between any two of them.
 */
module AbrWorker {
  import opened Basics
  import opened AbrProtocol

  datatype Reply<+T> = Got(value: T) | LocError(status: int) | Lost

  datatype Err = Fine | LocAnswer(status: int) | Trouble

  /** A 4xx answer that is not a timeout, a conflict or a rate limit. */
  predicate Definitive(status: int) {
    400 <= status < 500 && status != 408 && status != 409 && status != 429
  }

  /**
   * What LOC's error answer to the issuance request leaves: a definitive one, heard on the first attempt, finishes
   * the job; any other changes nothing.
   */
  predicate AnswerLeaves(status: int, was: OpRow, seen: View, o: OpRow, v: View) {
    if 400 <= status < 500 && status != 408 && status != 409 && status != 429 && was.attempts == 1
    then
      && o == was.(state := IssuanceRefused, finished := o.finished) && o.finished.Some?
      && v == seen.(status := Failed, failure := LocHttp(status))
    else o == was && v == seen
  }

  datatype ExchangeReply = SettledReply(claim: Claim) | PendingRejected | NoExchange

  /** LOC's view of the job; an accounting outcome is present once LOC has closed. */
  datatype JobStatus = JobStatus(job: Id, closedAt: Option<Time>, billed: Option<int>, outcome: Option<Outcome>,
                                 units: Option<int>, notAdmitted: bool)

  datatype SettleReply = SettledJob(job: Id, units: int, billed: Option<int>,
                                    closedAt: Time) | AlreadySettled | SettleFailed

  /**
   * What has gone wrong outside the pass, by kind: writes that failed or went unconfirmed; requests without an answer
   * that helps; and answers that do not fit.
   */
  datatype Setbacks = Setbacks(writes: nat, lost: nat, odd: nat)

  /** LOC's status is of this job and shows a complete closure. */
  predicate ShowsClosure(s: Secrets, st: JobStatus) {
    && s.job.Some? && st.job == s.job.value.job
    && st.closedAt.Some? && st.billed.Some? && st.outcome.Some?
  }

  /** The closure LOC shows is the broker's settlement of this claim. */
  predicate ClosesClaim(s: Secrets, st: JobStatus) {
    s.claim.Some? && st.units == Some(s.claim.value.units) && st.outcome == Some(BrokerSettlement)
  }

  /** An event the callback refuses: malformed, of another workload, or with progress out of range. */
  predicate Unusable(workload: Id, event: Event) {
    || event.Malformed? || event.workload != workload
    || (event.Progress? && (event.progress < 0.0 || event.progress > 100.0))
  }

  /** What an event adds to the view. */
  function Seen(workload: Id, seen: View, event: Event): View {
    if Unusable(workload, event) then seen
    else if event.Progress? then seen.(phase := event.phase, progress := event.progress)
    else seen.(result := if event.succeeded then RunSucceeded else RunFailed)
  }

  /** What a stream of events adds to the view. */
  function SeenAll(workload: Id, seen: View, events: seq<Event>): View {
    if events == [] then seen
    else Seen(workload, SeenAll(workload, seen, events[..|events| - 1]), events[|events| - 1])
  }

  class World {
    var now: Snap
    ghost const start: Snap
    ghost var log: seq<Action>
    ghost var setbacks: Setbacks

    ghost predicate Valid()
      reads this`now, this`log
    {
      Initial(start) && Legal(start, log) && now == Replay(start, log) && Inv(now)
    }

    constructor (a: Snap)
      requires Initial(a)
      ensures Valid() && now == a && start == a && log == []
    {
      now := a;
      start := a;
      log := [];
      setbacks := Setbacks(0, 0, 0);
      InitialInv(a);
    }

    method Do(act: Action)
      requires Valid() && Enabled(now, act)
      modifies this`now, this`log
      ensures Valid() && now == Apply(old(now), act) && log == old(log) + [act]
    {
      hide Inv, Enabled, Apply, Initial;
      Step(now, act);
      Extend(start, log, act);
      now := Apply(now, act);
      log := log + [act];
    }
  }

  // ---------- what others may change ----------

  /** Peers only add to their records. */
  ghost predicate PeersGrow(a: Snap, b: Snap) {
    && (!a.loc.job.Unanswered? ==> b.loc.job == a.loc.job)
    && (a.loc.closed.Some? ==> b.loc.closed == a.loc.closed)
    && (a.broker.exchange.Admitted? && a.broker.exchange.settled.Some? ==> b.broker.exchange == a.broker.exchange)
    && a.broker.heard <= b.broker.heard
    && a.loc.asked <= b.loc.asked && a.broker.offered <= b.broker.offered
    && (a.loc.settleAsked ==> b.loc.settleAsked)
  }

  ghost predicate JournalKept(a: Snap, b: Snap) {
    b.op == a.op && b.s == a.s && b.v == a.v
  }

  /** Settled, unless a pass without the lock wrote last. */
  ghost predicate SettleShown(a: Snap) {
    a.relapsed || a.res.settle == Settled
  }

  /** Late updates only close what is open; what they write over is marked. */
  ghost predicate RowsGrow(a: Snap, b: Snap) {
    && (a.res.state.Open? || b.res.state == a.res.state)
    && (a.res.billed.Some? ==> b.res.billed == a.res.billed)
    && (SettleShown(a) ==> SettleShown(b))
    && (a.reshown ==> b.reshown) && (b.reshown || b.res.runner == a.res.runner)
  }

  /** Only peers and passes without the lock acted. */
  ghost predicate Rely(a: Snap, b: Snap) {
    PeersGrow(a, b) && JournalKept(a, b) && RowsGrow(a, b) && b.lock == a.lock && b.course == a.course
  }

  lemma RelyTransitive(a: Snap, b: Snap, c: Snap)
    requires Rely(a, b) && Rely(b, c)
    ensures Rely(a, c)
  {
  }

  lemma PeersRely(a: Snap, act: Action)
    requires Environment(act) && Acts(a, act)
    ensures Rely(a, ApplyAct(a, act))
  {
    hide MoneyEnabled, ApplyMoney, ApplyAct, GoesOn;
    ActTouches(a, act);
  }

  lemma LateRely(a: Snap, i: nat, act: Action)
    requires Core(a) && LateEnabled(a, i, act)
    ensures Rely(a, ApplyLate(a, i, act))
  {
    hide Core, LateEnabled, ApplyLate, RowsGrow, ApplyMoney, GoesOn;
    LateTouches(a, i, act);
    LateRows(a, i, act);
  }

  lemma LateRows(a: Snap, i: nat, act: Action)
    requires Core(a) && LateEnabled(a, i, act)
    ensures RowsGrow(a, ApplyLate(a, i, act))
  {
    hide SettledByLoc;
    if act.OnReservation? {
      hide LockEnabled, LocEnabled, BrokerEnabled, ApplyLock, ApplyLoc, AfterBroker, Identity, Custody, Standing;
    } else {
      hide Core, LateEnabled, ApplyLate, ApplyMoney, GoesOn;
      LateTouches(a, i, act);
    }
  }

  /** A permitted journal write stays permitted. */
  lemma SaveStays(a: Snap, b: Snap, o: OpRow, s: Secrets, v: View)
    requires SaveOk(a, o, s, v) && Rely(a, b)
    ensures SaveOk(b, o, s, v)
  {
    hide Enabled;
  }

  lemma EnvironmentStep(a: Snap, act: Action, o: OpRow, s: Secrets, v: View)
    requires Inv(a) && SaveOk(a, o, s, v) && Environment(act) && Enabled(a, act)
    ensures SaveOk(Apply(a, act), o, s, v) && Rely(a, Apply(a, act))
  {
    hide Core, LapsedAt, SaveOk, Rely, Acts, LateEnabled, ApplyLate, ApplyAct;
    if act.Late? {
      LateRely(a, act.i, act.late);
    } else {
      PeersRely(a, act);
    }
    SaveStays(a, Apply(a, act), o, s, v);
  }

  lemma RowKeepsSave(a: Snap, e: MoneyEvent, o: OpRow, s: Secrets, v: View)
    requires SaveOk(a, o, s, v) && MoneyEnabled(a, e) && o.finished.None?
    ensures SaveOk(AfterMoney(a, e), o, s, v)
  {
  }

  lemma LearningKeepsSave(a: Snap, e: LockEvent, o: OpRow, s: Secrets, v: View)
    requires SaveOk(a, o, s, v) && LockEnabled(a, e) && o.finished.None? && !e.Acquire? && !e.Release? && !e.Lose?
    ensures SaveOk(ApplyLock(a, e), o, s, v)
  {
    hide SettledByLoc;
  }

  lemma RequestsKeepSave(a: Snap, act: Action, o: OpRow, s: Secrets, v: View)
    requires SaveOk(a, o, s, v) && Acts(a, act) && o.finished.None?
    requires (act.AtLoc? && (act.loc.AskJob? || act.loc.AskSettle?)) || (act.AtBroker? && act.broker.OfferJob?)
    ensures SaveOk(ApplyAct(a, act), o, s, v)
  {
    hide Acts;
  }

  lemma AgainSave(a: Snap, o: OpRow, s: Secrets, v: View)
    requires SaveOk(a, o, s, v) && o.finished.None?
    ensures SaveOk(ApplySave(a, o, s, v), o, s, v)
  {
  }

  class Pass {
    const w: World
    var o: OpRow
    var s: Secrets
    var v: View

    ghost predicate ReadyAs(g: OpRow)
      reads this, w`now, w`log
    {
      && w.Valid() && Acting(w.now) && w.now.op.finished.None? && SaveOk(w.now, g, s, v)
    }

    /** Between two steps: the journal would accept what the pass holds. */
    ghost predicate Ready()
      reads this, w`now, w`log
    {
      ReadyAs(o) && o.finished.None?
    }

    /** What a pass leaves for its final write. */
    ghost predicate Done(err: Err)
      reads this, w`now, w`log
    {
      if err.Fine? || o.state == IssuanceRefused then ReadyAs(o) else ReadyAs(o.(finished := None))
    }

    ghost predicate Saved()
      reads this, w`now, w`log
    {
      w.now.s == s && w.now.v == v && w.now.op == o
    }

    /** The run has gone on. */
    ghost predicate Going(before: seq<Action>, t: Setbacks)
      reads w`log, w`setbacks
    {
      before <= w.log && t.writes <= w.setbacks.writes && t.lost <= w.setbacks.lost && t.odd <= w.setbacks.odd
    }

    /** Since then, no write failed or went unconfirmed. */
    ghost predicate Clean(t: Setbacks)
      reads w`setbacks
    {
      t.writes == w.setbacks.writes
    }

    /** Since then, a write failed or went unconfirmed. */
    ghost predicate Unwritten(t: Setbacks)
      reads w`setbacks
    {
      t.writes < w.setbacks.writes
    }

    /** Since then, a request stayed without an answer that helps. */
    ghost predicate Unheard(t: Setbacks)
      reads w`setbacks
    {
      t.lost < w.setbacks.lost
    }

    /** Since then, an answer did not fit. */
    ghost predicate Odd(t: Setbacks)
      reads w`setbacks
    {
      t.odd < w.setbacks.odd
    }

    /** Since then, something went wrong. */
    ghost predicate Hindered(t: Setbacks)
      reads w`setbacks
    {
      Unwritten(t) || Unheard(t) || Odd(t)
    }

    /** Whether a write that landed is confirmed. */
    method Told(lands: bool) returns (ok: bool)
      modifies w`setbacks
      ensures Going(w.log, old(w.setbacks)) && (ok ==> lands) && (ok || Unwritten(old(w.setbacks)))
      ensures ok ==> w.setbacks == old(w.setbacks)
    {
      var told: bool := *;
      ok := lands && told;
      if !ok {
        w.setbacks := w.setbacks.(writes := w.setbacks.writes + 1);
      }
    }

    /** Notes a request without an answer that helps, or an answer that does not fit. */
    ghost method Note(heard: bool, fits: bool)
      modifies w`setbacks
      ensures Going(w.log, old(w.setbacks)) && (heard || Unheard(old(w.setbacks)))
      ensures !heard || fits || Odd(old(w.setbacks))
      ensures heard && fits ==> w.setbacks == old(w.setbacks)
      ensures Clean(old(w.setbacks))
    {
      if !heard {
        w.setbacks := w.setbacks.(lost := w.setbacks.lost + 1);
      } else if !fits {
        w.setbacks := w.setbacks.(odd := w.setbacks.odd + 1);
      }
    }

    constructor (world: World)
      requires world.Valid() && world.now.lock.Held? && world.now.op.finished.None?
      requires !world.now.course.done && world.now.course.first == (world.now.op.attempts == 0)
      ensures w == world && Ready()
      ensures s == w.now.s && v == w.now.v && o == w.now.op.(attempts := w.now.op.attempts + 1)
    {
      w := world;
      o := world.now.op.(attempts := world.now.op.attempts + 1);
      s := world.now.s;
      v := world.now.v;
    }

    method EnvAs(ghost g: OpRow)
      requires ReadyAs(g)
      modifies w`now, w`log
      ensures ReadyAs(g) && Going(old(w.log), old(w.setbacks)) && Rely(old(w.now), w.now)
    {
      hide SaveOk, Inv, Enabled, Apply, Environment, Initial, Legal, Replay;
      RelyItself(w.now);
      var steps: nat := *;
      while steps > 0
        invariant ReadyAs(g) && Going(old(w.log), old(w.setbacks)) && Rely(old(w.now), w.now)
      {
        hide Rely;
        var act: Action := *;
        if Environment(act) && Enabled(w.now, act) {
          EnvironmentStep(w.now, act, g, s, v);
          ghost var before := w.now;
          w.Do(act);
          RelyTransitive(old(w.now), before, w.now);
          RelyReady(before, w.now);
        }
        steps := steps - 1;
      }
    }

    lemma RelyItself(a: Snap)
      ensures Rely(a, a)
    {
    }

    lemma RelyReady(a: Snap, b: Snap)
      requires Rely(a, b)
      ensures b.lock == a.lock && b.course == a.course && b.op == a.op
    {
    }

    // ---------- rows ----------

    /** Writes what the pass holds. A lost reply leaves open whether the row changed. */
    method Save() returns (ok: bool)
      requires Ready()
      modifies w
      ensures Ready() && Going(old(w.log), old(w.setbacks)) && PeersGrow(old(w.now), w.now)
                && RowsGrow(old(w.now), w.now)
      ensures w.now.course == old(w.now.course).(marked := w.now.course.marked, concludes := w.now.course.concludes)
      ensures ok ==> Saved() && w.now.course == CourseAfterSave(old(w.now), o, s, v)
      ensures Saved() || JournalKept(old(w.now), w.now)
      ensures ok || Unwritten(old(w.setbacks))
      ensures ok ==> Clean(old(w.setbacks))
    {
      hide SaveOk, Inv, Initial, Legal, Replay, Rely, PeersGrow, RowsGrow, ApplyDirect, ApplySave, Enabled, Direct,
        Apply;
      EnvAs(o);
      RelyFacts(old(w.now), w.now);
      ghost var before := w.now;
      var lands: bool := *;
      if lands {
        Write();
      }
      ghost var after := w.now;
      EnvAs(o);
      RelyFacts(after, w.now);
      SavedBetween(old(w.now), before, after, w.now);
      CourseWritten(old(w.now), before, o, s, v);
      ok := Told(lands);
    }

    method Write()
      requires Ready()
      modifies w`now, w`log
      ensures Ready() && Going(old(w.log), old(w.setbacks)) && w.now == ApplySave(old(w.now), o, s, v) && Saved()
      ensures w.now == old(w.now).(op := o, s := s, v := v, course := w.now.course)
    {
      hide SaveOk, Inv, Initial, Legal, Replay;
      AgainSave(w.now, o, s, v);
      w.Do(Action.Save(o, s, v));
    }

    lemma CourseWritten(a: Snap, b: Snap, o: OpRow, s: Secrets, v: View)
      requires b.s == a.s && b.course == a.course
      ensures ApplySave(b, o, s, v).course == CourseAfterSave(a, o, s, v)
      ensures CourseAfterSave(a, o, s, v) ==
                a.course.(marked := CourseAfterSave(a, o, s, v).marked,
                          concludes := CourseAfterSave(a, o, s, v).concludes)
    {
    }

    /** The pass learns something that does not concern what it holds. */
    method Learn(e: LockEvent)
      requires Ready() && (e.LookupFailed? || e.LocNotClosed?)
      modifies w`now, w`log
      ensures Ready() && Going(old(w.log), old(w.setbacks)) && w.now == old(w.now).(course := w.now.course)
      ensures w.now.course == if e.LookupFailed? then old(w.now.course).(lookupFailed := true)
                              else old(w.now.course).(notClosed := true, concludes := false)
    {
      hide SaveOk, Inv, Initial, Legal, Replay;
      LearningKeepsSave(w.now, e, o, s, v);
      w.Do(OnLock(e));
    }

    lemma RelyFacts(a: Snap, b: Snap)
      requires Rely(a, b)
      ensures JournalKept(a, b) && b.course == a.course && b.lock == a.lock
    {
    }

    lemma SavedBetween(a: Snap, b: Snap, c: Snap, d: Snap)
      requires Rely(a, b) && Rely(c, d)
      requires c == b.(op := c.op, s := c.s, v := c.v, course := c.course)
      ensures PeersGrow(a, d) && RowsGrow(a, d)
    {
    }

    /** One update of the reservation row. */
    method Update(e: MoneyEvent, ghost g: OpRow) returns (ok: bool)
      requires ReadyAs(g) && g.finished.None? && MoneyEnabled(w.now, e)
      modifies w
      ensures ReadyAs(g) && Going(old(w.log), old(w.setbacks)) && PeersGrow(old(w.now), w.now)
                && JournalKept(old(w.now), w.now)
      ensures w.now.course == old(w.now.course) || w.now.course == MoneyCourse(old(w.now.course), e)
      ensures ok ==> w.now.course == MoneyCourse(old(w.now.course), e)
      ensures RowsKept(old(w.now), w.now, e)
      ensures ok ==> match e
                     case SetLocJob => true
                     case Refund => w.now.res.state == ReservationState.Refunded || w.now.res.state.Committed?
                     case MarkSettled(billed) => w.now.res.settle == Settled && w.now.res.billed == Some(billed)
                     case Commit(units) => w.now.res.state == Committed(units)
                         || w.now.res.state == ReservationState.Refunded
                                           || w.now.res.state.Committed?
                     case RecordRunner(status) => w.now.res.runner == status
      ensures ok || Unwritten(old(w.setbacks))
      ensures ok ==> Clean(old(w.setbacks))
    {
      hide SaveOk, Inv, Initial, Legal, Replay, RowsGrow;
      EnvAs(g);
      EnabledStays(old(w.now), w.now, e);
      ghost var before := w.now;
      var lands: bool := *;
      if lands {
        RowKeepsSave(w.now, e, g, s, v);
        w.Do(OnReservation(e));
      }
      UpdatedRows(old(w.now), before, w.now, e);
      ok := Told(lands);
    }

    lemma EnabledStays(a: Snap, b: Snap, e: MoneyEvent)
      requires Rely(a, b) && MoneyEnabled(a, e)
      ensures MoneyEnabled(b, e)
    {
    }

    /** Everything the update is not about is as before, or marked as written over. */
    ghost predicate RowsKept(a: Snap, b: Snap, e: MoneyEvent) {
      && (a.res.state.Open? || b.res.state == a.res.state)
      && (a.res.billed.Some? && !e.MarkSettled? ==> b.res.billed == a.res.billed)
      && (SettleShown(a) && !e.SetLocJob? ==> SettleShown(b))
      && (e.RecordRunner? || ((a.reshown ==> b.reshown) && (b.reshown || b.res.runner == a.res.runner)))
    }

    lemma UpdatedRows(a: Snap, b: Snap, c: Snap, e: MoneyEvent)
      requires RowsGrow(a, b)
      requires c == b || (MoneyEnabled(b, e) && c == AfterMoney(b, e))
      ensures RowsKept(a, c, e)
    {
    }

    // ---------- requests ----------

    /** A definitive refusal is LOC's answer to the request's id. */
    method CreateJob() returns (r: Reply<Job>)
      requires Ready() && Saved() && s.job.None?
      modifies w
      ensures Ready() && Saved() && Going(old(w.log), old(w.setbacks)) && w.now.course == old(w.now.course)
      ensures s.order in w.now.loc.asked
      ensures r.Got? ==> w.now.loc.job == Granted(r.value)
      ensures r.LocError? && Definitive(r.status) ==> w.now.loc.job.Refused?
      ensures !r.Lost? || Unheard(old(w.setbacks))
      ensures Clean(old(w.setbacks))
    {
      hide SaveOk, Inv, Initial, Legal, Replay, RowsGrow;
      EnvAs(o);
      SavedAttempts();
      RequestsKeepSave(w.now, AtLoc(AskJob(s.order)), o, s, v);
      w.Do(AtLoc(AskJob(s.order)));
      EnvAs(o);
      r := *;
      if (r.Got? && w.now.loc.job != Granted(r.value))
         || (r.LocError? && Definitive(r.status) && !w.now.loc.job.Refused?) {
        r := Lost;
      }
      Note(!r.Lost?, true);
    }

    lemma SavedAttempts()
      requires Ready() && Saved()
      ensures w.now.op.attempts >= 1
    {
      hide Apply, Inv, Legal;
    }

    /** A settlement the client accepts is the broker's terminal record of this job. */
    method LookupJob() returns (r: ExchangeReply)
      requires Ready() && s.job.Some?
      modifies w
      ensures Ready() && Going(old(w.log), old(w.setbacks)) && Rely(old(w.now), w.now)
      ensures r.SettledReply? ==> Bound(s.job.value, r.claim) && SettledAs(w.now.broker, r.claim)
      ensures !r.NoExchange? || Unheard(old(w.setbacks))
      ensures Clean(old(w.setbacks))
    {
      hide SaveOk, Inv, Initial, Legal, Replay;
      EnvAs(o);
      r := *;
      if r.SettledReply? && (!Bound(s.job.value, r.claim) || !SettledAs(w.now.broker, r.claim)) {
        r := NoExchange;
      }
      Note(!r.NoExchange?, true);
    }

    /** A status that names this job and shows a complete closure repeats LOC's record. */
    method GetJob() returns (r: Option<JobStatus>)
      requires Ready() && s.job.Some?
      modifies w
      ensures Ready() && Going(old(w.log), old(w.setbacks)) && Rely(old(w.now), w.now)
      ensures r.Some? && r.value.job == s.job.value.job && r.value.closedAt.Some? && r.value.billed.Some?
              && r.value.outcome.Some? ==>
                w.now.loc.closed == Some(Closure(r.value.outcome.value, r.value.notAdmitted, r.value.units,
                                                 r.value.billed.value,
                                                 r.value.closedAt.value))
      ensures (r.Some? && ShowsClosure(s, r.value)) || Unheard(old(w.setbacks))
      ensures r.Some? && ShowsClosure(s, r.value) && s.claim.Some? ==> ClosesClaim(s, r.value) || Odd(old(w.setbacks))
      ensures Clean(old(w.setbacks))
    {
      hide SaveOk, Inv, Initial, Legal, Replay;
      EnvAs(o);
      r := *;
      if r.Some? && r.value.job == s.job.value.job && r.value.closedAt.Some? && r.value.billed.Some?
         && r.value.outcome.Some?
         && w.now.loc.closed != Some(Closure(r.value.outcome.value, r.value.notAdmitted, r.value.units,
                                             r.value.billed.value,
                                             r.value.closedAt.value)) {
        r := None;
      }
      Note(r.Some? && ShowsClosure(s, r.value), s.claim.Some? ==> r.Some? && ClosesClaim(s, r.value));
    }

    /** LOC closed the job on the broker's settlement, with these units, this billed value, at this time. */
    predicate ClosedWith(units: int, billed: int, at: Time)
      reads w`now
    {
      && SettledByBroker(w.now.loc) && w.now.loc.closed.value.units == Some(units)
      && w.now.loc.closed.value.billed == billed && w.now.loc.closed.value.at == at
    }

    /** A settle reply that names this job means LOC closed it on the broker's settlement, with those units. */
    method SettleJob() returns (r: SettleReply)
      requires Ready() && s.job.Some? && s.claim.Some? && w.now.course.registered && w.now.s.dispatched
      requires SettledAs(w.now.broker, s.claim.value)
      modifies w
      ensures Ready() && Going(old(w.log), old(w.setbacks)) && Rely(old(w.now), w.now) && w.now.loc.settleAsked
      ensures r.SettledJob? && r.job == s.job.value.job && r.billed.Some? && r.closedAt != 0 ==>
                ClosedWith(r.units, r.billed.value, r.closedAt)
      ensures !r.SettleFailed? || Unheard(old(w.setbacks))
      ensures r.SettledJob? ==>
                || (r.job == s.job.value.job && r.units == s.claim.value.units && r.billed.Some? && r.closedAt != 0)
                || Odd(old(w.setbacks))
      ensures Clean(old(w.setbacks))
    {
      hide SaveOk, Inv, Initial, Legal, Replay;
      EnvAs(o);
      RequestsKeepSave(w.now, AtLoc(AskSettle), o, s, v);
      w.Do(AtLoc(AskSettle));
      EnvAs(o);
      r := *;
      if r.SettledJob? && r.job == s.job.value.job && r.billed.Some? && r.closedAt != 0
         && !ClosedWith(r.units, r.billed.value, r.closedAt) {
        r := SettleFailed;
      }
      Note(!r.SettleFailed?, r.SettledJob? ==> r.job == s.job.value.job && r.units == s.claim.value.units
                                               && r.billed.Some? && r.closedAt != 0);
    }

    // ---------- the runner's stream ----------

    /** The pass has saved the dispatch, and holds the row but for what the stream adds to the view. */
    ghost predicate Streaming()
      reads this, w`now, w`log
    {
      Ready() && s == w.now.s && s.job.Some? && s.dispatched && s.claim.None? && o == w.now.op && v.status == Processing
    }

    lemma EventSave(result: Result)
      requires Streaming()
      requires result == RunSucceeded ==> SuccessHeard(w.now.broker, s.order.id)
      ensures SaveOk(w.now, o, s, v.(result := result))
    {
      hide Enabled, Apply, Inv;
    }

    lemma ProgressSave(phase: string, progress: real)
      requires Streaming()
      ensures SaveOk(w.now, o, s, v.(phase := phase, progress := progress))
    {
      hide Enabled, Apply, Inv;
    }

    /** The event callback: it notes progress, and the outcome of a typed terminal result that names this workload. */
    method OnEvent(event: Event) returns (ok: bool)
      requires Streaming() && event in w.now.broker.heard
      modifies this, w
      ensures Streaming() && Going(old(w.log), old(w.setbacks)) && PeersGrow(old(w.now), w.now)
      ensures w.now.course.registered == old(w.now.course.registered)
      ensures o == old(o) && s == old(s) && v == Seen(s.order.id, old(v), event) && v.status == old(v.status)
      ensures event.Progress? && event.workload == s.order.id && 0.0 <= event.progress <= 100.0 ==>
                v == old(v).(phase := event.phase, progress := event.progress)
      ensures event.Terminal? && event.workload == s.order.id ==>
                v == old(v).(result := if event.succeeded then RunSucceeded else RunFailed)
      ensures ok ==> !Unusable(s.order.id, event)
      ensures ok || Unwritten(old(w.setbacks)) || Unusable(s.order.id, event)
      ensures v.result == (if event.Terminal? && event.workload == s.order.id
                           then (if event.succeeded then RunSucceeded else RunFailed) else old(v.result))
      ensures ok && v.result != NoResult ==> Saved()
      ensures ok ==> Clean(old(w.setbacks))
    {
      hide SaveOk, Inv, Initial, Legal, Replay, RowsGrow;
      if event.Malformed? || event.workload != s.order.id {
        return false;
      }
      match event {
        case Progress(_, phase, progress) =>
          if progress < 0.0 || progress > 100.0 {
            return false;
          }
          ProgressSave(phase, progress);
          v := v.(phase := phase, progress := progress);
        case Terminal(_, succeeded) =>
          EventSave(if succeeded then RunSucceeded else RunFailed);
          v := v.(result := if succeeded then RunSucceeded else RunFailed);
      }
      var due: bool := *;
      if due || v.result != NoResult {
        ok := Save();
        return;
      }
      return true;
    }

    /** Reads the `more` events of the stream, or those up to the first that is refused or cannot be saved. */
    method ConsumeStream(more: nat) returns (ok: bool, ghost events: seq<Event>)
      requires Streaming()
      modifies this, w
      ensures Streaming() && Going(old(w.log), old(w.setbacks)) && PeersGrow(old(w.now), w.now)
      ensures w.now.course.registered == old(w.now.course.registered)
      ensures o == old(o) && s == old(s) && v == SeenAll(s.order.id, old(v), events) && v.status == old(v.status)
      ensures (forall e :: e in events ==> e in w.now.broker.heard) && (ok ==> |events| == more)
      ensures ok ==> forall e :: e in events ==> !Unusable(s.order.id, e)
      ensures ok || Hindered(old(w.setbacks))
      ensures ok ==> Clean(old(w.setbacks))
    {
      hide SaveOk, Inv, Legal, Replay, RowsGrow, Unusable, Seen;
      events := [];
      var n := 0;
      while n < more
        invariant Streaming() && Going(old(w.log), old(w.setbacks)) && PeersGrow(old(w.now), w.now)
        invariant o == old(o) && s == old(s) && v == SeenAll(s.order.id, old(v), events) && v.status == old(v.status)
        invariant Clean(old(w.setbacks))
        invariant |events| == n <= more && forall e :: e in events ==>
                    e in w.now.broker.heard && !Unusable(s.order.id, e)
        invariant w.now.course.registered == old(w.now.course.registered)
      {
        var event := NextEvent();
        if event.None? {
          return false, events;
        }
        ghost var before := events;
        events := events + [event.value];
        assert events[..|events| - 1] == before;
        ok := OnEvent(event.value);
        if !ok {
          return;
        }
        n := n + 1;
      }
      return true, events;
    }

    /** The next event the runner sends, or none, if the stream breaks. */
    method NextEvent() returns (event: Option<Event>)
      requires Streaming()
      modifies w
      ensures Streaming() && Going(old(w.log), old(w.setbacks)) && Rely(old(w.now), w.now)
      ensures event.Some? ==>
                && event.value in w.now.broker.heard
                && (!Unusable(s.order.id, event.value) || Odd(old(w.setbacks)))
      ensures event.None? ==> Unheard(old(w.setbacks))
      ensures Clean(old(w.setbacks))
    {
      hide SaveOk, Inv, Legal, Replay, RowsGrow, Unusable;
      EnvAs(o);
      event := *;
      if event.Some? && event.value !in w.now.broker.heard {
        event := None;
      }
      Note(event.Some?, event.Some? && !Unusable(s.order.id, event.value));
    }

    /**
     * Offers the job, reads the `more` events of its whole stream, then its settlement trailer; a missing trailer
     * recovers through the exchange lookup.
     */
    method SubmitJob(more: nat, trailer: Option<Claim>) returns (claim: Option<Claim>, ghost events: seq<Event>)
      requires Streaming() && w.now.v == v && w.now.course.marked
      modifies this, w
      ensures Streaming() && Going(old(w.log), old(w.setbacks)) && PeersGrow(old(w.now), w.now)
      ensures w.now.course.registered == old(w.now.course.registered)
      ensures o == old(o) && s == old(s) && TheOffer(s) in w.now.broker.offered
      ensures v == SeenAll(s.order.id, old(v), events) && v.status == old(v.status)
      ensures claim.Some? ==>
                && Bound(s.job.value, claim.value) && SettledAs(w.now.broker, claim.value)
                && (trailer.Some? ==> claim == trailer)
                && |events| == more && forall e :: e in events ==> !Unusable(s.order.id, e)
      ensures claim.Some? || Hindered(old(w.setbacks))
      ensures claim.Some? ==> Clean(old(w.setbacks))
    {
      hide SaveOk, Inv, Legal, Replay, RowsGrow, Unusable, Seen;
      Offer();
      var ok;
      ok, events := ConsumeStream(more);
      if !ok {
        return None, events;
      }
      claim := Settlement(trailer);
    }

    /** The offer goes out. */
    method Offer()
      requires Streaming() && w.now.v == v && w.now.course.marked
      modifies w`now, w`log
      ensures Streaming() && Going(old(w.log), old(w.setbacks)) && PeersGrow(old(w.now), w.now)
      ensures w.now.course.registered == old(w.now.course.registered) && TheOffer(s) in w.now.broker.offered
    {
      hide SaveOk, Inv, Legal, Replay, RowsGrow;
      EnvAs(o);
      RequestsKeepSave(w.now, AtBroker(OfferJob(TheOffer(s))), o, s, v);
      w.Do(AtBroker(OfferJob(TheOffer(s))));
      EnvAs(o);
    }

    /** The trailer, if there is one and it is this job's settlement; without one, what the exchange lookup finds. */
    method Settlement(trailer: Option<Claim>) returns (claim: Option<Claim>)
      requires Streaming()
      modifies w
      ensures Streaming() && Going(old(w.log), old(w.setbacks)) && PeersGrow(old(w.now), w.now)
      ensures w.now.course.registered == old(w.now.course.registered)
      ensures claim.Some? ==>
                && Bound(s.job.value, claim.value) && SettledAs(w.now.broker, claim.value)
                && (trailer.Some? ==> claim == trailer)
      ensures claim.Some? || Hindered(old(w.setbacks))
      ensures Clean(old(w.setbacks))
    {
      hide SaveOk, Inv, Legal, Replay, RowsGrow;
      if trailer.Some? {
        Note(true, Bound(s.job.value, trailer.value) && SettledAs(w.now.broker, trailer.value));
        if !Bound(s.job.value, trailer.value) || !SettledAs(w.now.broker, trailer.value) {
          return None;
        }
        return trailer;
      }
      var found := LookupJob();
      if found.SettledReply? {
        return Some(found.claim);
      }
      Note(!found.PendingRejected?, true);
      return None;
    }

    // ---------- issuance ----------

    lemma RefusedSave(status: int)
      requires Ready() && Saved() && w.now.loc.job.Refused? && o.state == Authorizing
      ensures SaveOk(w.now, o.(state := IssuanceRefused), s, v.(status := Failed, failure := LocHttp(status)))
    {
    }

    lemma RefusedFinish(at: Time)
      requires Ready() && o.state == IssuanceRefused && o.attempts == 1 && w.now.loc.job.Refused? && w.now.course.told
      requires w.now.res.state == ReservationState.Refunded && v.status == Failed
      ensures SaveOk(w.now, o.(finished := Some(at)), s, v)
    {
      hide Apply, Inv, Initial, Legal;
    }

    lemma FirstFacts()
      requires Ready() && Saved()
      ensures o.attempts == 1 <==> w.now.course.first
    {
      hide Apply, Inv, Legal;
    }

    lemma RefusalFacts()
      requires w.Valid()
      ensures w.now.loc.job.Refused? ==> !w.now.res.state.Committed?
    {
      hide Enabled, Apply;
    }

    ghost predicate Answered(err: Err, was: OpRow, seen: View)
      reads this
    {
      err.LocAnswer? ==> AnswerLeaves(err.status, was, seen, o, v)
    }

    /**
     * A definitive refusal refunds only on the operation's first attempt: the state was just overwritten with
     * `Authorizing`, so the test for an earlier recorded refusal never holds.
     */
    method IssuanceFailure(failure: Reply<Job>) returns (err: Err)
      requires Ready() && Saved() && o.state == Authorizing && !failure.Got?
      requires failure.LocError? && Definitive(failure.status) ==> w.now.loc.job.Refused?
      modifies this, w
      ensures Done(err) && !err.Fine? && Going(old(w.log), old(w.setbacks)) && s == old(s)
      ensures o.finished.Some? ==>
                o.attempts == 1 && o.state == IssuanceRefused && w.now.res.state == ReservationState.Refunded
      ensures err == (if failure.LocError? then LocAnswer(failure.status) else Trouble) || Unwritten(old(w.setbacks))
      ensures o.state == IssuanceRefused && o.finished.None? ==> err == Trouble
      ensures Answered(err, old(o), old(v))
      ensures old(o.attempts) != 1 ==> w.now == old(w.now) && o == old(o) && v == old(v)
    {
      hide SaveOk, Inv, Initial, Legal, Replay, Enabled, Apply, Core, Rely, RowsGrow, PeersGrow, JournalKept,
        SettledByLoc, Acts, ApplyAct, RunnerOf;
      err := if failure.LocError? then LocAnswer(failure.status) else Trouble;
      FirstFacts();
      if (o.attempts == 1 || o.state == IssuanceRefused) && failure.LocError? && Definitive(failure.status) {
        RefusedSave(failure.status);
        o := o.(state := IssuanceRefused);
        v := v.(status := Failed, failure := LocHttp(failure.status));
        var ok := RefuseJob();
        if !ok {
          return Trouble;
        }
      }
    }

    /** The refusal is heard: refund, then finish. */
    method RefuseJob() returns (ok: bool)
      requires Ready() && o.state == IssuanceRefused && o.attempts == 1 && v.status == Failed
      requires w.now.loc.job.Refused? && w.now.course.first
      modifies this`o, w
      ensures ReadyAs(o) && Going(old(w.log), old(w.setbacks)) && o == old(o).(finished := o.finished)
      ensures o.finished.Some? ==> w.now.res.state == ReservationState.Refunded
      ensures if ok then o.finished.Some? else Unwritten(old(w.setbacks))
      ensures ok ==> Clean(old(w.setbacks))
    {
      hide SaveOk, Inv, Initial, Legal, Replay;
      LearningKeepsSave(w.now, HearRefusal, o, s, v);
      w.Do(OnLock(HearRefusal));
      ok := Update(MoneyEvent.Refund, o);
      if !ok {
        return;
      }
      RefusalFacts();
      LearningKeepsSave(w.now, ToldRefund, o, s, v);
      w.Do(OnLock(ToldRefund));
      var at: Time := *;
      RefusedFinish(at);
      o := o.(finished := Some(at));
    }

    lemma StateSave(state: OpState)
      requires Ready() && state != IssuanceRefused
      ensures SaveOk(w.now, o.(state := state), s, v)
    {
      hide Enabled, Apply, Inv;
    }

    lemma JobSave(job: Job)
      requires Ready() && Saved() && s.job.None? && w.now.loc.job == Granted(job)
      ensures SaveOk(w.now, o.(state := Authorized), s.(job := Some(job)), v)
    {
      hide Enabled, Apply, Inv;
    }

    /** Saves before asking, asks, and saves the answer before anything is dispatched. */
    method Authorize() returns (go: bool, err: Err)
      requires Ready() && w.now.s == s && w.now.v == v && s.job.None? && o == w.now.op.(attempts := o.attempts)
      modifies this, w
      ensures Going(old(w.log), old(w.setbacks))
      ensures go ==> Ready() && Saved() && s == old(s).(job := s.job) && s.job.Some? && v == old(v)
                     && o == old(o).(state := Authorized)
      ensures go ==> w.now.course == old(w.now.course).(marked := false, concludes := false)
      ensures !go ==> Done(err) && !err.Fine?
      ensures !go ==>
                || (err.LocAnswer? && s.job.None?) || Unheard(old(w.setbacks)) || Unwritten(old(w.setbacks))
      ensures !go ==> Answered(err, old(o).(state := Authorizing), old(v))
      ensures go || err.Fine? ==> Clean(old(w.setbacks))
    {
      hide SaveOk, Inv, Legal, Replay, RowsGrow;
      JobFacts();
      StateSave(Authorizing);
      o := o.(state := Authorizing);
      var ok := Save();
      if !ok {
        return false, Trouble;
      }
      var reply := CreateJob();
      if !reply.Got? {
        err := IssuanceFailure(if reply.LocError? then LocError(reply.status) else Lost);
        return false, err;
      }
      JobSave(reply.value);
      s := s.(job := Some(reply.value));
      o := o.(state := Authorized);
      ok := Save();
      return ok, Trouble;
    }

    lemma JobFacts()
      requires w.Valid()
      ensures w.now.s.job.None? ==> !w.now.s.dispatched && w.now.s.claim.None?
    {
      hide Enabled, Apply;
    }

    // ---------- settlement ----------

    /** What the journal holds of the job and of the dispatch. */
    ghost predicate Issued()
      reads this, w`now, w`log
    {
      Ready() && w.now.s == s && s.job.Some? && s.job.value.unit.FrameMegapixels?
    }

    /** The view of a closed job, over what the pass held before. */
    lemma AccountedSave(c: Closure, was: OpRow, seen: View)
      requires w.Valid() && SaveOk(w.now, was, s, seen) && was.finished.None? && w.now.loc.closed == Some(c)
      requires o == was.(state := Accounted(c.outcome)) && v.result == seen.result
      requires v.status == if c.outcome == BrokerSettlement && v.result == RunSucceeded then Succeeded else Failed
      ensures SaveOk(w.now, o, s, v)
    {
    }

    lemma ClosedFinish(at: Time)
      requires Ready() && w.now.loc.closed.Some? && SettledByLoc(w.now, o, s, v)
      ensures SaveOk(w.now, o.(finished := Some(at)), s, v)
    {
      hide Apply, Inv, Initial, Legal;
    }

    lemma ReservationFacts()
      requires w.Valid()
      ensures w.now.loc.closed.Some? ==> !w.now.res.state.Refunded?
      ensures w.now.res.state.Committed? && w.now.loc.closed.Some? ==>
                w.now.res.state.units == w.now.loc.closed.value.units
    {
      hide Enabled, Apply;
    }

    lemma ClaimKept()
      requires Ready()
      ensures w.now.s.claim.Some? ==> s.claim == w.now.s.claim
    {
      hide Apply, Inv, Legal;
    }

    /** The claim in hand is the broker's terminal record of a job that was dispatched. */
    lemma ClaimHeld()
      requires Ready() && s.claim.Some?
      ensures w.now.s.dispatched && SettledAs(w.now.broker, s.claim.value)
    {
      hide Enabled, Apply;
    }

    /** Settles and commits the reservation as LOC closed the job. */
    method SettleReservation(billed: int, units: Option<int>) returns (ok: bool)
      requires Ready() && Concludes(w.now.loc, w.now.s, w.now.course)
      requires w.now.loc.closed.value.billed == billed && w.now.loc.closed.value.units == units
      modifies w
      ensures Ready() && Going(old(w.log), old(w.setbacks)) && Concludes(w.now.loc, w.now.s, w.now.course)
      ensures PeersGrow(old(w.now), w.now) && JournalKept(old(w.now), w.now)
      ensures if ok then w.now.res.state == Committed(units) && w.now.res.billed == Some(billed) && SettleShown(w.now)
              else Unwritten(old(w.setbacks))
      ensures ok ==> Clean(old(w.setbacks))
    {
      hide SaveOk, Inv, Initial, Legal, Replay;
      ok := Update(MoneyEvent.MarkSettled(billed), o);
      if !ok {
        return;
      }
      ok := Update(MoneyEvent.Commit(units), o);
      ReservationFacts();
    }

    /** Settled, committed and shown, in that order; the operation is then finished. */
    method Conclude(billed: int, units: Option<int>, at: Time, status: RunnerStatus) returns (err: Err)
      requires Ready() && w.now.loc.closed.Some? && w.now.loc.closed.value.billed == billed
      requires w.now.loc.closed.value.units == units
      requires o.state == Accounted(w.now.loc.closed.value.outcome) && v.result == w.now.v.result
      requires w.now.course.registered && w.now.course.concludes
      requires (v.status == Succeeded || v.status == Failed)
      requires status == (if v.status == Succeeded then Complete else Error)
      requires v.status == Succeeded <==> w.now.loc.closed.value.outcome.BrokerSettlement? && v.result == RunSucceeded
      requires units.Some? ==> v.units == units
      requires s.claim.Some? ==>
                 && w.now.loc.closed.value.outcome.BrokerSettlement? && units == Some(s.claim.value.units)
                 && w.now.loc.settleAsked
      requires v.phase == "finished" && (v.status == Succeeded ==> v.progress == 100.0)
      requires v.failure == FailureOf(w.now.loc.closed.value, s.claim.Some?, v.status == Succeeded)
      modifies this, w
      ensures Done(err) && Going(old(w.log), old(w.setbacks)) && s == old(s) && v == old(v)
      ensures err.Fine? || Unwritten(old(w.setbacks))
      ensures err.Fine? ==> o == old(o).(finished := Some(at)) && SettledByLoc(w.now, o, s, v)
      ensures old(w.now.loc.settleAsked) ==> w.now.loc.settleAsked
      ensures err.Fine? ==> Clean(old(w.setbacks))
    {
      hide SaveOk, Inv, Initial, Legal, Replay;
      ClaimKept();
      var ok := SettleReservation(billed, units);
      if !ok {
        return Trouble;
      }
      ok := Update(MoneyEvent.RecordRunner(status), o);
      if !ok {
        return Trouble;
      }
      ClosedFinish(at);
      o := o.(finished := Some(at));
      return Fine;
    }

    /**
     * A closed record at LOC ends the job without the broker's claim; closed on anything but the broker's settlement,
     * it failed.
     */
    method CloseByLoc(st: JobStatus) returns (err: Err)
      requires Issued() && s.claim.None? && st.closedAt.Some? && st.billed.Some? && st.outcome.Some?
      requires w.now.course.registered && w.now.course.concludes && v.result == w.now.v.result
      requires w.now.loc.closed ==
                Some(Closure(st.outcome.value, st.notAdmitted, st.units, st.billed.value, st.closedAt.value))
      modifies this, w
      ensures Done(err) && Going(old(w.log), old(w.setbacks))
      ensures err.Fine? ==> o.finished == st.closedAt && SettledByLoc(w.now, o, s, v)
      ensures s == old(s) && (err.Fine? || Unwritten(old(w.setbacks)))
      ensures v.units == if st.units.Some? then st.units else old(v.units)
      ensures err.Fine? ==> Clean(old(w.setbacks))
    {
      hide SaveOk, Inv, Initial, Legal, Replay, Enabled, Apply, Core, Rely, RowsGrow, PeersGrow, JournalKept,
        SettledByLoc, Acts, ApplyAct, RunnerOf;
      ghost var was, seen := o, v;
      o := o.(state := Accounted(st.outcome.value));
      v := v.(status := Failed, failure := LocOutcome(st.outcome.value), phase := "finished");
      if st.notAdmitted {
        v := v.(failure := NotAdmitted);
      }
      if st.units.Some? {
        v := v.(units := st.units);
      }
      if st.outcome.value == BrokerSettlement && v.result == RunSucceeded {
        v := v.(status := Succeeded, progress := 100.0, failure := NoCode);
      }
      AccountedSave(w.now.loc.closed.value, was, seen);
      err := Conclude(st.billed.value, st.units, st.closedAt.value, if v.status == Succeeded then Complete else Error);
    }

    lemma ClaimSave(claim: Claim)
      requires Issued() && s.dispatched && s.claim.None? && Bound(s.job.value, claim) && SettledAs(w.now.broker, claim)
      ensures SaveOk(w.now, o, s.(claim := Some(claim)), v)
      ensures SaveOk(w.now, o.(state := AccountingPending), s.(claim := Some(claim)), v)
    {
    }

    /** The broker's exchange rejected the job; only LOC can settle it now. */
    function Rejection(seen: View): View {
      seen.(status := AdmissionRejected, phase := "settlement_pending", failure := RejectedByBroker)
    }

    lemma RejectedSave()
      requires Issued() && s.dispatched
      ensures SaveOk(w.now, o, s, Rejection(v))
    {
      hide Enabled, Apply, Inv;
    }

    /** A dispatch was recorded: look for its settlement, then for LOC's closure, before anything is sent again. */
    method Reconcile() returns (go: bool, err: Err)
      requires Issued() && s.dispatched && s.claim.None? && v == w.now.v && w.now.course.registered
      requires w.now.course.concludes
      modifies this, w
      ensures Going(old(w.log), old(w.setbacks))
      ensures go ==> Ready() && o == old(o) && s == old(s).(claim := s.claim) && w.now.s == old(s)
      ensures go ==> w.now.course == if s.claim.Some? then old(w.now.course)
                                     else old(w.now.course).(lookupFailed := true, notClosed := true,
                                                             concludes := false)
      ensures go ==> (v == old(v) || v == Rejection(old(v))) && w.now.v == old(v)
      ensures go && s.claim.None? ==> (v == Rejection(old(v)) || Unheard(old(w.setbacks)))
      ensures go && s.claim.Some? ==> v == old(v)
      ensures go || err.Fine? || Unwritten(old(w.setbacks))
      ensures !go ==> Done(err) && (err.Fine? ==> o.finished.Some? && SettledByLoc(w.now, o, s, v))
      ensures s.job == old(s).job
      ensures go ==> err.Fine?
      ensures go || err.Fine? ==> Clean(old(w.setbacks))
    {
      hide SaveOk, Inv, Initial, Legal, Replay, Rely, RowsGrow, PeersGrow, SettledByLoc;
      var found, reply := AdoptSettlement();
      if found {
        return true, Fine;
      }
      go, err := Recheck();
    }

    /** The exchange lookup: a settlement becomes the pass's claim, a rejection shows in its view. */
    method AdoptSettlement() returns (found: bool, ghost reply: ExchangeReply)
      requires Issued() && s.dispatched && s.claim.None?
      modifies this, w
      ensures Ready() && Going(old(w.log), old(w.setbacks)) && o == old(o) && JournalKept(old(w.now), w.now)
      ensures w.now.course == old(w.now.course)
      ensures s == old(s).(claim := s.claim) && found == s.claim.Some?
      ensures found == reply.SettledReply? && (reply.NoExchange? ==> Unheard(old(w.setbacks)))
      ensures reply.PendingRejected? ==>
                v == old(v).(status := AdmissionRejected, phase := "settlement_pending", failure := RejectedByBroker)
      ensures v == if reply.PendingRejected? then Rejection(old(v)) else old(v)
      ensures Clean(old(w.setbacks))
    {
      hide SaveOk, Inv, Initial, Legal, Replay, Rely, RowsGrow, PeersGrow, Enabled, Apply, Core, JournalKept,
        SettledByLoc, Acts, ApplyAct, RunnerOf;
      var answer := LookupJob();
      reply := answer;
      RelyFacts(old(w.now), w.now);
      if answer.SettledReply? {
        ClaimSave(answer.claim);
        s := s.(claim := Some(answer.claim));
        return true, reply;
      }
      if answer.PendingRejected? {
        RejectedSave();
        v := Rejection(v);
      }
      return false, reply;
    }

    /** The lookup failed: finish on LOC's closure if it shows one, else go on. */
    method Recheck() returns (go: bool, err: Err)
      requires Issued() && s.claim.None? && v.result == w.now.v.result && w.now.course.registered
      requires w.now.course.concludes
      modifies this, w
      ensures Going(old(w.log), old(w.setbacks))
      ensures go ==> Ready() && o == old(o) && s == old(s) && v == old(v) && JournalKept(old(w.now), w.now)
      ensures go ==> w.now.course == old(w.now.course).(lookupFailed := true, notClosed := true, concludes := false)
      ensures go ==> Unheard(old(w.setbacks))
      ensures go || err.Fine? || Unwritten(old(w.setbacks))
      ensures !go ==> Done(err) && (err.Fine? ==> o.finished.Some? && SettledByLoc(w.now, o, s, v))
      ensures s.job == old(s).job
      ensures go ==> err.Fine?
      ensures go || err.Fine? ==> Clean(old(w.setbacks))
    {
      hide SaveOk, Inv, Initial, Legal, Replay, Rely, RowsGrow, PeersGrow;
      Learn(LookupFailed);
      label failed:
      var st := GetJob();
      RelyFacts(old@failed(w.now), w.now);
      if st.Some? && st.value.job == s.job.value.job && st.value.closedAt.Some? && st.value.billed.Some?
          && st.value.outcome.Some? {
        err := CloseByLoc(st.value);
        return false, err;
      }
      Learn(LocNotClosed);
      return true, Fine;
    }

    lemma DispatchSave()
      requires Issued() && v.status != AdmissionRejected && w.now.v.status != AdmissionRejected
      ensures SaveOk(w.now, o.(state := Dispatching), s.(dispatched := true), v.(status := Processing))
    {
      hide Inv, Legal, Replay;
    }

    /** Marks the dispatch, saves it, and only then submits the job and consumes its stream. */
    method Dispatch() returns (go: bool, err: Err, ghost events: seq<Event>)
      requires Issued() && s.claim.None? && v.status != AdmissionRejected && w.now.v.status != AdmissionRejected
      requires Checked(w.now.course) && w.now.course.registered
      modifies this, w
      ensures Going(old(w.log), old(w.setbacks))
      ensures go ==> Issued() && s.claim.Some? && w.now.course.registered && w.now.course.concludes && w.now.v == v
      ensures go ==> o == old(o).(state := AccountingPending) && s == old(s).(dispatched := true, claim := s.claim)
      ensures go ==> v == SeenAll(s.order.id, old(v).(status := Processing), events)
      ensures go || Hindered(old(w.setbacks))
      ensures !go ==> Done(err) && !err.Fine?
      ensures s.job == old(s).job
      ensures go || err.Fine? ==> Clean(old(w.setbacks))
    {
      hide SaveOk, Inv, Initial, Legal, Replay, RowsGrow, Enabled, Apply, Core, Rely, PeersGrow, JournalKept,
        SettledByLoc, Acts, ApplyAct, RunnerOf;
      DispatchSave();
      s := s.(dispatched := true);
      o := o.(state := Dispatching);
      v := v.(status := Processing);
      events := [];
      var ok := Save();
      if !ok {
        return false, Trouble, [];
      }
      var more: nat := *;
      var trailer: Option<Claim> := *;
      var claim;
      claim, events := SubmitJob(more, trailer);
      if !claim.Some? {
        return false, Trouble, events;
      }
      ClaimSave(claim.value);
      s := s.(claim := claim);
      o := o.(state := AccountingPending);
      ok := Save();
      return ok, Trouble, events;
    }

    /** LOC has settled the claim, now or before: the view shows success only with the runner's typed result. */
    method ConcludeClaim(billed: int, ghost c: Closure) returns (err: Err)
      requires Ready() && v.result == w.now.v.result && s.job.Some? && s.claim.Some? && w.now.loc.closed == Some(c)
      requires w.now.course.registered && w.now.course.concludes
      requires w.now.loc.settleAsked
      requires c.outcome == BrokerSettlement && c.units == Some(s.claim.value.units) && c.billed == billed
      modifies this, w
      ensures Done(err) && Going(old(w.log), old(w.setbacks))
      ensures s == old(s) && (err.Fine? || Unwritten(old(w.setbacks)))
      ensures err.Fine? ==> o.finished.Some? && SettledByLoc(w.now, o, s, v)
      ensures w.now.loc.settleAsked
      ensures err.Fine? ==> Clean(old(w.setbacks))
    {
      hide SaveOk, Inv, Initial, Legal, Replay, Enabled, Apply, Core, Rely, RowsGrow, PeersGrow, JournalKept,
        SettledByLoc, Acts, ApplyAct, RunnerOf;
      ghost var was, seen := o, v;
      v := v.(units := Some(s.claim.value.units));
      v := v.(status := Failed, phase := "finished", failure := NoCode);
      if v.result == RunSucceeded {
        v := v.(status := Succeeded, progress := 100.0);
      }
      o := o.(state := Accounted(BrokerSettlement));
      AccountedSave(c, was, seen);
      var at: Time := *;
      err := Conclude(billed, Some(s.claim.value.units), at, if v.status == Succeeded then Complete else Error);
    }

    /** Settles the claim with LOC; a duplicate is accepted only if LOC's record shows the same settlement. */
    method Settle() returns (err: Err)
      requires Ready() && v.result == w.now.v.result && s.job.Some? && s.claim.Some?
      requires w.now.course.registered && w.now.course.concludes
      modifies this, w
      ensures Done(err) && Going(old(w.log), old(w.setbacks))
      ensures err.Fine? ==> o.finished.Some? && SettledByLoc(w.now, o, s, v)
      ensures s == old(s) && w.now.loc.settleAsked && (err.Fine? || Hindered(old(w.setbacks)))
      ensures err.Fine? ==> Clean(old(w.setbacks))
    {
      hide SaveOk, Inv, Initial, Legal, Replay, RowsGrow;
      ClaimHeld();
      var reply := SettleJob();
      match reply
      case SettleFailed =>
        return Trouble;
      case AlreadySettled =>
        var st := GetJob();
        if !st.Some? || st.value.job != s.job.value.job || !st.value.closedAt.Some?
            || st.value.units != Some(s.claim.value.units)
           || !st.value.billed.Some? || st.value.outcome != Some(BrokerSettlement) {
          return Trouble;
        }
        err := ConcludeClaim(st.value.billed.value, w.now.loc.closed.value);
      case SettledJob(job, units, billed, closedAt) =>
        if job != s.job.value.job || units != s.claim.value.units || !billed.Some? || closedAt == 0 {
          return Trouble;
        }
        err := ConcludeClaim(billed.value, w.now.loc.closed.value);
    }

    lemma LoadFacts()
      requires Ready() && w.now.s == s
      ensures s.dispatched ==> s.job.Some?
      ensures s.claim.Some? ==> s.job.Some? && s.dispatched
      ensures v == w.now.v && v.status == AdmissionRejected ==> s.dispatched
    {
      hide Apply, Legal;
    }

    /** One pass over an ABR operation. */
    method RunAbr() returns (err: Err)
      requires Ready() && s == w.now.s && v == w.now.v && o == w.now.op.(attempts := o.attempts)
      requires !w.now.course.registered && w.now.course.redispatch == s.dispatched
      requires w.now.course.concludes == s.dispatched
      modifies this, w
      ensures Done(err) && Going(old(w.log), old(w.setbacks))
      ensures err.Fine? ==> o.finished.Some? && SettledByLoc(w.now, o, s, v)
      ensures !err.Fine? ==>
                || (err.LocAnswer? && s.job.None? && Answered(err, old(o).(state := Authorizing), old(v)))
                || Hindered(old(w.setbacks)) || (v.status == AdmissionRejected && s.claim.None?)
                || (s.job.Some? && s.job.value.unit != FrameMegapixels)
      ensures err.Fine? ==> Clean(old(w.setbacks))
    {
      hide SaveOk, Inv, Initial, Legal, Replay, RowsGrow, RowsKept, PeersGrow, SettledByLoc;
      LoadFacts();
      if s.job.None? {
        var go, authorizeErr := Authorize();
        if !go {
          return authorizeErr;
        }
      }
      err := Register();
    }

    /** LOC issued the job: it must be billed by frame megapixels, and goes on the reservation before it is used. */
    method Register() returns (err: Err)
      requires Ready() && s == w.now.s && v == w.now.v && o == w.now.op.(attempts := o.attempts) && s.job.Some?
      requires !w.now.course.registered && w.now.course.redispatch == s.dispatched
      requires w.now.course.concludes == s.dispatched
      modifies this, w
      ensures Done(err) && Going(old(w.log), old(w.setbacks))
      ensures err.Fine? ==> o.finished.Some? && SettledByLoc(w.now, o, s, v)
      ensures !err.Fine? ==>
                || Hindered(old(w.setbacks)) || (v.status == AdmissionRejected && s.claim.None?)
                || old(s.job).value.unit != FrameMegapixels
      ensures s.job == old(s).job
      ensures err.Fine? ==> Clean(old(w.setbacks))
    {
      hide SaveOk, Inv, Initial, Legal, Replay, RowsGrow, RowsKept, PeersGrow, SettledByLoc;
      LoadFacts();
      if s.job.value.unit != FrameMegapixels {
        return Trouble;
      }
      var ok := Update(MoneyEvent.SetLocJob, o);
      if !ok {
        return Trouble;
      }
      err := Proceed();
    }

    /** The job is registered: reconcile an earlier dispatch, dispatch, settle. */
    method Proceed() returns (err: Err)
      requires Issued() && v == w.now.v && (v.status == AdmissionRejected ==> s.dispatched)
      requires (s.claim.Some? ==> s.dispatched)
      requires w.now.course.registered && w.now.course.redispatch == s.dispatched
      requires w.now.course.concludes == s.dispatched
      modifies this, w
      ensures Done(err) && Going(old(w.log), old(w.setbacks))
      ensures err.Fine? ==> o.finished.Some? && SettledByLoc(w.now, o, s, v)
      ensures !err.Fine? ==> Hindered(old(w.setbacks)) || (v.status == AdmissionRejected && s.claim.None?)
      ensures s.job == old(s).job
      ensures err.Fine? ==> Clean(old(w.setbacks))
    {
      hide SaveOk, Inv, Initial, Legal, Replay, RowsGrow, RowsKept, PeersGrow, SettledByLoc;
      if s.claim.None? && s.dispatched {
        var go, reconcileErr := Reconcile();
        if !go {
          return reconcileErr;
        }
      }
      if s.claim.None? && v.status == AdmissionRejected {
        return Trouble;
      }
      if s.claim.None? {
        var go, dispatchErr, events := Dispatch();
        if !go {
          return dispatchErr;
        }
      }
      err := Settle();
    }
  }

  /**
   * One turn of the ABR worker: lock, read, run, and write whatever the pass holds. `err` is what the pass returned.
   */
  method Process(w: World) returns (ghost err: Err)
    requires w.Valid()
    modifies w
    ensures w.Valid() && old(w.log) <= w.log && (w.now.lock.Free? || w.now == old(w.now))
    ensures old(w.now.op.finished.Some? || w.now.lock.Held?) ==> w.now == old(w.now) && err.Fine?
    ensures old(w.now.op.finished.None? && w.now.lock.Free?) && w.setbacks == old(w.setbacks) ==>
              if err.Fine? then w.now.op.finished.Some?
              else
                || (&& err.LocAnswer? && w.now.s.job.None?
                    && AnswerLeaves(err.status,
                                    old(w.now.op).(attempts := old(w.now.op.attempts) + 1, state := Authorizing),
                                    old(w.now.v), w.now.op, w.now.v))
                || (w.now.v.status == AdmissionRejected && w.now.s.claim.None?)
                || (w.now.s.job.Some? && w.now.s.job.value.unit != FrameMegapixels)
  {
    hide SaveOk, Inv, Initial, Legal, Replay;
    err := Fine;
    if w.now.lock.Held? || w.now.op.finished.Some? {
      return;
    }
    w.Do(OnLock(Acquire));
    var pass := new Pass(w);
    var returned := pass.RunAbr();
    err := returned;
    if !returned.Fine? && pass.o.state != IssuanceRefused {
      pass.o := pass.o.(finished := None);
    }
    WriteLast(w, pass.o, pass.s, pass.v);
  }

  /** Whether a write lands. */
  method Lands(w: World) returns (lands: bool)
    modifies w`setbacks
    ensures w.setbacks == old(w.setbacks).(writes := old(w.setbacks.writes) + if lands then 0 else 1)
  {
    lands := *;
    if !lands {
      w.setbacks := w.setbacks.(writes := w.setbacks.writes + 1);
    }
  }

  /** The pass has returned: whatever it holds is written, the lock released. */
  method WriteLast(w: World, o: OpRow, s: Secrets, v: View)
    requires w.Valid() && w.now.lock.Held? && SaveOk(w.now, o, s, v)
    modifies w
    ensures w.Valid() && old(w.log) <= w.log && w.now.lock.Free?
    ensures (w.now.op, w.now.s, w.now.v) == (o, s, v) || w.setbacks.writes > old(w.setbacks.writes)
    ensures w.setbacks == old(w.setbacks).(writes := w.setbacks.writes) && w.setbacks.writes >= old(w.setbacks.writes)
  {
    hide SaveOk, Inv, Initial, Legal, Replay;
    QuitSave(w.now, o, s, v);
    w.Do(OnLock(Quit));
    var lands := Lands(w);
    if lands {
      w.Do(Action.Save(o, s, v));
    }
    w.Do(OnLock(LockEvent.Release));
  }

  lemma QuitSave(a: Snap, o: OpRow, s: Secrets, v: View)
    requires SaveOk(a, o, s, v)
    ensures SaveOk(ApplyLock(a, Quit), o, s, v)
  {
    hide Enabled;
  }
}
