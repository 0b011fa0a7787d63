/**
 * One pass of the paid engine over a live operation, as the engine performs it: it mutates the operation, its secrets
 * and its view in memory, calls LOC and the broker, and saves. Before and after each of its own atomic steps the
 * environment may act. `World.log` is the run so far; a crash leaves any prefix of it.
 */
module LiveWorker {
  import opened Basics
  import opened LiveProtocol
  import opened LiveInvariant
  import opened LiveRely
  import opened LiveSaves

  datatype Reply<+T> = Got(value: T) | LocError(status: int) | Lost

  datatype Err = Fine | LocAnswer(status: int) | Trouble

  /** A 4xx answer that is not a timeout, a conflict or a rate limit. */
  predicate Definitive(status: int) {
    400 <= status < 500 && status != 408 && status != 409 && status != 429
  }

  /**
   * What has gone wrong outside the pass, by kind: writes that failed or went unconfirmed; requests without an answer;
   * answers that do not fit; and looks at LOC's account that showed no closed record.
   */
  datatype Setbacks = Setbacks(writes: nat, lost: nat, odd: nat, records: nat)

  class World {
    var now: Snap
    ghost const start: Snap
    ghost var log: seq<Action>
    ghost var setbacks: Setbacks

    ghost predicate Valid()
      reads this`now, this`log
    {
      Initial(start) && Legal(start, log) && now == Replay(start, log) && now.cfg == start.cfg
    }

    constructor (a: Snap)
      requires Initial(a)
      ensures Valid() && now == a && start == a && log == []
    {
      now := a;
      start := a;
      log := [];
      setbacks := Setbacks(0, 0, 0, 0);
    }

    method DoLock(e: LockEvent)
      requires Valid() && LockEnabled(now, e)
      modifies this`now, this`log
      ensures Valid() && now == ApplyLock(old(now), e) && log == old(log) + [OnLock(e)]
    {
      hide Initial, Legal, Replay, Apply, LockEnabled, ApplyLock, SaveOk, LateEnabled;
      Guards(now, OnLock(e));
      Do(OnLock(e));
    }

    /** Whatever the run was, the invariant holds. */
    lemma Known()
      requires Valid()
      ensures Inv(now)
    {
      hide Inv, Initial, Legal, Replay;
      InitialInv(start);
      RunInv(start, log);
    }

    method Do(act: Action)
      requires Valid() && Enabled(now, act)
      modifies this`now, this`log
      ensures Valid() && now == Apply(old(now), act) && log == old(log) + [act]
    {
      hide Enabled, Apply, Initial;
      AdmittedStep(now, act);
      Extend(start, log, act);
      now := Apply(now, act);
      log := log + [act];
    }
  }

  // ---------- replies ----------

  /** LOC's view of the session. */
  datatype SessionStatus = SessionStatus(session: Id, units: Option<int>, billed: Option<int>, closedAt: Option<Time>)

  datatype CloseReply = CloseReply(session: Id, units: int, billed: Option<int>, closedAt: Time)

  datatype RefillReply = Revised(revision: Revision) | InsufficientCredit | NoRevision

  datatype TopUpReply = ToppedUp(work: Id) | TopUpRefused | NoTopUp

  datatype ExchangeOutcome =
    | AdmissionRejected | NotAdmittedOutcome | SettledOutcome | InFlight | AccountingPendingOutcome | OtherOutcome

  datatype Exchange = Exchange(outcome: ExchangeOutcome, session: Option<Id>)

  /** A signed closed settlement that names this session and one of its grants is this session's terminal record. */
  ghost predicate Authentic(a: Snap, s: Secrets, c: Claim) {
    && s.session.Some? && s.prep.Some? && c.closed && c.outputSeconds
    && (c.gateway == s.prep.value || c.session == s.prep.value)
    && (c.work == s.session.value.work || (s.refill.Some? && c.work == s.refill.value.work))
    ==> Terminal(a.broker, c)
  }

  /** The descriptor has no usable addresses. */
  predicate NoUrls(s: Secrets) {
    s.broker.None? || !s.broker.value.urlsValid
  }

  /**
   * What LOC's error answer to an issuance request leaves: a definitive one, heard on the first attempt or recorded
   * before, finishes the operation; any other changes nothing.
   */
  predicate AnswerLeaves(status: int, was: OpRow, seen: View, o: OpRow, v: View) {
    if 400 <= status < 500 && status != 408 && status != 409 && status != 429
       && (was.attempts == 1 || was.state == OpState.IssuanceRefused)
    then
      && o == was.(state := OpState.IssuanceRefused, finished := o.finished) && o.finished.Some?
      && v == seen.(status := Failed, failure := LocHttp(status))
    else o == was && v == seen
  }

  datatype KeyReply = KeyReply(request: KeyId, issued: IssuedKey, wellFormed: bool)

  /** LOC's status is of this session and complete: the session is closed, with units, a billed value and a time. */
  predicate Complete(s: Secrets, st: SessionStatus) {
    && s.session.Some? && st.session == s.session.value.session
    && st.units.Some? && st.units.value >= 0 && st.billed.Some?
    && st.closedAt.Some? && st.closedAt.value != 0
  }

  /** LOC's answer to a close is of this session and its claim. */
  predicate ClosesClaim(s: Secrets, c: CloseReply) {
    && s.session.Some? && c.session == s.session.value.session
    && s.claim.Some? && c.units == s.claim.value.units && c.billed.Some? && c.closedAt != 0
  }

  // ---------- what a step leaves alone ----------

  /** The lock, what the pass has learned, and peers that only add to their records. */
  ghost predicate PeersGrow(a: Snap, b: Snap) {
    && b.cfg == a.cfg && a.clock <= b.clock && b.lock == a.lock && b.course == a.course
    && (a.op.stop ==> b.op.stop)
    && (!a.loc.prepared.Unanswered? ==> b.loc.prepared == a.loc.prepared)
    && (!a.loc.authorized.Unanswered? ==> b.loc.authorized == a.loc.authorized)
    && (a.loc.closed.Some? ==> b.loc.closed == a.loc.closed)
    && b.broker.opens == a.broker.opens
    && a.broker.endAsked <= b.broker.endAsked && a.broker.topUpSent <= b.broker.topUpSent
    && (a.loc.closeAsked ==> b.loc.closeAsked)
    && a.loc.issued <= b.loc.issued
    && (a.broker.admission.Admitted? ==>
          && b.broker.admission.Admitted? && b.broker.admission.session == a.broker.admission.session
          && (a.broker.admission.terminal.Some? ==> b.broker.admission == a.broker.admission))
  }

  ghost predicate JournalKept(a: Snap, b: Snap) {
    b.s == a.s && b.v == a.v && b.op == a.op.(stop := b.op.stop) && b.keysSaved == a.keysSaved
  }

  /** Passes without the lock may move the rows forward, and stray the stream row. */
  ghost predicate RowsGrow(a: Snap, b: Snap) {
    ReservationGrows(a.res, b.res) && RowGrows(a, b)
  }

  /** A read, or a request with no effect on the gateway's rows. */
  ghost predicate Moved(a: Snap, b: Snap) {
    PeersGrow(a, b) && JournalKept(a, b) && RowsGrow(a, b)
  }

  /** What the save of `o` and `s` over `a` leaves of what the pass has learned. */
  ghost predicate CourseSaved(a: Snap, b: Snap, o: OpRow, s: Secrets) {
    && b.course == CourseAfterSave(a, o, s).(counts := b.course.counts)
    && (CourseAfterSave(a, o, s).counts.Some? ==> b.course.counts.Some?)
  }

  class Pass {
    const w: World
    const worker: bool
    var o: OpRow
    var s: Secrets
    var v: View

    /** The journal would accept the secrets and view the pass holds, under the operation row `g`. */
    ghost predicate ReadyAs(g: OpRow)
      reads this, w`now, w`log
    {
      && w.Valid() && Acting(w.now) && w.now.lock.worker == worker && o.stop == w.now.lock.sawStop
      && w.now.op.finished.None? && SaveOk(w.now, g, s, v)
    }

    /** Between two steps: the journal would accept what the pass holds. */
    ghost predicate Ready()
      reads this, w`now, w`log
    {
      ReadyAs(o)
    }

    /** What a pass leaves for its final write: after an error the operation is not finished, unless LOC refused it. */
    ghost predicate Done(err: Err)
      reads this, w`now, w`log
    {
      if err.Fine? || o.state == OpState.IssuanceRefused then Ready() else ReadyAs(o.(finished := None))
    }

    /** The pass holds a finished, settled operation. */
    ghost predicate Settled()
      reads this, w`now, w`log
    {
      o.finished.Some? && SettledByLoc(w.now, o, s, v)
    }

    /** The journal row is what the pass holds. */
    ghost predicate Saved()
      reads this, w`now, w`log
    {
      w.now.s == s && w.now.v == v && w.now.op == o.(stop := w.now.op.stop)
    }

    /** The run has gone on. */
    ghost predicate Going(before: seq<Action>, t: Setbacks)
      reads w`log, w`setbacks
    {
      && before <= w.log
      && t.writes <= w.setbacks.writes && t.lost <= w.setbacks.lost && t.odd <= w.setbacks.odd
      && t.records <= w.setbacks.records
    }

    /** Since then, no write failed or went unconfirmed. */
    ghost predicate Clean(t: Setbacks)
      reads w`setbacks
    {
      t.writes == w.setbacks.writes
    }

    /** Since then, a write failed or went unconfirmed. */
    ghost predicate Unwritten(t: Setbacks)
      reads w`setbacks
    {
      t.writes < w.setbacks.writes
    }

    /** Since then, a request stayed without an answer. */
    ghost predicate Unheard(t: Setbacks)
      reads w`setbacks
    {
      t.lost < w.setbacks.lost
    }

    /** Since then, an answer did not fit. */
    ghost predicate Odd(t: Setbacks)
      reads w`setbacks
    {
      t.odd < w.setbacks.odd
    }

    /** Since then, LOC showed no closed record of the session. */
    ghost predicate Unrecorded(t: Setbacks)
      reads w`setbacks
    {
      t.records < w.setbacks.records
    }

    /** What can keep a pass from getting a key. */
    ghost predicate Keyless(t: Setbacks)
      reads w`setbacks
    {
      Unwritten(t) || Unheard(t) || Odd(t)
    }

    /** What can keep a pass from finishing a session that has ended. */
    ghost predicate Unsettled(t: Setbacks)
      reads w`setbacks
    {
      Unwritten(t) || Odd(t) || Unrecorded(t)
    }

    /** What the lock holder reads; the control worker counts the attempt. */
    constructor (world: World)
      requires world.Valid() && world.now.lock.held && world.now.op.finished.None?
      requires world.now.lock.sawStop == world.now.op.stop && !world.now.course.done
      ensures w == world && worker == world.now.lock.worker && Ready()
      ensures s == w.now.s && v == w.now.v
      ensures o == (if worker then w.now.op.(attempts := w.now.op.attempts + 1) else w.now.op)
    {
      w := world;
      worker := world.now.lock.worker;
      o := if world.now.lock.worker then world.now.op.(attempts := world.now.op.attempts + 1) else world.now.op;
      s := world.now.s;
      v := world.now.v;
      new;
      w.Known();
      LoadSave(w.now, o);
    }

    /** Anything the peers and the customer may do. */
    method EnvAs(ghost g: OpRow)
      requires ReadyAs(g)
      modifies w`now, w`log
      ensures ReadyAs(g) && Going(old(w.log), old(w.setbacks)) && Rely(old(w.now), w.now)
      ensures Moved(old(w.now), w.now) && w.now.broker.opens == old(w.now.broker.opens)
    {
      hide SaveOk, Inv, Enabled, Apply, Environment, Initial, Legal, Replay;
      RelyItself(w.now);
      var steps: nat := *;
      while steps > 0
        invariant ReadyAs(g) && Going(old(w.log), old(w.setbacks)) && Rely(old(w.now), w.now)
      {
        hide Rely;
        var act: Action := *;
        if Environment(act) && Enabled(w.now, act) {
          w.Known();
          EnvironmentKeepsSave(w.now, act, g, s, v);
          w.Known();
          EnvironmentRely(w.now, act);
          ghost var before := w.now;
          w.Do(act);
          RelyTransitive(old(w.now), before, w.now);
          RelyReady(before, w.now);
        }
        steps := steps - 1;
      }
    }

    lemma RelyItself(a: Snap)
      ensures Rely(a, a)
    {
    }

    lemma RelyReady(a: Snap, b: Snap)
      requires Rely(a, b)
      ensures b.lock == a.lock && b.course == a.course && b.op.finished == a.op.finished
    {
    }

    method Env()
      requires Ready()
      modifies w`now, w`log
      ensures Ready() && Going(old(w.log), old(w.setbacks)) && Rely(old(w.now), w.now)
      ensures Moved(old(w.now), w.now) && w.now.broker.opens == old(w.now.broker.opens)
    {
      EnvAs(o);
    }

    // ---------- rows ----------

    method Land()
      requires Ready() && o.finished.None?
      modifies w`now, w`log
      ensures Ready() && Going(old(w.log), old(w.setbacks)) && w.now == ApplySave(old(w.now), o, s, v)
    {
      hide SaveOk, Inv, Initial, Legal, Replay;
      AgainSave(w.now, o, s, v);
      w.Do(Action.Save(o, s, v));
    }

    /** Writes what the pass holds. A lost reply leaves open whether the row changed. */
    method Save() returns (ok: bool)
      requires Ready() && o.finished.None?
      modifies w
      ensures Ready() && Going(old(w.log), old(w.setbacks)) && PeersGrow(old(w.now).(course := w.now.course), w.now)
      ensures ReservationGrows(old(w.now.res), w.now.res) && w.now.course.mayRefuse == old(w.now.course.mayRefuse)
      ensures w.now.course.checked == old(w.now.course.checked)
      ensures ok ==> Saved() && CourseSaved(old(w.now), w.now, o, s)
      ensures Saved() || JournalKept(old(w.now), w.now)
      ensures ok || Unwritten(old(w.setbacks))
      ensures ok ==> w.setbacks == old(w.setbacks)
    {
      hide SaveOk, Inv, Initial, Legal, Replay, RowGrows, OpensRow;
      Env();
      var lands: bool := *;
      if lands {
        SaveCourse(old(w.now), w.now, o, s, v);
        Land();
      }
      Env();
      ok := Told(lands);
    }

    /** Whether a write that landed is confirmed. */
    method Told(lands: bool) returns (ok: bool)
      modifies w`setbacks
      ensures Going(w.log, old(w.setbacks)) && (ok ==> lands) && (ok || Unwritten(old(w.setbacks)))
      ensures ok ==> w.setbacks == old(w.setbacks)
    {
      var told: bool := *;
      ok := lands && told;
      if !ok {
        w.setbacks := w.setbacks.(writes := w.setbacks.writes + 1);
      }
    }

    /** Notes a request without an answer, or an answer that does not fit. */
    ghost method Note(heard: bool, fits: bool)
      modifies w`setbacks
      ensures Going(w.log, old(w.setbacks)) && (heard || Unheard(old(w.setbacks)))
      ensures heard && fits ==> w.setbacks == old(w.setbacks)
      ensures Odd(old(w.setbacks)) <==> heard && !fits
      ensures Clean(old(w.setbacks))
    {
      if !heard {
        w.setbacks := w.setbacks.(lost := w.setbacks.lost + 1);
      } else if !fits {
        w.setbacks := w.setbacks.(odd := w.setbacks.odd + 1);
      }
    }

    /** Saves change what the pass has learned of keys only by recording one. */
    lemma KeysSaved(a: Snap, b: Snap, o: OpRow, s: Secrets)
      requires CourseSaved(a, b, o, s)
      ensures b.course.keys == if a.s.keyRequest.Some? && s.keyRequest.None?
                               then Recorded(if a.course.keys.Expired? then a.course.keys.n + 1 else 1)
                                   else a.course.keys
      ensures a.s.keyRequest.None? && s.keyRequest.Some? ==> b.course.wantsKey
    {
    }

    lemma DispatchSaved(a: Snap, b: Snap, o: OpRow, s: Secrets)
      requires CourseSaved(a, b, o, s) && a.course.cleared
      ensures o.state == Dispatching && s.dispatched && s.broker.None? && s.claim.None? ==> b.course.marked
    {
    }

    lemma OpenSaved(a: Snap, b: Snap, o: OpRow, s: Secrets)
      requires CourseSaved(a, b, o, s) && a.lock.held && a.lock.worker
      ensures b.course.open == OpensRow(a, o, s)
    {
    }

    lemma MintSaved(a: Snap, b: Snap, o: OpRow, s: Secrets)
      requires CourseSaved(a, b, o, s) && a.lock.held && a.lock.worker && a.s.refillId.None? && s.refillId.Some?
      ensures b.course.asks
    {
    }

    lemma AdoptionSaved(a: Snap, b: Snap, o: OpRow, s: Secrets)
      requires CourseSaved(a, b, o, s) && a.s.refill.Some? && s.refillId.None?
      ensures b.course.counts.Some?
    {
    }

    lemma SaveCourse(a: Snap, b: Snap, o: OpRow, s: Secrets, v: View)
      requires Rely(a, b)
      ensures CourseSaved(a, ApplySave(b, o, s, v), o, s) && ApplySave(b, o, s, v).course.done == b.course.done
      ensures ApplySave(b, o, s, v).course.mayRefuse == b.course.mayRefuse
      ensures ApplySave(b, o, s, v).course.checked == b.course.checked
    {
    }

    /** Reads only the stop flag, which another writer owns. */
    method RereadStop() returns (ok: bool)
      requires Ready() && worker && s == w.now.s && o.finished.None? && !w.now.course.checked
      modifies this, w
      ensures Ready() && Going(old(w.log), old(w.setbacks)) && s == old(s) && v == old(v)
                && o == old(o).(stop := o.stop)
      ensures old(o.stop) ==> o.stop
      ensures PeersGrow(old(w.now).(lock := w.now.lock, course := w.now.course), w.now)
      ensures JournalKept(old(w.now), w.now)
      ensures w.now.lock == old(w.now.lock).(sawStop := o.stop)
      ensures ok ==> w.now.course == RereadCourse(old(w.now.course), true, o.stop, s)
      ensures ok || Unheard(old(w.setbacks))
      ensures ok ==> o.stop == (old(o.stop) || w.now.op.stop)
      ensures Clean(old(w.setbacks))
    {
      hide SaveOk, Inv, Initial, Legal, Replay, RereadCourse, RowGrows, ApplyLock, PeersGrow, JournalKept, Rely,
        Enabled, Apply, LockEnabled;
      Env();
      ok := *;
      Note(ok, true);
      RereadMoves(old(w.now), w.now, s);
      if ok {
        RereadAllowed(w.now);
        RereadSave(w.now, o, s, v);
        o := o.(stop := o.stop || w.now.op.stop);
        w.DoLock(LockEvent.RereadStop);
        StopFlagSave(w.now, o, old(o), s, v);
      }
    }

    lemma RereadAllowed(a: Snap)
      requires Acting(a) && !a.course.checked
      ensures LockEnabled(a, LockEvent.RereadStop)
    {
    }

    lemma RereadMoves(a: Snap, b: Snap, s: Secrets)
      requires Moved(a, b) && a.lock.held && a.lock.worker && a.s == s
      ensures PeersGrow(a.(lock := b.lock, course := b.course), b) && JournalKept(a, b) && b.lock == a.lock
      ensures b.course == a.course
      ensures b.s == s
      ensures var c := ApplyLock(b, LockEvent.RereadStop);
              && PeersGrow(a.(lock := c.lock, course := c.course), c) && JournalKept(a, c)
              && c.lock == a.lock.(sawStop := a.lock.sawStop || b.op.stop)
              && c.course == RereadCourse(a.course, true, a.lock.sawStop || b.op.stop, s)
              && c.course.done == a.course.done && c.course.checked == a.course.checked
              && c.op == b.op && c.s == b.s
    {
      hide GoesOn, HasRefillToAsk, GoesToKey, RowsGrow;
    }

    /** `Refund` only moves an open reservation. */
    method RefundReservation() returns (ok: bool)
      requires Ready() && worker && o.finished.None?
      requires MoneyEnabled(w.now, MoneyEvent.Refund)
      modifies w
      ensures Ready() && Going(old(w.log), old(w.setbacks)) && PeersGrow(old(w.now), w.now)
                && JournalKept(old(w.now), w.now)
      ensures RowGrows(old(w.now), w.now)
      ensures LocRefused(old(w.now.loc)) ==> LocRefused(w.now.loc)
      ensures ok ==> w.now.res.state == ReservationState.Refunded
      ensures ok || Unwritten(old(w.setbacks))
      ensures ok ==> Clean(old(w.setbacks))
    {
      hide SaveOk, Inv, Initial, Legal, Replay, RowGrows;
      Env();
      var lands: bool := *;
      if lands {
        w.Known();
        ReservationFacts(w.now);
        OwnKeepsSave(w.now, OnReservation(MoneyEvent.Refund), o, s, v);
        SameRow(old(w.now), w.now, OnReservation(MoneyEvent.Refund));
        w.Do(OnReservation(MoneyEvent.Refund));
      }
      ok := Told(lands);
    }

    lemma SameRow(a: Snap, b: Snap, act: Action)
      requires RowGrows(a, b) && b.s == a.s && Acts(b, act) && act.OnReservation?
      ensures RowGrows(a, ApplyAct(b, act))
    {
    }

    /** `MarkSettled` records LOC's billed value. */
    method MarkSettled(billed: int) returns (ok: bool)
      requires Ready() && o.finished.None? && w.now.loc.closed.Some? && billed == w.now.loc.closed.value.billed
      modifies w
      ensures Ready() && Going(old(w.log), old(w.setbacks)) && PeersGrow(old(w.now), w.now)
                && JournalKept(old(w.now), w.now)
      ensures RowGrows(old(w.now), w.now)
      ensures ok ==> w.now.res.billed == Some(billed)
      ensures ok || Unwritten(old(w.setbacks))
      ensures ok ==> Clean(old(w.setbacks))
    {
      hide SaveOk, Inv, Initial, Legal, Replay, RowGrows;
      Env();
      var lands: bool := *;
      if lands {
        OwnKeepsSave(w.now, OnReservation(MoneyEvent.MarkSettled(billed)), o, s, v);
        SameRow(old(w.now), w.now, OnReservation(MoneyEvent.MarkSettled(billed)));
        w.Do(OnReservation(MoneyEvent.MarkSettled(billed)));
      }
      ok := Told(lands);
    }

    /** One update of the stream row. */
    method WriteStream(e: StreamEvent, ghost g: OpRow) returns (ok: bool)
      requires ReadyAs(g) && g.finished.None? && StreamEnabled(w.now, e) && !e.CountRefill?
      modifies w
      ensures ReadyAs(g) && Going(old(w.log), old(w.setbacks)) && PeersGrow(old(w.now).(course := w.now.course), w.now)
      ensures JournalKept(old(w.now), w.now)
      ensures w.now.course == old(w.now.course)
                || (e.Project? && e.last && w.now.course == old(w.now.course).(open := false))
      ensures ReservationGrows(old(w.now.res), w.now.res)
      ensures ok && e.Project? ==> w.now.stream == e.row
      ensures ok && e.Cancel? ==> w.now.stream.status == Ended && w.now.stream.ended.Some?
      ensures ok && e.Fail? ==> RowOver(w.now.stream)
      ensures ok || Unwritten(old(w.setbacks))
      ensures ok ==> Clean(old(w.setbacks))
    {
      hide SaveOk, Inv, Initial, Legal, Replay, RowGrows;
      EnvAs(g);
      var lands: bool := *;
      if lands {
        OwnKeepsSave(w.now, OnStream(e), g, s, v);
        w.Do(OnStream(e));
      }
      ok := Told(lands);
    }

    /** `Commit` only moves an open reservation. */
    method CommitReservation(units: Option<int>, ghost g: OpRow) returns (ok: bool)
      requires ReadyAs(g) && g.finished.None? && w.now.loc.closed.Some? && units == Some(w.now.loc.closed.value.units)
      modifies w
      ensures ReadyAs(g) && Going(old(w.log), old(w.setbacks)) && PeersGrow(old(w.now), w.now)
                && JournalKept(old(w.now), w.now)
      ensures RowsGrow(old(w.now), w.now)
      ensures ok ==> w.now.res.state == Committed(units)
      ensures ok || Unwritten(old(w.setbacks))
      ensures ok ==> Clean(old(w.setbacks))
    {
      hide SaveOk, Inv, Initial, Legal, Replay, RowGrows;
      EnvAs(g);
      var lands: bool := *;
      if lands {
        w.Known();
        ReservationFacts(w.now);
        OwnKeepsSave(w.now, OnReservation(MoneyEvent.Commit(units)), g, s, v);
        SameRow(old(w.now), w.now, OnReservation(MoneyEvent.Commit(units)));
        w.Do(OnReservation(MoneyEvent.Commit(units)));
      }
      ok := Told(lands);
    }

    // ---------- requests to LOC ----------

    method PrepareSession() returns (r: Reply<Id>)
      requires Ready() && worker && !o.stop && w.now.s.prep.None? && o.finished.None?
      modifies w
      ensures Ready() && Going(old(w.log), old(w.setbacks)) && Moved(old(w.now), w.now)
                && w.now.broker.opens == old(w.now.broker.opens)
      ensures w.now.loc.prepareAsked
      ensures r.Got? ==> w.now.loc.prepared == Granted(r.value)
      ensures r.LocError? && Definitive(r.status) ==> w.now.loc.prepared.Refused?
      ensures !r.Lost? || Unheard(old(w.setbacks))
      ensures Clean(old(w.setbacks))
    {
      hide SaveOk, Inv, Initial, Legal, Replay;
      Env();
      OwnKeepsSave(w.now, AtLoc(AskPrepare), o, s, v);
      w.Do(AtLoc(AskPrepare));
      Env();
      r := *;
      if (r.Got? && w.now.loc.prepared != Granted(r.value))
         || (r.LocError? && Definitive(r.status) && !w.now.loc.prepared.Refused?) {
        r := Lost;
      }
      Note(!r.Lost?, true);
    }

    /** The request for authorization goes out: the operation's own, under the prepared session. */
    method AskAuthorization()
      requires Ready() && worker && o.finished.None?
      requires w.now.s == s && s.prep.Some? && s.session.None?
      modifies w`now, w`log
      ensures Ready() && Going(old(w.log), old(w.setbacks)) && Moved(old(w.now), w.now)
      ensures w.now.broker.opens == old(w.now.broker.opens)
      ensures LocRefused(old(w.now.loc)) ==> LocRefused(w.now.loc)
      ensures LocRefused(w.now.loc) ==> w.now.loc.authorized.Refused?
      ensures s.body.Some? && OpenRequest(w.now.cfg.op, s.prep.value, s.cap, s.body.value) in w.now.loc.openAsked
    {
      hide SaveOk, Inv, Rely, Initial, Legal, Replay, CourseSaved;
      Env();
      w.Known();
      JournalFacts(w.now);
      PreparedFacts(w.now);
      var open := OpenRequest(w.now.cfg.op, s.prep.value, s.cap, s.body.value);
      OwnKeepsSave(w.now, AtLoc(AskOpen(open)), o, s, v);
      w.Do(AtLoc(AskOpen(open)));
    }

    /** A definitive refusal is LOC's answer to the request's id. */
    method OpenAuthorization() returns (r: Reply<Grant>)
      requires Ready() && worker && o.finished.None?
      requires w.now.s == s && s.prep.Some? && s.session.None?
      modifies w
      ensures Ready() && Going(old(w.log), old(w.setbacks)) && Moved(old(w.now), w.now)
      ensures w.now.broker.opens == old(w.now.broker.opens)
      ensures LocRefused(old(w.now.loc)) ==> LocRefused(w.now.loc)
      ensures s.body.Some? && OpenRequest(w.now.cfg.op, s.prep.value, s.cap, s.body.value) in w.now.loc.openAsked
      ensures r.Got? ==> w.now.loc.authorized == Granted(r.value)
      ensures r.LocError? && Definitive(r.status) ==> w.now.loc.authorized.Refused?
      ensures !r.Lost? || Unheard(old(w.setbacks))
      ensures Clean(old(w.setbacks))
    {
      hide SaveOk, Inv, Initial, Legal, Replay, CourseSaved;
      AskAuthorization();
      Env();
      r := *;
      if (r.Got? && w.now.loc.authorized != Granted(r.value))
         || (r.LocError? && Definitive(r.status) && !w.now.loc.authorized.Refused?) {
        r := Lost;
      }
      Note(!r.Lost?, true);
    }

    /** An insufficient-credit answer is final for its refill id. */
    method RefillAuthorization() returns (r: RefillReply)
      requires Ready() && worker && o.finished.None?
      requires w.now.s == s.(endReason := w.now.s.endReason) && w.now.v == v && s.refillId.Some? && s.refill.None?
      requires w.now.course.asks
      modifies w
      ensures Ready() && Going(old(w.log), old(w.setbacks)) && Moved(old(w.now).(course := w.now.course), w.now)
      ensures w.now.course == old(w.now.course).(asks := false)
      ensures RefillRequest(s.refillId.value, s.refillCap, v.units) in w.now.loc.refillAsked
      ensures r.Revised? ==> Issued(w.now.loc.issued, s.refillId.value, r.revision.work, s.refillCap)
      ensures r.InsufficientCredit? ==> s.refillId.value in w.now.loc.declined
      ensures !r.NoRevision? || Unheard(old(w.setbacks))
      ensures Clean(old(w.setbacks))
    {
      hide SaveOk, Inv, Initial, Legal, Replay;
      Env();
      var refill := RefillRequest(s.refillId.value, s.refillCap, v.units);
      OwnKeepsSave(w.now, AtLoc(AskRefill(refill)), o, s, v);
      w.Do(AtLoc(AskRefill(refill)));
      Env();
      r := *;
      if (r.Revised? && !Issued(w.now.loc.issued, s.refillId.value, r.revision.work, s.refillCap))
         || (r.InsufficientCredit? && s.refillId.value !in w.now.loc.declined) {
        r := NoRevision;
      }
      Note(!r.NoRevision?, true);
    }

    /** Notes a look at LOC's account that showed no closed record, or one that is not complete. */
    ghost method NoteRecord(r: Option<SessionStatus>)
      modifies w`setbacks
      ensures Going(w.log, old(w.setbacks)) && ((r.Some? && r.value.closedAt.Some?) || Unrecorded(old(w.setbacks)))
      ensures r.Some? && r.value.closedAt.Some? && !Complete(s, r.value) ==> Odd(old(w.setbacks))
      ensures r.Some? && Complete(s, r.value) ==> w.setbacks == old(w.setbacks)
      ensures Clean(old(w.setbacks))
    {
      if !(r.Some? && r.value.closedAt.Some?) {
        w.setbacks := w.setbacks.(records := w.setbacks.records + 1);
      } else if !Complete(s, r.value) {
        w.setbacks := w.setbacks.(odd := w.setbacks.odd + 1);
      }
    }

    /** A complete status that names this session repeats LOC's record. */
    method GetSession() returns (r: Option<SessionStatus>)
      requires Ready() && s.session.Some?
      modifies w
      ensures Ready() && Going(old(w.log), old(w.setbacks)) && Moved(old(w.now), w.now)
      ensures w.now.broker.opens == old(w.now.broker.opens)
      ensures r.Some? && r.value.session == s.session.value.session && r.value.units.Some? && r.value.billed.Some?
              && r.value.closedAt.Some? && r.value.closedAt.value != 0 && r.value.units.value >= 0 ==>
                w.now.loc.closed == Some(Closure(r.value.units.value, r.value.billed.value, r.value.closedAt.value))
      ensures (r.Some? && r.value.closedAt.Some?) || Unrecorded(old(w.setbacks))
      ensures r.Some? && r.value.closedAt.Some? && !Complete(s, r.value) ==> Odd(old(w.setbacks))
      ensures Clean(old(w.setbacks))
    {
      hide SaveOk, Inv, Rely, Initial, Legal, Replay, RowGrows, CourseSaved;
      Env();
      r := *;
      if r.Some? && r.value.session == s.session.value.session && r.value.units.Some? && r.value.billed.Some?
         && r.value.closedAt.Some? && r.value.closedAt.value != 0 && r.value.units.value >= 0
         && w.now.loc.closed != Some(Closure(r.value.units.value, r.value.billed.value, r.value.closedAt.value)) {
        r := None;
      }
      NoteRecord(r);
    }

    /** A close reply that names this session repeats LOC's record; LOC may have closed even when the reply is lost. */
    method CloseSession() returns (r: Option<CloseReply>)
      requires Ready() && worker && o.finished.None? && s.session.Some? && s.claim.Some?
      requires w.now.s.claim == s.claim && w.now.v.mediaEnded.Some?
      modifies w
      ensures Ready() && Going(old(w.log), old(w.setbacks)) && Moved(old(w.now), w.now)
                && w.now.broker.opens == old(w.now.broker.opens)
      ensures r.Some? && r.value.session == s.session.value.session && r.value.billed.Some? && r.value.closedAt != 0 ==>
                w.now.loc.closed == Some(Closure(r.value.units, r.value.billed.value, r.value.closedAt))
      ensures w.now.loc.closeAsked && (r.Some? || Unheard(old(w.setbacks)))
      ensures r.Some? ==> ClosesClaim(s, r.value) || Odd(old(w.setbacks))
      ensures Clean(old(w.setbacks))
    {
      hide SaveOk, Inv, Rely, Initial, Legal, Replay, CourseSaved;
      Env();
      OwnKeepsSave(w.now, AtLoc(AskClose), o, s, v);
      w.Do(AtLoc(AskClose));
      Env();
      r := *;
      if r.Some? && r.value.session == s.session.value.session && r.value.billed.Some? && r.value.closedAt != 0
         && w.now.loc.closed != Some(Closure(r.value.units, r.value.billed.value, r.value.closedAt)) {
        r := None;
      }
      Note(r.Some?, r.Some? && ClosesClaim(s, r.value));
    }

    // ---------- requests to the broker ----------

    /** A descriptor for this session's grant describes the admitted session. */
    method OpenBroker() returns (r: Option<Descriptor>)
      requires Ready() && worker && o.finished.None?
      requires w.now.s == s && s.dispatched && s.session.Some? && s.broker.None? && s.claim.None? && w.now.course.marked
      requires o.stop ==> w.now.broker.admission.Admitted?
      modifies w
      ensures Ready() && Going(old(w.log), old(w.setbacks)) && JournalKept(old(w.now), w.now)
                && w.now.lock == old(w.now.lock)
      ensures w.now.broker.opens == old(w.now.broker.opens) + 1 && w.now.course.checked == old(w.now.course.checked)
      ensures r.Some? ==> w.now.broker.admission.Admitted? && w.now.broker.admission.session == r.value.session
                          && r.value.work == s.session.value.work
      ensures r.Some? || Unheard(old(w.setbacks))
      ensures r.Some? ==> r.value.liveSchema || Odd(old(w.setbacks))
      ensures Clean(old(w.setbacks))
    {
      hide SaveOk, Inv, Initial, Legal, Replay, RowGrows;
      Env();
      OwnKeepsSave(w.now, AtBroker(OfferOpen(o.stop)), o, s, v);
      w.Do(AtBroker(OfferOpen(o.stop)));
      Env();
      r := *;
      if r.Some? && !(w.now.broker.admission.Admitted? && w.now.broker.admission.session == r.value.session
                      && r.value.work == s.session.value.work) {
        r := None;
      }
      Note(r.Some?, r.Some? && r.value.liveSchema);
    }

    /** A top-up answer names the grant in use; the refusal is durable. */
    method TopUp() returns (r: TopUpReply)
      requires Ready() && worker && o.finished.None?
      requires w.now.s == s.(endReason := w.now.s.endReason) && s.refill.Some? && !s.refillRefused && s.claim.None?
      modifies w
      ensures Ready() && Going(old(w.log), old(w.setbacks)) && Moved(old(w.now), w.now)
                && w.now.broker.opens == old(w.now.broker.opens)
      ensures s.refill.value.work in w.now.broker.topUpSent
      ensures r.ToppedUp? ==> IsActive(w.now.broker, r.work)
      ensures r.TopUpRefused? ==> s.refill.value.work in w.now.broker.refusedTopUps
      ensures !r.NoTopUp? || Unheard(old(w.setbacks))
      ensures r.ToppedUp? ==> r.work == s.refill.value.work || Odd(old(w.setbacks))
      ensures Clean(old(w.setbacks))
    {
      hide SaveOk, Inv, Initial, Legal, Replay;
      Env();
      OwnKeepsSave(w.now, AtBroker(OfferTopUp(s.refill.value.work)), o, s, v);
      w.Do(AtBroker(OfferTopUp(s.refill.value.work)));
      Env();
      r := *;
      if (r.ToppedUp? && !IsActive(w.now.broker, r.work))
         || (r.TopUpRefused? && s.refill.value.work !in w.now.broker.refusedTopUps) {
        r := NoTopUp;
      }
      Note(!r.NoTopUp?, r.ToppedUp? ==> r.work == s.refill.value.work);
    }

    /** A poll of the session; nothing is assumed of the answer. */
    method StatusSession() returns (r: Option<BrokerStatus>)
      requires Synced() && worker && s.broker.Some? && s.session.Some?
      requires Shown(w.now, Projection(o, v))
      modifies w
      ensures Synced() && Going(old(w.log), old(w.setbacks))
      ensures w.now.cfg == old(w.now.cfg) && w.now.broker.opens == old(w.now.broker.opens)
      ensures w.now.course == if r.Some? then old(w.now.course).(polled := r) else old(w.now.course)
      ensures Shown(w.now, Projection(o, v))
      ensures r.Some? || Unheard(old(w.setbacks))
      ensures r.Some? ==> Sound(r.value) || Odd(old(w.setbacks))
      ensures Clean(old(w.setbacks))
    {
      hide SaveOk, Inv, Rely, Initial, Legal, Replay, CourseSaved;
      Env();
      r := *;
      if r.Some? {
        HearStatusSave(w.now, o, s, v, r.value);
        w.DoLock(HearStatus(r.value));
      }
      Note(r.Some?, r.Some? && Sound(r.value));
    }

    /** Asks the broker to end the session, for the saved reason; it may end even when the reply is lost. */
    method EndBroker() returns (ok: bool)
      requires Ready() && worker && o.finished.None? && s.broker.Some? && s.claim.None? && s.endReason != NoReason
      requires w.now.s == s
      requires s.refillId.Some? ==> s.refillRefused
      modifies w
      ensures Ready() && Going(old(w.log), old(w.setbacks)) && Moved(old(w.now), w.now)
                && w.now.broker.opens == old(w.now.broker.opens)
      ensures s.endReason in w.now.broker.endAsked
      ensures Clean(old(w.setbacks))
    {
      hide SaveOk, Inv, Rely, Initial, Legal, Replay, CourseSaved;
      Env();
      OwnKeepsSave(w.now, AtBroker(AskEnd(s.endReason)), o, s, v);
      w.Do(AtBroker(AskEnd(s.endReason)));
      Env();
      ok := *;
    }

    /** A terminal settlement, after the client's own checks. */
    method LookupSettlement(id: Id, expected: Option<Id>) returns (r: Option<Claim>)
      requires Ready()
      modifies w
      ensures Ready() && Going(old(w.log), old(w.setbacks)) && Moved(old(w.now), w.now)
                && w.now.broker.opens == old(w.now.broker.opens)
      ensures r.Some? ==> r.value.closed && r.value.outputSeconds && (r.value.session == id || r.value.gateway == id)
                          && (expected.Some? ==> r.value.work == expected.value) && Authentic(w.now, s, r.value)
      ensures r.Some? || Unheard(old(w.setbacks))
      ensures r.Some? && s.session.Some? && s.prep.Some? ==> Accepted(s, r.value) || Odd(old(w.setbacks))
      ensures Clean(old(w.setbacks))
    {
      hide SaveOk, Inv, Rely, Initial, Legal, Replay, RowGrows, CourseSaved;
      Env();
      var reply: Option<Claim> := *;
      r := Checked(reply, id, expected);
      Note(r.Some?, r.Some? && s.session.Some? && s.prep.Some? && Accepted(s, r.value));
    }

    /** The client's checks of a settlement: closed, for this session, in output seconds, under the expected grant. */
    function Checked(reply: Option<Claim>, id: Id, expected: Option<Id>): (r: Option<Claim>)
      reads this`s, w`now
      ensures r.Some? ==> r.value.closed && r.value.outputSeconds && (r.value.session == id || r.value.gateway == id)
                          && (expected.Some? ==> r.value.work == expected.value) && Authentic(w.now, s, r.value)
    {
      if !(reply.Some? && reply.value.closed) then None else
      var c := reply.value;
      if (c.session != id && c.gateway != id) || !c.outputSeconds || (expected.Some? && c.work != expected.value) then
        None
      else
        var signed: bool := s.session.Some? && s.prep.Some? && (c.gateway == s.prep.value || c.session == s.prep.value)
                            && (c.work == s.session.value.work || (s.refill.Some? && c.work == s.refill.value.work));
        if signed && !Terminal(w.now.broker, c) then None else reply
    }

    /** The exchange record of the open request, after the client's own checks; what it says is so. */
    method LookupOpen() returns (r: Option<Exchange>)
      requires Ready()
      modifies w
      ensures Ready() && Going(old(w.log), old(w.setbacks)) && Moved(old(w.now), w.now)
      ensures w.now.broker.opens == old(w.now.broker.opens)
      ensures r.Some? && r.value.session.Some? ==>
                w.now.broker.admission.Admitted? && w.now.broker.admission.session == r.value.session.value
      ensures r.Some? && (r.value.outcome.AdmissionRejected? || r.value.outcome.NotAdmittedOutcome?) ==>
                !r.value.session.Some?
      ensures r.Some? || Unheard(old(w.setbacks))
      ensures Clean(old(w.setbacks))
    {
      hide SaveOk, Inv, Rely, Initial, Legal, Replay, RowGrows, CourseSaved;
      Env();
      r := *;
      if r.Some? && r.value.session.Some?
         && (r.value.outcome.AdmissionRejected? || r.value.outcome.NotAdmittedOutcome?
             || !w.now.broker.admission.Admitted? || w.now.broker.admission.session != r.value.session.value) {
        r := None;
      }
      Note(r.Some?, true);
    }

    // ---------- terminal view and projection ----------

    method ApplyLiveTerminalView(units: int)
      modifies this`v
      ensures v == TerminalView(s, old(v), units)
    {
      v := v.(units := Some(units), status := Ended, closeReason := s.endReason);
      if s.claim.Some? {
        if s.claim.value.closeReason != NoReason {
          v := v.(closeReason := s.claim.value.closeReason);
        }
        if s.claim.value.output != NoOutput {
          v := v.(output := s.claim.value.output);
        }
        if s.claim.value.failure != NoCode || (v.failure != KeyGrantExpired && v.failure != RefillRefusedCode) {
          v := v.(failure := s.claim.value.failure);
        }
      }
      if FailingReason(v.closeReason) {
        v := v.(status := Failed);
      }
      if v.failure != NoCode || v.output == Stalled {
        v := v.(status := Failed);
      }
    }

    /** Updates the stream row, and commits the reservation once the operation is finished. */
    method ProjectLive(last: bool) returns (ok: bool)
      requires ReadyAs(o.(finished := None)) && worker && s.session.Some? && w.now.s.session.Some?
      requires o.finished.None? ==> w.now.course.open
      requires o.finished.Some? ==>
                 w.now.loc.closed.Some? && o.finished.value == w.now.loc.closed.value.at
                     && v.units == Some(w.now.loc.closed.value.units)
      modifies w
      ensures ReadyAs(o.(finished := None)) && Going(old(w.log), old(w.setbacks))
      ensures PeersGrow(old(w.now).(course := w.now.course), w.now) && JournalKept(old(w.now), w.now)
      ensures w.now.course == old(w.now.course) || (last && w.now.course == old(w.now.course).(open := false))
      ensures ReservationGrows(old(w.now.res), w.now.res)
      ensures ok ==> Shown(w.now, Projection(o, v))
      ensures ok && !w.now.strayed ==>
                && w.now.stream.closeReason == v.closeReason && w.now.stream.locClosed == o.finished
                && w.now.stream.ended == (if v.mediaEnded.Some? then v.mediaEnded else o.finished)
                && w.now.stream.status == if o.finished.None? && v.mediaEnded.None?
                                          then (if v.status == Provisional then Provisional else Live) else v.status
      ensures ok && o.finished.Some? ==> w.now.res.state == Committed(v.units)
      ensures ok || Unwritten(old(w.setbacks))
      ensures w.now.broker.opens == old(w.now.broker.opens) && w.now.cfg == old(w.now.cfg)
      ensures ok ==> Clean(old(w.setbacks))
    {
      hide SaveOk, Inv, Rely, Initial, Legal, Replay, CourseSaved;
      ok := WriteStream(Project(Projection(o, v), last), o.(finished := None));
      if ok && o.finished.Some? {
        ok := CommitReservation(v.units, o.(finished := None));
      }
    }

    /** Media has ended; neither usage nor accounting is final yet. */
    method ObserveLiveEnd() returns (ok: bool)
      requires Ready() && worker && o.finished.None? && s.session.Some? && (s.claim.Some? || s.endReason != NoReason)
      requires w.now.course.open && w.now.s.session.Some?
      modifies this, w
      ensures Ready() && Going(old(w.log), old(w.setbacks)) && PeersGrow(old(w.now).(course := w.now.course), w.now)
      ensures JournalKept(old(w.now), w.now)
      ensures w.now.course == old(w.now.course).(open := w.now.course.open)
      ensures ReservationGrows(old(w.now.res), w.now.res)
      ensures o == old(o).(state := AccountingPending) && s == old(s)
      ensures v == old(v).(mediaEnded := v.mediaEnded) && v.mediaEnded.Some?
      ensures old(v.mediaEnded).Some? ==> v == old(v)
      ensures if ok then Shown(w.now, Projection(o, v)) else Unwritten(old(w.setbacks))
      ensures ok ==> Clean(old(w.setbacks))
    {
      hide SaveOk, Inv, Rely, Initial, Legal, Replay, RowGrows, CourseSaved;
      if v.mediaEnded.None? {
        var at: Time := *;
        MediaEndSave(w.now, o, s, v, at);
        v := v.(mediaEnded := Some(at));
      } else {
        StateSave(w.now, o, s, v, AccountingPending);
      }
      o := o.(state := AccountingPending);
      ok := ProjectLive(true);
    }

    method FinalizeLiveProjection(units: int, at: Time) returns (err: Err)
      requires Ready() && worker && o.finished.None? && s.session.Some? && w.now.s.session.Some?
      requires o.state == LocSettled || o.state == BrokerSettled
      requires w.now.loc.closed.Some? && w.now.loc.closed.value.units == units && w.now.loc.closed.value.at == at
      requires w.now.res.billed == Some(w.now.loc.closed.value.billed)
      requires w.now.s.claim.Some? ==> s.endReason == w.now.s.endReason
      requires o.state == BrokerSettled ==> w.now.loc.closeAsked && s.claim.Some? && s.claim.value.units == units
      modifies this, w
      ensures o.stop == old(o.stop)
      ensures Done(err) && Going(old(w.log), old(w.setbacks)) && PeersGrow(old(w.now), w.now)
                && JournalKept(old(w.now), w.now)
      ensures s == old(s) && v == TerminalView(s, old(v), units)
      ensures err.Fine? ==> Settled() && o == old(o).(finished := Some(at))
      ensures !err.Fine? ==> o == old(o).(state := AccountingPending)
      ensures err.Fine? || Unwritten(old(w.setbacks))
      ensures err.Fine? ==> Clean(old(w.setbacks))
    {
      hide SaveOk, Inv, Rely, Initial, Legal, Replay, RowGrows, CourseSaved;
      TerminalViewSave(w.now, o, s, v, units);
      TerminalViewStable(s, v, units, units);
      ApplyLiveTerminalView(units);
      o := o.(finished := Some(at));
      var ok := ProjectLive(false);
      if !ok {
        o := o.(finished := None);
        StateSave(w.now, o, s, v, AccountingPending);
        o := o.(state := AccountingPending);
        return Trouble;
      }
      SettledSave(w.now, o, s, v);
      return Fine;
    }

    // ---------- settling ----------

    /** LOC's closed record finishes the operation; anything else leaves it pending. */
    method RecoverClosedLive() returns (recovered: bool, err: Err)
      requires Ready() && worker && o.finished.None? && s.session.Some? && w.now.s.session.Some?
      requires w.now.s.claim.Some? ==> s.endReason == w.now.s.endReason
      requires s.broker.None? ==> o.state != Active
      modifies this, w
      ensures o.stop == old(o.stop)
      ensures Done(err) && Going(old(w.log), old(w.setbacks)) && PeersGrow(old(w.now), w.now)
                && JournalKept(old(w.now), w.now)
      ensures !recovered ==> o == old(o) && s == old(s) && v == old(v)
      ensures recovered ==>
                && w.now.loc.closed.Some?
                && s == old(s).(endReason := if old(s).broker.None? && old(s).endReason == NoReason then OpenFailed
                                else old(s).endReason)
                && v == TerminalView(s, old(v), w.now.loc.closed.value.units)
      ensures recovered && err.Fine? ==> Settled() && o.state == LocSettled
      ensures recovered && !err.Fine? ==> o == old(o).(state := AccountingPending)
      ensures !recovered && err.Fine? ==> Unrecorded(old(w.setbacks))
      ensures !err.Fine? ==> Odd(old(w.setbacks)) || Unwritten(old(w.setbacks))
      ensures err.Fine? ==> Clean(old(w.setbacks))
    {
      hide SaveOk, Inv, Rely, Initial, Legal, Replay, RowGrows, CourseSaved, TerminalView;
      var status := GetSession();
      if !(status.Some? && status.value.closedAt.Some?) {
        return false, Fine;
      }
      var st := status.value;
      if st.session != s.session.value.session || !st.units.Some? || st.units.value < 0 || !st.billed.Some?
          || st.closedAt.value == 0 {
        return false, Trouble;
      }
      var ok := MarkSettled(st.billed.value);
      if !ok {
        return false, Trouble;
      }
      err := FinishByLoc(st.units.value, st.closedAt.value);
      recovered := true;
    }

    /** The second half of the recovery: LOC's closed record, already marked settled, is final. */
    method FinishByLoc(units: int, at: Time) returns (err: Err)
      requires Ready() && worker && o.finished.None? && s.session.Some? && w.now.s.session.Some?
      requires w.now.s.claim.Some? ==> s.endReason == w.now.s.endReason
      requires s.broker.None? ==> o.state != Active
      requires w.now.loc.closed.Some? && w.now.loc.closed.value.units == units && w.now.loc.closed.value.at == at
      requires w.now.res.billed == Some(w.now.loc.closed.value.billed)
      modifies this, w
      ensures o.stop == old(o.stop)
      ensures Done(err) && Going(old(w.log), old(w.setbacks)) && PeersGrow(old(w.now), w.now)
                && JournalKept(old(w.now), w.now)
      ensures s == old(s).(endReason := if old(s).broker.None? && old(s).endReason == NoReason then OpenFailed
                           else old(s).endReason)
      ensures v == TerminalView(s, old(v), units)
      ensures err.Fine? ==> Settled() && o.state == LocSettled
      ensures !err.Fine? ==> o == old(o).(state := AccountingPending)
      ensures err.Fine? || Unwritten(old(w.setbacks))
      ensures err.Fine? ==> Clean(old(w.setbacks))
    {
      hide SaveOk, Inv, Rely, Initial, Legal, Replay, RowGrows, CourseSaved, TerminalView;
      StateSave(w.now, o, s, v, LocSettled);
      o := o.(state := LocSettled);
      if s.broker.None? && s.endReason == NoReason {
        w.Known();
        OpenFailedSave(w.now, o, s, v);
        s := s.(endReason := OpenFailed);
      }
      err := FinalizeLiveProjection(units, at);
    }

    /** Closes LOC's account on the claim; a lost or duplicate close is recovered from LOC's record. */
    method SettleClaim() returns (err: Err)
      requires Ready() && worker && o.finished.None? && s.claim.Some? && o.state != Active
      requires w.now.s.claim.Some? ==> s.endReason == w.now.s.endReason
      requires s.broker.None? ==> s.endReason != NoReason
      requires s.session.Some?
      requires w.now.s.session.Some?
      requires w.now.s.claim == s.claim && w.now.v.mediaEnded.Some?
      modifies this, w
      ensures o.stop == old(o.stop)
      ensures Done(err) && Going(old(w.log), old(w.setbacks)) && w.now.broker.opens == old(w.now.broker.opens)
      ensures s == old(s) && o.state != Active
      ensures v == old(v) || exists units :: v == TerminalView(s, old(v), units)
      ensures err.Fine? ==> Settled()
      ensures JournalKept(old(w.now), w.now) && w.now.loc.closeAsked
      ensures old(w.now.broker.endAsked) <= w.now.broker.endAsked
      ensures err.Fine? ==> v == TerminalView(s, old(v), w.now.loc.closed.value.units)
      ensures err.Fine? ==> o.state == BrokerSettled || Unheard(old(w.setbacks))
      ensures err.Fine? || Unsettled(old(w.setbacks))
      ensures err.Fine? ==> Clean(old(w.setbacks))
    {
      hide SaveOk, Inv, Rely, TerminalView, Initial, Legal, Replay;
      var closed := CloseSession();
      if !closed.Some? {
        var recovered, recoveryErr := RecoverClosedLive();
        if recovered || !recoveryErr.Fine? {
          return recoveryErr;
        }
        return Trouble;
      }
      var c := closed.value;
      if c.session != s.session.value.session || c.units != s.claim.value.units || !c.billed.Some? || c.closedAt == 0 {
        return Trouble;
      }
      var ok := MarkSettled(c.billed.value);
      if !ok {
        return Trouble;
      }
      StateSave(w.now, o, s, v, BrokerSettled);
      o := o.(state := BrokerSettled);
      err := FinalizeLiveProjection(s.claim.value.units, c.closedAt);
    }

    /** With terminal evidence in hand: record the media end, save, then settle. */
    method FinishLive() returns (err: Err)
      requires Ready() && worker && o.finished.None? && s.claim.Some?
      requires w.now.s.claim.Some? ==> s.endReason == w.now.s.endReason
      requires w.now.course.open && w.now.s.session.Some? && s.session.Some?
      modifies this, w
      ensures o.stop == old(o.stop)
      ensures Done(err) && Going(old(w.log), old(w.setbacks)) && w.now.broker.opens == old(w.now.broker.opens)
      ensures s == old(s) && v.mediaEnded.Some? && o.state != Active
      ensures Outcome(s, v) == Outcome(old(s), old(v))
      ensures err.Fine? ==> Settled()
      ensures old(w.now.broker.endAsked) <= w.now.broker.endAsked
      ensures w.now.loc.closeAsked || Unwritten(old(w.setbacks))
      ensures err.Fine? ==>
                && FinalView(s, old(v), v, w.now.loc.closed.value.units)
                && w.now.s == s && w.now.v.mediaEnded.Some? && w.now.op.state == AccountingPending
                && (o.state == BrokerSettled || Unheard(old(w.setbacks)))
      ensures err.Fine? || Unsettled(old(w.setbacks))
      ensures err.Fine? ==> Clean(old(w.setbacks))
    {
      hide SaveOk, Inv, Rely, TerminalView, Initial, Legal, Replay, Outcome;
      var ok := RecordEnd();
      if !ok {
        return Trouble;
      }
      ghost var seen := v;
      err := SettleClaim();
      OutcomeAgain(s, seen, v);
      if err.Fine? {
        FinalAgain(s, s, old(v), seen, v, s.claim.value.units, w.now.loc.closed.value.units);
      }
    }

    /** The end of media shows, with the claim's evidence, and is saved before LOC is asked to close. */
    method RecordEnd() returns (ok: bool)
      requires Ready() && worker && o.finished.None? && s.claim.Some?
      requires w.now.s.claim.Some? ==> s.endReason == w.now.s.endReason
      requires w.now.course.open && w.now.s.session.Some? && s.session.Some?
      modifies this, w
      ensures Ready() && Going(old(w.log), old(w.setbacks)) && w.now.broker.opens == old(w.now.broker.opens)
      ensures old(w.now.broker.endAsked) <= w.now.broker.endAsked
      ensures s == old(s) && o == old(o).(state := AccountingPending) && v.mediaEnded.Some?
      ensures Outcome(s, v) == Outcome(old(s), old(v)) && FinalView(s, old(v), v, s.claim.value.units)
      ensures s.broker.None? ==> s.endReason != NoReason
      ensures if ok then Saved() else Unwritten(old(w.setbacks))
      ensures ok ==> Clean(old(w.setbacks))
    {
      hide SaveOk, Inv, Rely, TerminalView, Initial, Legal, Replay, Outcome, RowGrows, CourseSaved;
      ClaimFacts(w.now, o, s, v);
      TerminalViewSave(w.now, o, s, v, s.claim.value.units);
      ApplyLiveTerminalView(s.claim.value.units);
      OutcomeStable(s, old(v), v, s.claim.value.units);
      FinalMedia(s, old(v), v, s.claim.value.units);
      ok := ObserveLiveEnd();
      OutcomeIgnoresMedia(s, old(v), s.claim.value.units, v);
      if !ok {
        return;
      }
      ok := Save();
    }

    /** Terminal evidence for the session's own grant or its pending successor, and for nothing else. */
    method LookupLiveClaim() returns (claim: Option<Claim>)
      requires Ready() && s.session.Some? && s.prep.Some?
      modifies w
      ensures Ready() && Going(old(w.log), old(w.setbacks)) && Moved(old(w.now), w.now)
                && w.now.broker.opens == old(w.now.broker.opens)
      ensures claim.Some? ==> Terminal(w.now.broker, claim.value) && Accepted(s, claim.value)
      ensures claim.Some? || Unheard(old(w.setbacks)) || Odd(old(w.setbacks))
      ensures Clean(old(w.setbacks))
    {
      hide SaveOk, Inv, Rely, Initial, Legal, Replay, RowGrows, CourseSaved;
      var id := if s.broker.Some? then s.broker.value.session else s.prep.value;
      var found := LookupSettlement(id, None);
      if !found.Some? {
        return None;
      }
      if found.value.work != s.session.value.work && (!s.refill.Some? || found.value.work != s.refill.value.work) {
        return None;
      }
      if found.value.gateway != s.prep.value {
        return None;
      }
      return found;
    }

    /** Without evidence from the broker, LOC's closed record alone finishes the operation. */
    method FinishByRecord() returns (err: Err)
      requires Ready() && worker && o.finished.None? && s.session.Some? && w.now.s.session.Some?
      requires w.now.s.claim.Some? ==> s.endReason == w.now.s.endReason
      requires s.broker.None? ==> o.state != Active
      modifies this, w
      ensures o.stop == old(o.stop)
      ensures Done(err) && Going(old(w.log), old(w.setbacks)) && w.now.broker.opens == old(w.now.broker.opens)
      ensures PeersGrow(old(w.now), w.now) && JournalKept(old(w.now), w.now)
      ensures err.Fine? ==>
                && Settled() && o.state == LocSettled
                && FinalView(s, old(v), v, w.now.loc.closed.value.units)
                && s == old(s).(endReason := if old(s).broker.None? && old(s).endReason == NoReason then OpenFailed
                                else old(s).endReason)
      ensures s == old(s).(endReason := s.endReason)
      ensures old(s.broker.Some? || s.endReason != NoReason) ==> s == old(s)
      ensures o == old(o) || o.state == LocSettled || o.state == AccountingPending
      ensures err.Fine? || Unsettled(old(w.setbacks))
      ensures err.Fine? ==> Clean(old(w.setbacks))
    {
      hide SaveOk, Inv, Rely, Initial, Legal, Replay, RowGrows, CourseSaved, TerminalView, Outcome;
      var recovered, recoveryErr := RecoverClosedLive();
      if recovered && recoveryErr.Fine? {
        FinalMedia(s, old(v), v, w.now.loc.closed.value.units);
      }
      if recovered || !recoveryErr.Fine? {
        return recoveryErr;
      }
      return Trouble;
    }

    /** The claim in hand is saved before it is settled. */
    method SaveAndFinish() returns (err: Err)
      requires Ready() && worker && o.finished.None? && s.session.Some? && s.claim.Some?
      requires w.now.s.claim.None? && w.now.s.session.Some?
      modifies this, w
      ensures o.stop == old(o.stop)
      ensures Done(err) && Going(old(w.log), old(w.setbacks)) && w.now.broker.opens == old(w.now.broker.opens)
      ensures old(w.now.broker.endAsked) <= w.now.broker.endAsked
      ensures s == old(s) && (o == old(o) || o.state != Active)
      ensures err.Fine? ==>
                && Settled() && FinalView(s, old(v), v, w.now.loc.closed.value.units) && w.now.s == s
                && (o.state == BrokerSettled || Unheard(old(w.setbacks)))
      ensures w.now.loc.closeAsked || Unwritten(old(w.setbacks))
      ensures err.Fine? || Unsettled(old(w.setbacks))
      ensures err.Fine? ==> Clean(old(w.setbacks))
    {
      hide SaveOk, Inv, Rely, Initial, Legal, Replay, RowGrows, CourseSaved, TerminalView, Outcome;
      var ok := Save();
      if !ok {
        return Trouble;
      }
      OpenSaved(old(w.now), w.now, o, s);
      err := FinishLive();
    }

    /** The evidence becomes the pass's claim; only its accounting is left. */
    method TakeEvidence(claim: Claim)
      requires Ready() && worker && o.finished.None? && s.session.Some? && w.now.s.session.Some?
      requires s.claim.None? && w.now.s.claim.None? && s.endReason != NoReason && (s.refillId.Some? ==> s.refill.Some?)
      requires w.now.s.broker.Some? ==> w.now.s.endReason != NoReason && w.now.s.endReason in w.now.broker.endAsked
      requires Terminal(w.now.broker, claim)
      modifies this`o, this`s
      ensures Ready() && o == old(o).(state := AccountingPending) && s == old(s).(claim := Some(claim))
    {
      hide SaveOk, Inv, Initial, Legal, Replay;
      ClaimSave(w.now, o, s, v, claim);
      s := s.(claim := Some(claim));
      o := o.(state := AccountingPending);
    }

    /** Saves the terminal claim, or LOC's closed record, whichever can be had; then finishes. */
    method FinishOnEvidence() returns (err: Err)
      requires Ready() && worker && o.finished.None? && s.session.Some? && s.prep.Some? && o.state != Active
      requires s.claim.None? && w.now.s.claim.None? && s.endReason != NoReason && (s.refillId.Some? ==> s.refill.Some?)
      requires w.now.s.session.Some?
      requires w.now.s.broker.Some? ==> w.now.s.endReason != NoReason && w.now.s.endReason in w.now.broker.endAsked
      modifies this, w
      ensures o.stop == old(o.stop)
      ensures Done(err) && Going(old(w.log), old(w.setbacks)) && w.now.broker.opens == old(w.now.broker.opens)
      ensures err.Fine? ==> Settled()
      ensures s == old(s).(claim := s.claim) && o.state != Active
      ensures old(w.now.broker.endAsked) <= w.now.broker.endAsked
      ensures err.Fine? ==> FinalView(s, old(v), v, w.now.loc.closed.value.units)
      ensures err.Fine? && s.claim.Some? ==> w.now.s == s
      ensures err.Fine? ==>
                (s.claim.Some? && o.state == BrokerSettled) || Unheard(old(w.setbacks)) || Odd(old(w.setbacks))
      ensures s.claim.Some? || Unheard(old(w.setbacks)) || Odd(old(w.setbacks))
      ensures err.Fine? || Unsettled(old(w.setbacks))
      ensures err.Fine? ==> Clean(old(w.setbacks))
    {
      hide SaveOk, Inv, Rely, Initial, Legal, Replay, RowGrows, CourseSaved, TerminalView, Outcome;
      var claim := LookupLiveClaim();
      if !claim.Some? {
        err := FinishByRecord();
        return;
      }
      TakeEvidence(claim.value);
      err := SaveAndFinish();
    }

    /** Unless the media end is recorded, the session shows that it is ending. */
    method MarkEnding()
      requires Ready() && worker && o.finished.None? && s.session.Some? && s.prep.Some? && s.endReason != NoReason
      requires w.now.s.claim.None?
      modifies this`o, this`v
      ensures Ready() && o.state != Active && v == Marked(s, old(v))
      ensures if old(v).mediaEnded.None?
              then v == old(v).(status := Closing, closeReason := s.endReason)
              else v == old(v)
      ensures o == if old(v).mediaEnded.None? then old(o).(state := OpState.Ending) else old(o)
    {
      hide SaveOk, Inv, Initial, Legal, Replay;
      MediaFacts(w.now, o, s, v);
      if v.mediaEnded.None? {
        StateSave(w.now, o, s, v, OpState.Ending);
        o := o.(state := OpState.Ending);
        ViewSave(w.now, o, s, v, v.(status := Closing, closeReason := s.endReason));
        v := v.(status := Closing, closeReason := s.endReason);
      }
    }

    /** Saves that the session is ending, before anyone is told. */
    method SaveEnding() returns (ok: bool)
      requires Ready() && worker && o.finished.None? && s.session.Some? && s.prep.Some? && s.endReason != NoReason
      requires s.claim.None? && w.now.s.claim.None?
      modifies this`o, this`v, w
      ensures Ready() && Going(old(w.log), old(w.setbacks)) && w.now.broker.opens == old(w.now.broker.opens)
      ensures o.finished.None? && o.stop == old(o.stop) && o.state != Active && v == Marked(s, old(v))
      ensures o == if old(v).mediaEnded.None? then old(o).(state := OpState.Ending) else old(o)
      ensures if ok then Saved() else Unwritten(old(w.setbacks))
      ensures ok ==> Clean(old(w.setbacks))
    {
      hide SaveOk, Inv, Rely, Initial, Legal, Replay, RowGrows, CourseSaved, TerminalView, Outcome;
      MarkEnding();
      ok := Save();
    }

    /** Ends the broker session, fetches its terminal evidence, and finishes. */
    method EndLive() returns (err: Err)
      requires Ready() && worker && o.finished.None? && s.session.Some? && s.prep.Some? && s.endReason != NoReason
      requires s.claim.None? && w.now.s.claim.None? && (s.refillId.Some? ==> s.refill.Some? && s.refillRefused)
      requires w.now.s.session.Some?
      modifies this, w
      ensures o.stop == old(o.stop)
      ensures Done(err) && Going(old(w.log), old(w.setbacks)) && w.now.broker.opens == old(w.now.broker.opens)
      ensures err.Fine? ==> Settled()
      ensures s == old(s).(claim := s.claim) && o.state != Active
      ensures s.broker.Some? ==> s.endReason in w.now.broker.endAsked || Unwritten(old(w.setbacks))
      ensures err.Fine? ==> FinalView(s, Marked(old(s), old(v)), v, w.now.loc.closed.value.units)
      ensures err.Fine? && s.claim.Some? ==> w.now.s == s
      ensures err.Fine? ==>
                (s.claim.Some? && o.state == BrokerSettled) || Unheard(old(w.setbacks)) || Odd(old(w.setbacks))
      ensures err.Fine? || Unsettled(old(w.setbacks))
      ensures err.Fine? ==> Clean(old(w.setbacks))
    {
      hide SaveOk, Inv, Rely, Initial, Legal, Replay, RowGrows, CourseSaved, TerminalView, Outcome;
      var ok := SaveEnding();
      if !ok {
        return Trouble;
      }
      if s.broker.Some? {
        var ended := EndBroker();
      }
      err := FinishOnEvidence();
    }

    /** The customer's stop ends media that never started; LOC still finalizes the accounting. */
    method EndUnopened(output: OutputState)
      requires Ready() && worker && o.finished.None? && s.session.Some? && s.endReason == GatewayClose
      requires w.now.s.claim.None?
      requires w.now.course.open && w.now.s.session.Some?
      modifies this, w
      ensures o.stop == old(o.stop)
      ensures Ready() && Going(old(w.log), old(w.setbacks)) && w.now.broker.opens == old(w.now.broker.opens)
      ensures s == old(s) && o == old(o).(state := AccountingPending) && v == Unopened(old(v), output, v.mediaEnded)
      ensures v.status == Ended && v.closeReason == GatewayClose && v.output == output && v.mediaEnded.Some?
      ensures v.mediaEnded.Some?
      ensures Shown(w.now, Projection(o, v)) || Unwritten(old(w.setbacks))
    {
      hide SaveOk, Inv, Rely, Initial, Legal, Replay, RowGrows, CourseSaved;
      ViewSave(w.now, o, s, v, v.(status := Ended, closeReason := GatewayClose, output := output));
      v := v.(status := Ended, closeReason := GatewayClose, output := output);
      var ok := ObserveLiveEnd();
    }

    /**
     * A stop seen before any broker descriptor. Nothing is sent that could admit a session; the caller may replay the
     * open only when the exchange record shows the session already exists. `said` is that record, if it was asked for.
     */
    method StopUnopenedLive() returns (existing: bool, err: Err, ghost said: Option<Exchange>)
      requires Ready() && worker && o.finished.None? && o.stop
      requires s == w.now.s && o.state == w.now.op.state
      requires s.session.Some? && s.prep.Some? && s.broker.None? && s.claim.None?
      requires w.now.course.open
      modifies this, w
      ensures o.stop == old(o.stop)
      ensures Going(old(w.log), old(w.setbacks)) && w.now.broker.opens == old(w.now.broker.opens)
      ensures s == old(s).(endReason := GatewayClose, claim := s.claim)
      ensures existing ==>
                && err.Fine? && Ready() && o == old(o) && v == old(v) && s.claim.None? && s.dispatched
                && v.mediaEnded.None?
                && w.now.broker.admission.Admitted? && w.now.s == old(s) && w.now.lock == old(w.now.lock)
                && w.now.course == old(w.now.course)
      ensures !existing ==> Done(err) && (err.Fine? ==> Settled())
      ensures existing ==> said.Some?
      ensures said.Some? ==> old(s.dispatched && v.mediaEnded.None?) && Unrecorded(old(w.setbacks))
      ensures said.Some? ==> Heeded(said.value.outcome, said.value.session, old(o), old(v), existing, err)
      ensures said.Some? && said.value.outcome.SettledOutcome? && !err.Fine? ==>
                Unheard(old(w.setbacks)) || Unsettled(old(w.setbacks))
      ensures said.None? && err.Fine? ==>
                o.state == LocSettled && FinalView(s, old(v), v, w.now.loc.closed.value.units)
      ensures said.None? && !err.Fine? ==>
                || Odd(old(w.setbacks)) || Unwritten(old(w.setbacks))
                || (Unrecorded(old(w.setbacks))
                    && (if old(s.dispatched && v.mediaEnded.None?)
                        then Unheard(old(w.setbacks)) && o == old(o) && v == old(v)
                        else (&& o == old(o).(state := AccountingPending)
                              && v == Unopened(old(v), old(v).output, v.mediaEnded))))
      ensures err.Fine? ==> Clean(old(w.setbacks))
    {
      hide SaveOk, Inv, Rely, Initial, Legal, Replay, RowGrows, CourseSaved, TerminalView, Outcome;
      w.Known();
      JournalFacts(w.now);
      SyncedFacts(w.now, s);
      EndSave(w.now, o, s, v, GatewayClose);
      s := s.(endReason := GatewayClose);
      said := None;
      var recovered, recoveryErr := RecoverClosedLive();
      if recovered && recoveryErr.Fine? {
        FinalMedia(s, old(v), v, w.now.loc.closed.value.units);
      }
      if recovered || !recoveryErr.Fine? {
        return false, recoveryErr, None;
      }
      if !s.dispatched || v.mediaEnded.Some? {
        EndUnopened(v.output);
        return false, Trouble, None;
      }
      existing, err, said := HeedExchange();
    }

    /** The exchange record of an open that was sent decides whether it is followed up. */
    method HeedExchange() returns (existing: bool, err: Err, ghost said: Option<Exchange>)
      requires Ready() && worker && o.finished.None? && s.endReason == GatewayClose
      requires w.now.s == s.(endReason := w.now.s.endReason) && o.state != Active
      requires s.session.Some? && s.prep.Some? && s.broker.None? && s.claim.None? && NoRefill(s)
      requires w.now.course.open
      modifies this, w
      ensures o.stop == old(o.stop)
      ensures Going(old(w.log), old(w.setbacks)) && w.now.broker.opens == old(w.now.broker.opens)
      ensures s == old(s).(claim := s.claim)
      ensures existing ==>
                && Ready() && s == old(s) && w.now.broker.admission.Admitted?
                && w.now.s == old(w.now.s) && w.now.lock == old(w.now.lock) && w.now.course == old(w.now.course)
      ensures !existing ==> Done(err) && (err.Fine? ==> Settled())
      ensures said.None? ==>
                && !existing && !err.Fine? && Unheard(old(w.setbacks))
                && o == old(o) && s == old(s) && v == old(v)
      ensures said.Some? ==> Heeded(said.value.outcome, said.value.session, old(o), old(v), existing, err)
      ensures said.Some? && said.value.outcome.SettledOutcome? && !err.Fine? ==>
                Unheard(old(w.setbacks)) || Unsettled(old(w.setbacks))
      ensures err.Fine? ==> Clean(old(w.setbacks))
    {
      hide SaveOk, Inv, Rely, Initial, Legal, Replay, RowGrows, CourseSaved, TerminalView, Outcome;
      existing := false;
      var outcome := LookupOpen();
      said := outcome;
      if !outcome.Some? {
        return false, Trouble, None;
      }
      match outcome.value.outcome
      case AdmissionRejected | NotAdmittedOutcome =>
        EndUnopened(Waiting);
        err := Trouble;
      case SettledOutcome =>
        err := FinishUnopened();
      case InFlight | AccountingPendingOutcome =>
        existing := outcome.value.session.Some?;
        err := if existing then Fine else Trouble;
      case OtherOutcome =>
        err := Trouble;
    }

    /** The exchange was settled without a descriptor: its evidence finishes the operation. */
    method FinishUnopened() returns (err: Err)
      requires Ready() && worker && o.finished.None? && s.endReason == GatewayClose
      requires w.now.s == s.(endReason := w.now.s.endReason) && o.state != Active
      requires s.session.Some? && s.prep.Some? && s.broker.None? && s.claim.None? && NoRefill(s)
      requires w.now.course.open
      modifies this, w
      ensures o.stop == old(o.stop)
      ensures Done(err) && Going(old(w.log), old(w.setbacks)) && w.now.broker.opens == old(w.now.broker.opens)
      ensures s == old(s).(claim := s.claim)
      ensures err.Fine? ==> Settled() && s.claim.Some? && FinalView(s, old(v), v, w.now.loc.closed.value.units)
      ensures s.claim.None? ==> o == old(o) && v == old(v)
      ensures err.Fine? || Unsettled(old(w.setbacks)) || (s.claim.None? && Unheard(old(w.setbacks)))
      ensures err.Fine? ==> Clean(old(w.setbacks))
    {
      hide SaveOk, Inv, Rely, Initial, Legal, Replay, RowGrows, CourseSaved, TerminalView, Outcome;
      var claim := LookupLiveClaim();
      if !claim.Some? {
        return Trouble;
      }
      ClaimSave(w.now, o, s, v, claim.value);
      s := s.(claim := claim);
      err := FinishLive();
    }

    /** What became of the pass, after this outcome of the exchange. */
    ghost predicate Heeded(outcome: ExchangeOutcome, session: Option<Id>, was: OpRow, seen: View, existing: bool,
                           err: Err)
      reads this, w`now, w`log
    {
      match outcome
      case AdmissionRejected | NotAdmittedOutcome =>
        && !existing && !err.Fine? && s.claim.None?
        && o == was.(state := AccountingPending) && v == Unopened(seen, Waiting, v.mediaEnded)
      case SettledOutcome =>
        && !existing
        && (err.Fine? ==> s.claim.Some? && Settled() && FinalView(s, seen, v, w.now.loc.closed.value.units))
        && (s.claim.None? ==> o == was && v == seen)
      case InFlight | AccountingPendingOutcome =>
        && existing == session.Some? == err.Fine? && s.claim.None? && o == was && v == seen
      case OtherOutcome =>
        && !existing && !err.Fine? && s.claim.None? && o == was && v == seen
    }

    /** Media that never started has ended, by the customer's stop. */
    function Unopened(v: View, output: OutputState, at: Option<Time>): View {
      v.(status := Ended, closeReason := GatewayClose, output := output, mediaEnded := at)
    }

    // ---------- refill ----------

    /** `uuid.NewString`: an identity nothing was ever asked under. */
    method NewRefillId() returns (id: Id)
      ensures !RefillSeen(w.now.loc.refillAsked, id)
    {
      hide SaveOk, Inv;
      var asked := w.now.loc.refillAsked;
      ghost var used := set q | q in asked :: q.id;
      UnusedId(used);
      ghost var unused: Id :| unused !in used;
      assert !RefillSeen(asked, unused);
      id :| !RefillSeen(asked, id);
    }

    method NewKeyId() returns (id: Id)
      ensures RenewedKey(id) !in w.now.runner.asked
    {
      hide SaveOk, Inv;
      var asked := w.now.runner.asked;
      ghost var used := set k | k in asked && k.RenewedKey? :: k.id;
      UnusedId(used);
      ghost var unused: Id :| unused !in used;
      assert RenewedKey(unused) !in asked;
      id :| RenewedKey(id) !in asked;
    }

    /** One more refill in the product row's counter: this pass's adoption is counted, and not again. */
    method IncrementRefill() returns (ok: bool)
      requires Ready() && worker && o.finished.None? && w.now.course.counts.Some?
      modifies w
      ensures Ready() && Going(old(w.log), old(w.setbacks)) && Counted(old(w.now), w.now)
      ensures ok ==> old(w.now.course.counts).value in w.now.counted && w.now.course.counts.None?
      ensures !ok ==> w.now.course.counts == old(w.now.course.counts) || w.now.course.counts.None?
      ensures ok || Unwritten(old(w.setbacks))
      ensures ok ==> Clean(old(w.setbacks))
    {
      hide SaveOk, Inv, Initial, Legal, Replay, RowGrows, Rely, Apply, ApplyDirect, Direct, Enabled, StreamEnabled,
        PeersGrow, JournalKept;
      Env();
      NotCounted(old(w.now), w.now);
      ghost var before := w.now;
      var lands: bool := *;
      if lands {
        CountReady(w.now);
        CountEffect(w.now);
        OwnKeepsSave(w.now, OnStream(CountRefill), o, s, v);
        Count();
        CountedOnce(old(w.now), before, w.now);
      }
      ok := Told(lands);
    }

    /** Nothing but the count and the peers changed. */
    ghost predicate Counted(a: Snap, b: Snap) {
      && PeersGrow(a.(course := b.course), b) && JournalKept(a, b)
      && b.course == a.course.(counts := b.course.counts)
    }

    lemma NotCounted(a: Snap, b: Snap)
      requires PeersGrow(a, b) && JournalKept(a, b)
      ensures Counted(a, b) && b.course.counts == a.course.counts && b.lock == a.lock && b.op.finished == a.op.finished
    {
    }

    lemma CountedOnce(a: Snap, b: Snap, c: Snap)
      requires Counted(a, b) && c == b.(refills := c.refills, counted := c.counted, course := b.course.(counts := None))
      ensures Counted(a, c)
    {
    }

    method Count()
      requires w.Valid() && Enabled(w.now, OnStream(CountRefill))
      modifies w`now, w`log
      ensures w.Valid() && Going(old(w.log), old(w.setbacks)) && w.now == ApplyStream(old(w.now), CountRefill)
    {
      w.Do(OnStream(CountRefill));
    }

    lemma CountReady(a: Snap)
      requires Acting(a) && a.lock.worker && a.course.counts.Some?
      ensures StreamEnabled(a, CountRefill)
    {
    }

    lemma CountEffect(a: Snap)
      requires StreamEnabled(a, CountRefill)
      ensures Enabled(a, OnStream(CountRefill)) && Apply(a, OnStream(CountRefill)) == ApplyStream(a, CountRefill)
      ensures var b := ApplyStream(a, CountRefill);
              a.course.counts.Some? && b ==
                  a.(refills := a.refills + 1, counted := a.counted + {a.course.counts.value},
                     course := a.course.(counts := None))
    {
    }

    /** What `refillLive` needs of the pass: a pending identity, everything but the end reason saved. */
    ghost predicate Refilling()
      reads this, w`now, w`log
    {
      && Ready() && worker && o.finished.None? && o.state == w.now.op.state
      && w.now.s == s.(endReason := w.now.s.endReason) && w.now.v == v
      && s.refillId.Some? && !s.refillRefused && s.claim.None? && (s.refill.None? ==> w.now.course.asks)
    }

    /** The broker uses the pending grant: adopt it, save, count it. */
    method AdoptRefill() returns (err: Err)
      requires Refilling() && s.refill.Some? && s.session.Some? && s.broker.Some? && s.prep.Some?
      requires IsActive(w.now.broker, s.refill.value.work)
      modifies this, w
      ensures Ready() && Going(old(w.log), old(w.setbacks)) && w.now.broker.opens == old(w.now.broker.opens)
      ensures o == old(o) && v == old(v) && s == AdoptedSecrets(old(s))
      ensures err.Fine? ==> w.now.s == s && w.now.v == v && o.state == w.now.op.state && w.now.lock == old(w.now.lock)
      ensures err.Fine? && s.endReason == NoReason ==> w.now.course.open
      ensures w.now.course.checked == old(w.now.course.checked)
      ensures err.Fine? ==> w.now.course.counts.None?
      ensures err.Fine? || Unwritten(old(w.setbacks))
      ensures err.Fine? ==> Clean(old(w.setbacks))
    {
      hide SaveOk, Inv, Rely, Initial, Legal, Replay, RowGrows, CourseSaved;
      w.Known();
      AdoptSave(w.now, o, s, v);
      AdoptionCounts(w.now, o, s, v);
      s := AdoptedSecrets(s);
      label adopted:
      var ok := Save();
      if !ok {
        return Trouble;
      }
      OpenSaved(old@adopted(w.now), w.now, o, s);
      AdoptionSaved(old@adopted(w.now), w.now, o, s);
      ok := IncrementRefill();
      return if ok then Fine else Trouble;
    }

    /** The broker durably refused the revision: record that, keep both grants for settlement, wind down. */
    method WindDownRefused() returns (err: Err)
      requires Refilling() && s.refill.Some? && s.session.Some? && s.prep.Some?
      requires s.refill.value.work in w.now.broker.refusedTopUps
      modifies this, w
      ensures o.stop == old(o.stop)
      ensures Done(err) && Going(old(w.log), old(w.setbacks)) && w.now.broker.opens == old(w.now.broker.opens)
      ensures err.Fine? ==> Settled()
      ensures s == old(s).(refillRefused := true, endReason := GatewayClose, claim := s.claim)
      ensures s.broker.Some? ==> GatewayClose in w.now.broker.endAsked || Unwritten(old(w.setbacks))
      ensures err.Fine? ==>
                FinalView(s, Marked(s, old(v).(failure := RefillRefusedCode)), v, w.now.loc.closed.value.units)
      ensures err.Fine? || Unsettled(old(w.setbacks))
      ensures err.Fine? ==> Clean(old(w.setbacks))
    {
      hide SaveOk, Inv, Rely, Initial, Legal, Replay, RowGrows, CourseSaved, TerminalView;
      w.Known();
      TopUpRefusedSave(w.now, o, s, v);
      s := s.(refillRefused := true, endReason := GatewayClose);
      v := v.(failure := RefillRefusedCode);
      var ok := Save();
      if !ok {
        return Trouble;
      }
      err := EndLive();
    }

    /** A top-up without an answer: the session may have ended under either grant. */
    method RecoverLostTopUp() returns (err: Err)
      requires Refilling() && s.refill.Some? && s.session.Some? && s.prep.Some? && s.broker.Some?
      requires s.refill.value.work in w.now.broker.topUpSent
      modifies this, w
      ensures o.stop == old(o.stop)
      ensures Done(err) && Going(old(w.log), old(w.setbacks)) && w.now.broker.opens == old(w.now.broker.opens)
      ensures err.Fine? ==> Settled()
      ensures s == old(s).(claim := s.claim)
      ensures err.Fine? ==> FinalView(s, old(v), v, w.now.loc.closed.value.units)
      ensures s.claim.Some? || Unheard(old(w.setbacks)) || Odd(old(w.setbacks))
      ensures err.Fine? || Unsettled(old(w.setbacks))
      ensures err.Fine? ==> Clean(old(w.setbacks))
    {
      hide SaveOk, Inv, Rely, Initial, Legal, Replay, RowGrows, CourseSaved, TerminalView, Outcome;
      var claim := LookupLiveClaim();
      if claim.Some? {
        w.Known();
        JournalFacts(w.now);
        PendingFacts(w.now, o, s, v);
        ClaimSave(w.now, o, s, v, claim.value);
        s := s.(claim := claim);
        err := SaveAndFinish();
        return;
      }
      err := FinishByRecord();
    }

    /** LOC declined the refill for lack of credit: its identity is dropped and the session ends. */
    method DropRefill() returns (err: Err)
      requires Ready() && worker && o.finished.None? && o.state == w.now.op.state
      requires w.now.s == s.(endReason := w.now.s.endReason) && s.claim.None?
      requires s.refill.None? && s.session.Some? && s.prep.Some? && s.broker.Some?
      requires s.refillId.Some? && s.refillId.value in w.now.loc.declined
      modifies this, w
      ensures o.stop == old(o.stop)
      ensures Done(err) && Going(old(w.log), old(w.setbacks)) && w.now.broker.opens == old(w.now.broker.opens)
      ensures s == Cleared(old(s)).(endReason := RefillRefusal, claim := s.claim)
      ensures RefillRefusal in w.now.broker.endAsked || Unwritten(old(w.setbacks))
      ensures err.Fine? ==> Settled() && FinalView(s, Marked(s, old(v)), v, w.now.loc.closed.value.units)
      ensures err.Fine? || Unsettled(old(w.setbacks))
      ensures err.Fine? ==> Clean(old(w.setbacks))
    {
      hide SaveOk, Inv, Rely, Initial, Legal, Replay, RowGrows, CourseSaved, TerminalView;
      w.Known();
      DropSave(w.now, o, s, v);
      s := Cleared(s).(endReason := RefillRefusal);
      err := EndLive();
    }

    /** Gets the pending identity's revision from LOC, unless it is already saved. */
    method ReviseLive() returns (go: bool, err: Err)
      requires Refilling() && s.refill.None? && s.session.Some? && s.prep.Some? && s.broker.Some?
      modifies this, w
      ensures o.stop == old(o.stop)
      ensures Going(old(w.log), old(w.setbacks)) && w.now.broker.opens == old(w.now.broker.opens)
      ensures go ==> Refilling() && s == old(s).(refill := s.refill) && s.refill.Some? && v == old(v) && o == old(o)
                     && w.now.lock == old(w.now.lock) && w.now.course.checked == old(w.now.course.checked)
      ensures !go ==> Done(err) && (err.Fine? ==> Settled())
      ensures !go ==>
                || Unheard(old(w.setbacks)) || (Unwritten(old(w.setbacks)) && !err.Fine?)
                || s == Cleared(old(s)).(endReason := RefillRefusal, claim := s.claim)
      ensures go ==> err.Fine?
      ensures err.Fine? || Unsettled(old(w.setbacks))
      ensures err.Fine? ==> Clean(old(w.setbacks))
    {
      hide SaveOk, Inv, Rely, Initial, Legal, Replay, RowGrows, CourseSaved, TerminalView;
      var reply := RefillAuthorization();
      if reply.InsufficientCredit? {
        err := DropRefill();
        return false, err;
      }
      if !reply.Revised? {
        err := FinishByRecord();
        return false, err;
      }
      w.Known();
      RevisionSave(w.now, o, s, v, reply.revision);
      s := s.(refill := Some(reply.revision));
      var ok := Save();
      if !ok {
        return false, Trouble;
      }
      return true, Fine;
    }

    /** Drives one refill identity to adoption, refusal, or a later replay. */
    method RefillLive() returns (err: Err)
      requires Refilling() && s.session.Some? && s.prep.Some? && s.broker.Some?
      modifies this, w
      ensures o.stop == old(o.stop)
      ensures Done(err) && Going(old(w.log), old(w.setbacks)) && w.now.broker.opens == old(w.now.broker.opens)
      ensures err.Fine? && o.finished.Some? ==> Settled()
      ensures err.Fine? && o.finished.None? ==>
                && w.now.s == s && w.now.v == v && o.state == w.now.op.state && w.now.lock == old(w.now.lock)
                && NoRefill(s) && s.cap == old(s).refillCap && s.claim.None? && v == old(v) && o == old(o)
                && s.endReason == old(s).endReason && s.broker.Some? && s.session.Some?
                && (s.endReason == NoReason ==> w.now.course.open) && w.now.course.checked == old(w.now.course.checked)
                && s == old(s).(refillId := None, refill := None, refillCap := 0, cap := s.cap, session := s.session,
                                broker := s.broker)
                && s.broker.value == old(s).broker.value.(work := s.broker.value.work)
                && s.session.value == old(s).session.value.(work := s.session.value.work)
      ensures err.Fine? && o.finished.None? ==> w.now.course.counts.None?
      ensures err.Fine? && o.finished.Some? ==>
                Unheard(old(w.setbacks)) || s.refillRefused || s.endReason == RefillRefusal
      ensures err.Fine? || Unsettled(old(w.setbacks))
      ensures err.Fine? ==> Clean(old(w.setbacks))
    {
      hide SaveOk, Inv, Rely, Initial, Legal, Replay, RowGrows, CourseSaved, TerminalView, FinalView,
        SettledByLoc;
      if s.refill.None? {
        var go, reviseErr := ReviseLive();
        if !go {
          return reviseErr;
        }
      }
      var reply := TopUp();
      if reply.TopUpRefused? {
        err := WindDownRefused();
        return;
      }
      if !reply.ToppedUp? {
        err := RecoverLostTopUp();
        return;
      }
      if reply.work != s.refill.value.work {
        return Trouble;
      }
      err := AdoptRefill();
    }

    // ---------- stream keys ----------

    /** The pass holds exactly the saved row (a control pass has counted its attempt). */
    ghost predicate Synced()
      reads this, w`now, w`log
    {
      Ready() && o.finished.None? && s == w.now.s && v == w.now.v && o.state == w.now.op.state
    }

    /**
     * Asks the runner for the key of the outstanding identity; an answer naming that identity is the runner's record.
     */
    method IssueRuntimeKey() returns (r: Option<KeyReply>)
      requires Synced() && s.keyRequest.Some? && w.now.course.wantsKey && (worker ==> s.endReason == NoReason)
      modifies w
      ensures Synced() && Going(old(w.log), old(w.setbacks)) && w.now.lock == old(w.now.lock)
      ensures w.now.broker.opens == old(w.now.broker.opens)
      ensures w.now.course == old(w.now.course).(wantsKey := false) && s.keyRequest.value in w.now.runner.asked
      ensures r.Some? && Some(r.value.request) == s.keyRequest ==>
                r.value.request in w.now.runner.keys && w.now.runner.keys[r.value.request] == r.value.issued
      ensures r.Some? || Unheard(old(w.setbacks))
      ensures Odd(old(w.setbacks)) <==> r.Some? && !(Some(r.value.request) == s.keyRequest && r.value.wellFormed)
      ensures Clean(old(w.setbacks))
    {
      hide SaveOk, Inv, Initial, Legal, Replay;
      Env();
      var key := s.keyRequest.value;
      OwnKeepsSave(w.now, AtRunner(AskKey(key)), o, s, v);
      w.Do(AtRunner(AskKey(key)));
      Env();
      r := *;
      if r.Some? && r.value.request == key && !(key in w.now.runner.keys && w.now.runner.keys[key] == r.value.issued) {
        r := None;
      }
      Note(r.Some?, r.Some? && r.value.request == key && r.value.wellFormed);
    }

    /** The runner's grant for issuing keys has expired: the session winds down. */
    method ExpireKeyGrant()
      requires Synced() && s.broker.Some?
      requires if worker then s.endReason == NoReason && s.claim.None?
               else o.state == Active && !o.stop && !w.now.course.checked && !KeyUsable(w.now.s, w.now.clock)
      requires GrantExpired(w.now.s, w.now.clock)
      modifies this, w
      ensures Ready() && o.finished.None? && Going(old(w.log), old(w.setbacks))
                && w.now.broker.opens == old(w.now.broker.opens)
      ensures s == old(s).(endReason := RecoveryFailed)
      ensures v == old(v).(failure := KeyGrantExpired, status := Closing, closeReason := RecoveryFailed)
      ensures (s, v) == ExpireGrant(old(s), old(v)) && o == old(o).(state := OpState.Ending)
      ensures Saved() || Unwritten(old(w.setbacks))
      ensures old(w.now.clock) <= w.now.clock
    {
      hide SaveOk, Inv, Rely, Initial, Legal, Replay, RowGrows, CourseSaved;
      w.Known();
      JournalFacts(w.now);
      GrantExpirySave(w.now, o, s, v);
      s := s.(endReason := RecoveryFailed);
      v := v.(failure := KeyGrantExpired);
      o := o.(state := OpState.Ending);
      v := v.(status := Closing, closeReason := s.endReason);
      var ok := Save();
    }

    /** Saves a new issuance identity, unless one is already outstanding. */
    method MintKeyRequest() returns (ok: bool)
      requires Synced() && s.broker.Some? && s.broker.value.urlsValid && (worker ==> s.endReason == NoReason)
      requires w.now.course.checked && (w.now.course.keys == Untried || w.now.course.keys == Expired(1))
      requires s.keyRequest.Some? ==> w.now.course.wantsKey
      modifies this, w
      ensures Ready() && o == old(o) && v == old(v) && s == old(s).(keyRequest := s.keyRequest) && s.keyRequest.Some?
      ensures Going(old(w.log), old(w.setbacks)) && w.now.lock == old(w.now.lock)
                && w.now.broker.opens == old(w.now.broker.opens)
      ensures old(s.keyRequest).Some? ==> ok && s == old(s)
      ensures ok ==> Synced() && w.now.course.keys == old(w.now.course.keys) && w.now.course.wantsKey
      ensures w.now.course.checked == old(w.now.course.checked)
      ensures ok || Unwritten(old(w.setbacks))
      ensures ok ==> w.setbacks == old(w.setbacks)
    {
      if s.keyRequest.Some? {
        return true;
      }
      hide SaveOk, Inv, Rely, Initial, Legal, Replay, RowGrows, CourseSaved;
      var key := FreshKey();
      KeyMintSave(w.now, o, s, v, key);
      s := s.(keyRequest := Some(key));
      label minted:
      ok := Save();
      if ok {
        KeysSaved(old@minted(w.now), w.now, o, s);
      }
    }

    /** The first identity is the operation's own; later ones are new. */
    method FreshKey() returns (key: KeyId)
      requires Synced() && s.keyRequest.None?
      ensures key !in w.now.runner.asked && (key == FirstKey <==> s.upstream.None? && s.keyExpires == 0)
    {
      hide SaveOk, Inv, Rely, Initial, Legal, Replay;
      w.Known();
      KeyFacts(w.now);
      if s.upstream.None? && s.keyExpires == 0 {
        return FirstKey;
      }
      var id := NewKeyId();
      key := RenewedKey(id);
    }

    /** Records the outstanding identity's answer. */
    method RecordKey(reply: KeyReply) returns (ok: bool)
      requires Synced() && s.keyRequest == Some(reply.request)
      requires reply.request in w.now.runner.keys && w.now.runner.keys[reply.request] == reply.issued
      requires w.now.course.checked && (w.now.course.keys == Untried || w.now.course.keys == Expired(1))
      modifies this, w
      ensures Ready() && o == old(o) && v == old(v)
      ensures s == old(s).(upstream := Some(reply.issued.url), keyExpires := reply.issued.expires, keyRequest := None)
      ensures Going(old(w.log), old(w.setbacks)) && w.now.lock == old(w.now.lock)
                && w.now.broker.opens == old(w.now.broker.opens)
      ensures ok ==> Synced() && w.now.course.keys == Recorded(if old(w.now.course.keys) == Untried then 1 else 2)
      ensures w.now.course.checked == old(w.now.course.checked)
      ensures ok || Unwritten(old(w.setbacks))
      ensures ok ==> w.setbacks == old(w.setbacks)
    {
      hide SaveOk, Inv, Rely, Initial, Legal, Replay, RowGrows, CourseSaved;
      KeyRecordSave(w.now, o, s, v);
      s := s.(upstream := Some(reply.issued.url), keyExpires := reply.issued.expires, keyRequest := None);
      ok := Save();
      if ok {
        KeysSaved(old(w.now), w.now, o, s);
      }
    }

    /** Whether the key just recorded can be used, by the clock. */
    method JudgeKey() returns (usable: bool)
      requires Synced() && w.now.course.keys.Recorded?
      modifies w
      ensures Synced() && Going(old(w.log), old(w.setbacks)) && w.now.lock == old(w.now.lock)
      ensures w.now.broker.opens == old(w.now.broker.opens)
      ensures usable == KeyUsable(s, w.now.clock)
      ensures w.now.course.keys == if usable then Usable else Expired(old(w.now.course.keys).n)
      ensures w.now.course.checked == old(w.now.course.checked)
      ensures w.setbacks == old(w.setbacks)
    {
      hide SaveOk, Inv, Initial, Legal, Replay, RowGrows;
      Env();
      usable := KeyUsable(s, w.now.clock);
      JudgeSave(w.now, o, s, v);
      w.DoLock(LockEvent.JudgeKey);
    }

    /** The key or the key grant is found good. */
    method CheckGrant()
      requires Synced() && !w.now.course.checked
      requires if worker then w.now.course.nearKey && GrantGood(s, w.now.clock)
               else o.state == Active && !o.stop && (KeyUsable(s, w.now.clock) || GrantGood(s, w.now.clock))
      modifies w
      ensures Synced() && Going(old(w.log), old(w.setbacks)) && w.now.lock == old(w.now.lock)
      ensures w.now.broker.opens == old(w.now.broker.opens)
      ensures w.now.course == old(w.now.course).(nearKey := false, checked := true, wantsKey := s.keyRequest.Some?)
      ensures w.setbacks == old(w.setbacks)
    {
      hide SaveOk, Inv, Initial, Legal, Replay, RowGrows, KeyUsable, GrantGood;
      CheckSave(w.now, o, s, v);
      w.DoLock(CheckKey);
    }

    /**
     * Issues a stream key, at most twice: a definitive answer that has already expired lets a second identity be
     * minted; any other failure keeps the outstanding one.
     */
    method IssueLiveStreamKey() returns (err: Err)
      requires Synced() && w.now.course.keys == Untried && !w.now.course.checked
      requires if worker then s.endReason == NoReason && s.claim.None? && w.now.course.nearKey
               else o.state == Active && !o.stop && !KeyUsable(w.now.s, w.now.clock)
      modifies this, w
      ensures o.stop == old(o.stop)
      ensures Ready() && o.finished.None? && Going(old(w.log), old(w.setbacks))
                && w.now.broker.opens == old(w.now.broker.opens)
      ensures err.Fine? ==>
                && Synced() && o == old(o) && v == old(v) && w.now.lock == old(w.now.lock) && s.upstream.Some?
                && w.now.course.keys == Usable
                && s == old(s).(upstream := s.upstream, keyExpires := s.keyExpires, keyRequest := None)
      ensures !err.Fine? ==>
                || Keyless(old(w.setbacks)) || w.now.course.keys == Expired(2) || NoUrls(old(s))
                || (GrantExpired(old(s), w.now.clock) && (s, v) == ExpireGrant(old(s), old(v))
                    && o.state == OpState.Ending)
      ensures err.Fine? ==> Clean(old(w.setbacks)) && !Odd(old(w.setbacks))
    {
      hide SaveOk, Inv, Rely, Initial, Legal, Replay, RowGrows, CourseSaved, ExpireGrant, KeyUsable;
      if s.broker.None? || !s.broker.value.urlsValid {
        return Trouble;
      }
      if !(s.broker.value.keyGrantUntil > w.now.clock + 15) {
        ExpireKeyGrant();
        return Trouble;
      }
      CheckGrant();
      err := TryKeys();
    }

    /** At most two attempts. */
    method TryKeys() returns (err: Err)
      requires Synced() && s.broker.Some? && s.broker.value.urlsValid && (worker ==> s.endReason == NoReason)
      requires w.now.course.checked && w.now.course.keys == Untried && (s.keyRequest.Some? ==> w.now.course.wantsKey)
      modifies this, w
      ensures Ready() && o == old(o) && v == old(v) && Going(old(w.log), old(w.setbacks))
      ensures w.now.broker.opens == old(w.now.broker.opens)
      ensures s == old(s).(upstream := s.upstream, keyExpires := s.keyExpires, keyRequest := s.keyRequest)
      ensures err.Fine? ==>
                Synced() && w.now.lock == old(w.now.lock) && s.upstream.Some? && s.keyRequest.None?
                    && w.now.course.keys == Usable
      ensures err.Fine? || Keyless(old(w.setbacks)) || w.now.course.keys == Expired(2)
      ensures err.Fine? ==> Clean(old(w.setbacks)) && !Odd(old(w.setbacks))
    {
      hide SaveOk, Inv, Rely, Initial, Legal, Replay, KeyUsable;
      var attempt := 0;
      while attempt < 2
        invariant Synced() && Going(old(w.log), old(w.setbacks)) && o == old(o) && v == old(v)
                    && w.now.lock == old(w.now.lock)
        invariant s == old(s).(upstream := s.upstream, keyExpires := s.keyExpires, keyRequest := s.keyRequest)
        invariant w.now.broker.opens == old(w.now.broker.opens) && 0 <= attempt <= 2
        invariant Clean(old(w.setbacks)) && !Odd(old(w.setbacks))
        invariant w.now.course.keys == if attempt == 0 then Untried else Expired(attempt)
        invariant w.now.course.checked && (s.keyRequest.Some? ==> w.now.course.wantsKey)
      {
        var usable, tryErr := TryKey();
        if usable || !tryErr.Fine? {
          return tryErr;
        }
        attempt := attempt + 1;
      }
      return Trouble;
    }

    /** One attempt: a matching answer is saved before the key is judged. */
    method TryKey() returns (usable: bool, err: Err)
      requires Synced() && s.broker.Some? && s.broker.value.urlsValid && (worker ==> s.endReason == NoReason)
      requires w.now.course.checked && (w.now.course.keys == Untried || w.now.course.keys == Expired(1))
      requires s.keyRequest.Some? ==> w.now.course.wantsKey
      modifies this, w
      ensures Ready() && o == old(o) && v == old(v) && Going(old(w.log), old(w.setbacks))
      ensures w.now.broker.opens == old(w.now.broker.opens)
      ensures s == old(s).(upstream := s.upstream, keyExpires := s.keyExpires, keyRequest := s.keyRequest)
      ensures err.Fine? ==>
                && Synced() && w.now.lock == old(w.now.lock) && s.upstream.Some? && s.keyRequest.None?
                && w.now.course.checked
                && w.now.course.keys == if usable then Usable
                   else Expired(if old(w.now.course.keys) == Untried then 1 else 2)
      ensures err.Fine? || Keyless(old(w.setbacks))
      ensures err.Fine? ==> Clean(old(w.setbacks)) && !Odd(old(w.setbacks))
    {
      hide SaveOk, Inv, Rely, Initial, Legal, Replay, KeyUsable;
      usable := false;
      var ok := MintKeyRequest();
      if !ok {
        return false, Trouble;
      }
      var reply := IssueRuntimeKey();
      if !reply.Some? || Some(reply.value.request) != s.keyRequest || !reply.value.wellFormed {
        return false, Trouble;
      }
      ok := RecordKey(reply.value);
      if !ok {
        return false, Trouble;
      }
      usable := JudgeKey();
      return usable, Fine;
    }

    // ---------- before the broker ----------

    /** A stop seen before any preparation was saved: nothing was authorized, so the reservation is refunded. */
    method CancelLive() returns (err: Err)
      requires Synced() && worker && o.stop && s.prep.None? && s.session.None?
      modifies this, w
      ensures o.stop == old(o.stop)
      ensures Done(err) && Going(old(w.log), old(w.setbacks)) && s == old(s)
                && w.now.broker.opens == old(w.now.broker.opens)
      ensures err.Fine? ==> o.state == Canceled && o.finished.Some? && v.mediaEnded == o.finished
                            && w.now.res.state == ReservationState.Refunded && !w.now.loc.authorized.Granted?
      ensures !err.Fine? ==> o == old(o) && v == old(v)
      ensures err.Fine? ==> v == old(v).(status := Ended, closeReason := GatewayClose, mediaEnded := o.finished)
      ensures err.Fine? || Unwritten(old(w.setbacks))
      ensures err.Fine? ==> Clean(old(w.setbacks))
    {
      hide SaveOk, Inv, Rely, Initial, Legal, Replay, RowGrows, CourseSaved;
      var ok := RefundReservation();
      if !ok {
        return Trouble;
      }
      var at: Time := *;
      ok := WriteStream(Cancel(at), o);
      if !ok {
        return Trouble;
      }
      at := *;
      w.Known();
      RefusedPreparation(w.now);
      CancelSave(w.now, o, s, v, at);
      o := o.(state := Canceled, finished := Some(at));
      v := v.(status := Ended, closeReason := GatewayClose, mediaEnded := Some(at));
      return Fine;
    }

    ghost predicate Answered(err: Err, was: OpRow, seen: View)
      reads this
    {
      err.LocAnswer? ==> AnswerLeaves(err.status, was, seen, o, v)
    }

    /** LOC's error answer ended the pass, before any grant was saved. */
    ghost predicate Unissued(err: Err, prep: Option<Id>, was: OpRow, seen: View)
      reads this
    {
      && err.LocAnswer? && s.session.None?
      && Answered(err, if prep.None? && s.prep.Some? then was.(state := Prepared) else was, seen)
    }

    /** A definitive refusal of the first attempt refunds the reservation; every other failure stays pending. */
    method IssuanceFailure(failure: Reply<Id>) returns (err: Err)
      requires Synced() && worker && s.session.None? && !failure.Got? && (s.prep.None? ==> !o.stop)
      requires failure.LocError? && Definitive(failure.status) ==> LocRefused(w.now.loc)
      modifies this, w
      ensures o.stop == old(o.stop)
      ensures Done(err) && !err.Fine? && Going(old(w.log), old(w.setbacks)) && s == old(s)
      ensures w.now.broker.opens == old(w.now.broker.opens)
      ensures o.finished.Some? ==> o.state == OpState.IssuanceRefused && w.now.res.state == ReservationState.Refunded
                                   && LocRefused(w.now.loc)
      ensures !(failure.LocError? && Definitive(failure.status)
                && (old(o.attempts) == 1 || old(o.state) == OpState.IssuanceRefused)) ==>
                o == old(o) && v == old(v) && w.now == old(w.now)
      ensures err == (if failure.LocError? then LocAnswer(failure.status) else Trouble) || Unwritten(old(w.setbacks))
      ensures Answered(err, old(o), old(v))
    {
      hide SaveOk, Inv, Rely, Initial, Legal, Replay, RowGrows, CourseSaved;
      err := if failure.LocError? then LocAnswer(failure.status) else Trouble;
      if failure.LocError? && Definitive(failure.status) && (o.attempts == 1 || o.state == OpState.IssuanceRefused) {
        w.Known();
        JournalFacts(w.now);
        w.Known();
        RefusalFacts(w.now, o, s, v);
        HearSave(w.now, o, s, v);
        w.DoLock(HearRefusal);
        var ok := RefuseLive(failure.status);
        if !ok {
          return Trouble;
        }
      }
    }

    /** The refusal is final: refund, fail the stream row, finish. */
    method RefuseLive(status: int) returns (ok: bool)
      requires Ready() && worker && o.finished.None? && w.now.course.heard && LocRefused(w.now.loc)
      requires v.mediaEnded.None?
      requires w.now.s.claim.None? && w.now.s.refillId.None?
      modifies this, w
      ensures o.stop == old(o.stop) && o.state == OpState.IssuanceRefused
      ensures Ready() && Going(old(w.log), old(w.setbacks)) && s == old(s)
                && w.now.broker.opens == old(w.now.broker.opens)
      ensures o.finished.Some? ==> w.now.res.state == ReservationState.Refunded && LocRefused(w.now.loc)
      ensures o == old(o).(state := OpState.IssuanceRefused, finished := o.finished)
      ensures v == old(v).(status := Failed, failure := LocHttp(status))
      ensures if ok then o.finished.Some? else Unwritten(old(w.setbacks))
      ensures ok ==> Clean(old(w.setbacks))
    {
      hide SaveOk, Inv, Rely, Initial, Legal, Replay, RowGrows, CourseSaved;
      RefusedSave(w.now, o, s, v);
      o := o.(state := OpState.IssuanceRefused);
      ViewSave(w.now, o, s, v, v.(status := Failed, failure := LocHttp(status)));
      v := v.(status := Failed, failure := LocHttp(status));
      ok := RefundReservation();
      if !ok {
        return;
      }
      var at: Time := *;
      ok := WriteStream(Fail(at), o);
      if !ok {
        return;
      }
      RefusedSave(w.now, o, s, v);
      o := o.(finished := Some(at));
    }

    /** Asks LOC to prepare a session and saves its answer before anything is authorized. */
    method PrepareLive() returns (go: bool, err: Err)
      requires Synced() && worker && !o.stop && s.prep.None? && s.session.None? && o.attempts >= 1
      modifies this, w
      ensures o.stop == old(o.stop)
      ensures Going(old(w.log), old(w.setbacks)) && w.now.broker.opens == old(w.now.broker.opens)
      ensures go ==>
                Synced() && s == old(s).(prep := s.prep, body := s.prep) && s.prep.Some?
                    && o == old(o).(state := Prepared)
                    && w.now.op.attempts == o.attempts && w.now.lock == old(w.now.lock)
                    && w.now.course.checked == old(w.now.course.checked)
      ensures !go ==> Done(err) && !err.Fine?
      ensures go ==> v == old(v)
      ensures !go ==> err.LocAnswer? || Unheard(old(w.setbacks)) || Unwritten(old(w.setbacks))
      ensures !go ==> Answered(err, old(o), old(v)) && (err.LocAnswer? ==> s == old(s))
      ensures go || err.Fine? ==> Clean(old(w.setbacks))
    {
      hide SaveOk, Inv, Rely, Initial, Legal, Replay, RowGrows, CourseSaved;
      var reply := PrepareSession();
      if !reply.Got? {
        w.Known();
        RefusedPreparation(w.now);
        err := IssuanceFailure(if reply.LocError? then LocError(reply.status) else Lost);
        return false, err;
      }
      PrepareSave(w.now, o, s, v, reply.value);
      s := s.(prep := Some(reply.value), body := Some(reply.value));
      o := o.(state := Prepared);
      var ok := Save();
      return ok, Trouble;
    }

    /** Asks LOC to authorize the prepared session and saves the grant before anything is dispatched. */
    method AuthorizeLive() returns (go: bool, err: Err)
      requires Synced() && worker && s.prep.Some? && s.session.None?
      modifies this, w
      ensures o.stop == old(o.stop)
      ensures Going(old(w.log), old(w.setbacks)) && w.now.broker.opens == old(w.now.broker.opens)
      ensures go ==>
                Synced() && s == old(s).(session := s.session) && s.session.Some? && o == old(o).(state := Authorized)
                    && w.now.lock == old(w.now.lock) && w.now.course.checked == old(w.now.course.checked)
      ensures !go ==> Done(err) && !err.Fine?
      ensures go ==> v == old(v)
      ensures !go ==> err.LocAnswer? || Unheard(old(w.setbacks)) || Unwritten(old(w.setbacks))
      ensures !go ==> Answered(err, old(o), old(v)) && (err.LocAnswer? ==> s == old(s))
      ensures go || err.Fine? ==> Clean(old(w.setbacks))
    {
      hide SaveOk, Inv, Rely, Initial, Legal, Replay, RowGrows, CourseSaved;
      w.Known();
      JournalFacts(w.now);
      var reply := OpenAuthorization();
      if !reply.Got? {
        err := IssuanceFailure(if reply.LocError? then LocError(reply.status) else Lost);
        return false, err;
      }
      w.Known();
      AuthorizeSave(w.now, o, s, v, reply.value);
      s := s.(session := Some(reply.value));
      o := o.(state := Authorized);
      var ok := Save();
      return ok, Trouble;
    }

    // ---------- from grant to live ----------

    /** The open failed: its signed zero settlement, or LOC's closed record, may already exist. */
    method RecoverFailedOpen() returns (err: Err)
      requires Synced() && worker && s.session.Some? && s.prep.Some? && s.claim.None? && s.broker.None?
      requires o.state == Dispatching
      modifies this, w
      ensures o.stop == old(o.stop)
      ensures Done(err) && Going(old(w.log), old(w.setbacks)) && w.now.broker.opens == old(w.now.broker.opens)
      ensures err.Fine? ==> Settled()
      ensures s.claim.Some? ==> s == old(s).(claim := s.claim, endReason := OpenFailed)
      ensures s.claim.Some? || Unheard(old(w.setbacks))
      ensures err.Fine? ==> FinalView(s, old(v), v, w.now.loc.closed.value.units)
      ensures err.Fine? || Unsettled(old(w.setbacks))
      ensures err.Fine? ==> Clean(old(w.setbacks))
    {
      hide SaveOk, Inv, Rely, Initial, Legal, Replay, RowGrows, CourseSaved, TerminalView, Outcome;
      var claim := LookupSettlement(s.prep.value, Some(s.session.value.work));
      if claim.Some? {
        w.Known();
        OpenFailedClaimSave(w.now, o, s, v, claim.value);
        s := s.(claim := claim, endReason := OpenFailed);
        err := SaveAndFinish();
        return;
      }
      err := FinishByRecord();
    }

    /** The broker's descriptor is saved, if it is one of a live session. */
    method TakeDescriptor(d: Descriptor) returns (ok: bool)
      requires Ready() && worker && o.finished.None? && s == w.now.s && s.broker.None? && s.dispatched
                && s.session.Some?
      requires w.now.broker.admission.Admitted? && w.now.broker.admission.session == d.session
      requires d.work == s.session.value.work
      modifies this`o, this`s, w
      ensures Ready() && o.finished.None? && Going(old(w.log), old(w.setbacks))
      ensures w.now.lock == old(w.now.lock) && w.now.course.checked == old(w.now.course.checked)
      ensures w.now.broker.opens == old(w.now.broker.opens)
      ensures s == old(s).(broker := Some(d))
      ensures o == if d.liveSchema then old(o).(state := Provisioning) else old(o)
      ensures if ok then d.liveSchema && Saved() else !d.liveSchema || Unwritten(old(w.setbacks))
      ensures ok ==> Clean(old(w.setbacks))
    {
      hide SaveOk, Inv, Rely, Initial, Legal, Replay, RowGrows, CourseSaved;
      w.Known();
      DescriptorSave(w.now, o, s, v, d);
      s := s.(broker := Some(d));
      if !d.liveSchema {
        return false;
      }
      o := o.(state := Provisioning);
      ok := Save();
    }

    /** Marks the dispatch, saves it, and only then sends the open. */
    method DispatchLive() returns (go: bool, err: Err)
      requires Ready() && worker && o.finished.None? && s.session.Some? && s.prep.Some? && s.claim.None?
      requires s.broker.None?
      requires w.now.s == s.(endReason := w.now.s.endReason) && o.state != Active
      requires o.stop ==> w.now.broker.admission.Admitted?
      requires w.now.course.cleared
      modifies this, w
      ensures o.stop == old(o.stop)
      ensures Going(old(w.log), old(w.setbacks))
      ensures go ==>
                Synced() && s == old(s).(dispatched := true, broker := s.broker) && s.broker.Some?
                    && w.now.lock == old(w.now.lock)
                    && w.now.course.checked == old(w.now.course.checked)
                    && o == old(o).(state := Provisioning) && v == old(v) && s.broker.value.liveSchema
      ensures !go && err.Fine? ==> Unheard(old(w.setbacks))
      ensures go || err.Fine? || Unsettled(old(w.setbacks))
      ensures !go ==> Done(err) && (err.Fine? ==> Settled())
      ensures go || err.Fine? ==> Clean(old(w.setbacks))
    {
      hide SaveOk, Inv, Rely, Initial, Legal, Replay, RowGrows, CourseSaved, TerminalView;
      DispatchSave(w.now, o, s, v);
      s := s.(dispatched := true);
      o := o.(state := Dispatching);
      var ok := Save();
      if !ok {
        return false, Trouble;
      }
      DispatchSaved(old(w.now), w.now, o, s);
      var response := OpenBroker();
      if !response.Some? {
        err := RecoverFailedOpen();
        return false, err;
      }
      go := TakeDescriptor(response.value);
      return go, Trouble;
    }

    /** No descriptor yet: heed a stop that arrived during authorization, then dispatch. */
    method OpenLive() returns (go: bool, err: Err)
      requires Synced() && worker && s.session.Some? && s.prep.Some? && s.claim.None? && s.broker.None?
      requires !w.now.course.checked
      modifies this, w
      ensures Going(old(w.log), old(w.setbacks))
      ensures o.stop ==> w.now.broker.opens == old(w.now.broker.opens) || w.now.broker.admission.Admitted?
      ensures old(o.stop) ==> o.stop
      ensures go ==> Synced() && s.broker.Some? && s.session.Some? && s.prep.Some? && s.claim.None?
                     && w.now.course.checked == old(w.now.course.checked)
                     && o == old(o).(state := Provisioning, stop := o.stop) && v == old(v)
                     && s == old(s).(dispatched := true, broker := s.broker,
                                     endReason := if o.stop then GatewayClose else old(s).endReason)
      ensures !go && err.Fine? ==> o.stop || Unheard(old(w.setbacks))
      ensures go || err.Fine? || Unsettled(old(w.setbacks)) || Unheard(old(w.setbacks))
      ensures !go ==> Done(err) && (err.Fine? ==> Settled())
      ensures go || err.Fine? ==> Clean(old(w.setbacks))
    {
      hide SaveOk, Inv, Rely, Initial, Legal, Replay, RowGrows, CourseSaved, TerminalView;
      w.Known();
      JournalFacts(w.now);
      var ok := RereadStop();
      if !ok {
        return false, Trouble;
      }
      go, err := OpenOrHeed();
    }

    /** The stop has been read: only an admitted session is opened after one. */
    method OpenOrHeed() returns (go: bool, err: Err)
      requires Synced() && worker && s.session.Some? && s.prep.Some? && s.claim.None? && s.broker.None?
      requires o.state != Active && w.now.course.cleared && (o.stop ==> w.now.course.open)
      modifies this, w
      ensures Going(old(w.log), old(w.setbacks)) && o.stop == old(o.stop)
      ensures o.stop ==> w.now.broker.opens == old(w.now.broker.opens) || w.now.broker.admission.Admitted?
      ensures go ==> Synced() && s.broker.Some? && s.session.Some? && s.prep.Some? && s.claim.None?
                     && w.now.course.checked == old(w.now.course.checked)
                     && o == old(o).(state := Provisioning) && v == old(v)
                     && s == old(s).(dispatched := true, broker := s.broker,
                                     endReason := if o.stop then GatewayClose else old(s).endReason)
      ensures !go && err.Fine? ==> o.stop || Unheard(old(w.setbacks))
      ensures go || err.Fine? || Unsettled(old(w.setbacks))
      ensures !go ==> Done(err) && (err.Fine? ==> Settled())
      ensures go || err.Fine? ==> Clean(old(w.setbacks))
    {
      hide SaveOk, Inv, Rely, Initial, Legal, Replay, RowGrows, CourseSaved, TerminalView;
      if o.stop {
        var existing, stopErr, said := StopUnopenedLive();
        if !existing {
          return false, stopErr;
        }
        w.Known();
        JournalFacts(w.now);
      }
      ghost var before := w.log;
      go, err := DispatchLive();
      if o.stop {
        AdmittedStays(w.start, before, w.log);
      }
      if go {
        w.Known();
        JournalFacts(w.now);
      }
    }

    // ---------- an open session ----------

    /** First stream key, then the operation becomes active. */
    method ActivateLive() returns (go: bool, err: Err)
      requires Synced() && worker && s.broker.Some? && s.claim.None? && s.endReason == NoReason && s.upstream.None?
      requires !w.now.course.checked && w.now.course.nearKey
      modifies this, w
      ensures o.stop == old(o.stop)
      ensures Going(old(w.log), old(w.setbacks)) && w.now.broker.opens == old(w.now.broker.opens)
      ensures go ==>
                Synced() && o.state == Active && v.status == Live && v.playable && s.upstream.Some? && w.now.course.open
                    && s == old(s).(upstream := s.upstream, keyExpires := s.keyExpires, keyRequest := None)
      ensures go ==> o == old(o).(state := Active) && v == old(v).(playable := true, status := Live)
      ensures !go ==> Done(err) && !err.Fine?
      ensures !go ==>
                || Keyless(old(w.setbacks)) || w.now.course.keys == Expired(2) || NoUrls(old(s))
                || (GrantExpired(old(s), w.now.clock) && (s, v) == ExpireGrant(old(s), old(v))
                    && o.state == OpState.Ending)
      ensures go || err.Fine? ==> Clean(old(w.setbacks))
    {
      hide SaveOk, Inv, Rely, Initial, Legal, Replay, RowGrows, CourseSaved;
      w.Known();
      JournalFacts(w.now);
      err := IssueLiveStreamKey();
      if !err.Fine? {
        return false, err;
      }
      ActiveSave(w.now, o, s, v, v.(playable := true, status := Live));
      v := v.(playable := true);
      o := o.(state := Active);
      v := v.(status := Live);
      label keyed:
      var ok := Save();
      if ok {
        OpenSaved(old@keyed(w.now), w.now, o, s);
      }
      return ok, Trouble;
    }

    /** The media is over, for this reason and with this usage so far: that shows before the session is ended. */
    method ShowEnd(reason: Reason, units: int) returns (ok: bool)
      requires Ready() && worker && o.finished.None? && s == w.now.s && o.state == w.now.op.state
      requires s.session.Some? && s.claim.None? && NoRefill(s) && w.now.course.open && reason != NoReason
      requires w.now.course.polled.Some? && EndsBy(w.now.course.polled.value, reason)
      modifies this, w
      ensures Ready() && Going(old(w.log), old(w.setbacks)) && w.now.broker.opens == old(w.now.broker.opens)
      ensures JournalKept(old(w.now), w.now)
      ensures s == old(s).(endReason := reason) && o == old(o).(state := AccountingPending) && v.mediaEnded.Some?
      ensures FinalView(s, old(v), v, units)
      ensures ok || Unwritten(old(w.setbacks))
      ensures ok ==> Clean(old(w.setbacks))
    {
      hide SaveOk, Inv, Rely, Initial, Legal, Replay, RowGrows, CourseSaved, TerminalView;
      SyncedFacts(w.now, s);
      EndSave(w.now, o, s, v, reason);
      s := s.(endReason := reason);
      TerminalViewSave(w.now, o, s, v, units);
      ApplyLiveTerminalView(units);
      FinalMedia(s, old(v), v, units);
      ok := ObserveLiveEnd();
    }

    /** The runner says the media is over: record it, then end the session for its evidence. */
    method EndByRunner(status: BrokerStatus) returns (err: Err)
      requires Ready() && worker && o.finished.None? && s == w.now.s && o.state == w.now.op.state
      requires s.broker.Some? && s.session.Some? && s.prep.Some? && s.claim.None? && NoRefill(s)
      requires w.now.course.open
      requires w.now.course.polled == Some(status) && Sound(status) && status.state == Over
      modifies this, w
      ensures o.stop == old(o.stop)
      ensures Done(err) && Going(old(w.log), old(w.setbacks)) && w.now.broker.opens == old(w.now.broker.opens)
      ensures err.Fine? ==> Settled()
      ensures s == old(s).(endReason := if status.closeReason == NoReason then RunnerEnded else status.closeReason,
                           claim := s.claim)
      ensures s.endReason in w.now.broker.endAsked || Unwritten(old(w.setbacks))
      ensures err.Fine? ==> FinalView(s, old(v), v, w.now.loc.closed.value.units)
      ensures err.Fine? || Unsettled(old(w.setbacks))
      ensures err.Fine? ==> Clean(old(w.setbacks))
    {
      hide SaveOk, Inv, Rely, Initial, Legal, Replay, RowGrows, CourseSaved, TerminalView;
      var reason := if status.closeReason == NoReason then RunnerEnded else status.closeReason;
      var ok := ShowEnd(reason, status.claimed);
      if !ok {
        return Trouble;
      }
      ghost var told, seen := s, v;
      err := EndLive();
      if err.Fine? {
        FinalAgain(told, s, old(v), seen, v, status.claimed, w.now.loc.closed.value.units);
      }
    }

    /** The status a poll reports, in the view. */
    method NoteStatus(status: BrokerStatus)
      requires Synced() && s.claim.None? && NoRefill(s)
      modifies this`v
      ensures Ready()
      ensures v == Noted(old(v), status)
      ensures v == old(v).(output := status.output, failure := status.failure, units := Some(status.claimed))
    {
      hide SaveOk, Inv, Rely, Initial, Legal, Replay, RowGrows, CourseSaved;
      ViewSave(w.now, o, s, v, v.(output := status.output, failure := status.failure, units := Some(status.claimed)));
      v := v.(output := status.output);
      v := v.(failure := status.failure);
      v := v.(units := Some(status.claimed));
    }

    /** Mints a refill identity one fund above the current cap, saves it, and drives it. */
    method TopUpLive() returns (err: Err)
      requires Ready() && worker && o.finished.None? && s == w.now.s && o.state == w.now.op.state
      requires s.broker.Some? && s.session.Some? && s.prep.Some? && s.claim.None? && NoRefill(s)
      requires s.endReason == NoReason && s.upstream.Some?
      requires !s.refillRefused && s.session.value.extensible && s.cap < w.now.cfg.limit
      requires w.now.course.polled.Some? && NeedsTopUp(w.now.course.polled.value)
      modifies this, w
      ensures o.stop == old(o.stop)
      ensures Done(err) && Going(old(w.log), old(w.setbacks)) && w.now.broker.opens == old(w.now.broker.opens)
      ensures err.Fine? && o.finished.Some? ==> Settled()
      ensures err.Fine? && o.finished.None? ==>
                s.session.Some? && s == w.now.s && w.now.course.open
                    && s.cap == Min(w.now.cfg.limit, old(s.cap) + w.now.cfg.fund)
      ensures err.Fine? && o.finished.Some? ==>
                Unheard(old(w.setbacks)) || s.refillRefused || s.endReason == RefillRefusal
      ensures err.Fine? && o.finished.None? ==> o == old(o) && v == old(v)
      ensures err.Fine? || Unsettled(old(w.setbacks))
      ensures err.Fine? ==> Clean(old(w.setbacks))
    {
      hide SaveOk, Inv, Rely, Initial, Legal, Replay, RowGrows, CourseSaved, TerminalView;
      var id := NewRefillId();
      w.Known();
      MintSave(w.now, o, s, v, id);
      s := s.(refillCap := Min(w.now.cfg.limit, s.cap + w.now.cfg.fund));
      s := s.(refillId := Some(id));
      label minted:
      var ok := Save();
      if !ok {
        return Trouble;
      }
      MintSaved(old@minted(w.now), w.now, o, s);
      err := RefillLive();
    }

    /** The pass's last projection, which may repeat a finished one. */
    method ProjectLast() returns (err: Err)
      requires Ready() && worker && s.session.Some? && (o.finished.Some? ==> Settled())
      requires o.finished.None? ==> w.now.course.open
      requires w.now.s.session.Some?
      modifies w
      ensures Done(err) && Going(old(w.log), old(w.setbacks)) && w.now.broker.opens == old(w.now.broker.opens)
      ensures err.Fine? && o.finished.Some? ==> Settled()
      ensures JournalKept(old(w.now), w.now) && (err.Fine? ==> Shown(w.now, Projection(o, v)))
      ensures err.Fine? || Unwritten(old(w.setbacks))
      ensures err.Fine? ==> Clean(old(w.setbacks))
    {
      hide SaveOk, Inv, Rely, Initial, Legal, Replay, RowGrows, CourseSaved, TerminalView;
      if o.finished.Some? {
        UnfinishedSave(w.now, o, s, v);
      }
      TerminalUnits(s, v);
      var ok := ProjectLive(true);
      if !ok {
        return Trouble;
      }
      if o.finished.Some? {
        SettledSave(w.now, o, s, v);
      }
      return Fine;
    }

    /** What the view notes of an answer to a poll. */
    function Noted(v: View, status: BrokerStatus): View {
      v.(output := status.output, failure := status.failure, units := Some(status.claimed))
    }

    /** The product row shows what the journal holds. */
    method ShowRunning() returns (ok: bool)
      requires Synced() && worker && s.session.Some? && w.now.course.open
      modifies w
      ensures Synced() && Going(old(w.log), old(w.setbacks)) && w.now.broker.opens == old(w.now.broker.opens)
      ensures w.now.cfg == old(w.now.cfg) && w.now.course == old(w.now.course)
      ensures if ok then Shown(w.now, Projection(o, v)) else Unwritten(old(w.setbacks))
      ensures ok ==> Clean(old(w.setbacks))
    {
      hide SaveOk, Inv, Rely, Initial, Legal, Replay, RowGrows, CourseSaved, TerminalView;
      ok := ProjectLive(false);
    }

    /** One poll of a running session: terminal, winding down, or perhaps in need of a refill. */
    method PollLive() returns (err: Err, ghost status: Option<BrokerStatus>)
      requires Synced() && worker && s.broker.Some? && s.session.Some? && s.prep.Some? && s.claim.None?
      requires s.endReason == NoReason && s.upstream.Some?
      requires NoRefill(s) && !s.refillRefused
      requires w.now.course.open
      modifies this, w
      ensures o.stop == old(o.stop)
      ensures Done(err) && Going(old(w.log), old(w.setbacks)) && w.now.broker.opens == old(w.now.broker.opens)
      ensures err.Fine? && o.finished.Some? ==> Settled()
      ensures err.Fine? && o.finished.None? ==> status.Some? && Shown(w.now, Projection(o, v))
      ensures status.Some? ==>
                && Sound(status.value)
                && Heard(status.value, old(s), old(v), old(w.now.cfg), err, old(w.setbacks))
      ensures status.None? && err.Fine? ==> Unheard(old(w.setbacks)) && o.state == LocSettled && s == old(s)
      ensures err.Fine? || Unsettled(old(w.setbacks))
      ensures err.Fine? ==> Clean(old(w.setbacks))
    {
      hide SaveOk, Inv, Rely, Initial, Legal, Replay, RowGrows, CourseSaved, TerminalView, FinalView, SettledByLoc,
        Heard, Sound, Moved, PeersGrow;
      status := None;
      var ok := ShowRunning();
      if !ok {
        return Trouble, None;
      }
      err, status := PollBroker(old(w.setbacks));
    }

    /** The row shows what the journal holds; `t` is what had gone wrong when the pass came to poll. */
    method PollBroker(ghost t: Setbacks) returns (err: Err, ghost status: Option<BrokerStatus>)
      requires Synced() && worker && s.broker.Some? && s.session.Some? && s.prep.Some? && s.claim.None?
      requires s.endReason == NoReason && s.upstream.Some? && NoRefill(s) && !s.refillRefused
      requires w.now.course.open && Going(w.log, t) && Shown(w.now, Projection(o, v))
      modifies this, w
      ensures o.stop == old(o.stop)
      ensures Done(err) && Going(old(w.log), t) && w.now.broker.opens == old(w.now.broker.opens)
      ensures err.Fine? && o.finished.Some? ==> Settled()
      ensures err.Fine? && o.finished.None? ==> status.Some? && Shown(w.now, Projection(o, v))
      ensures status.Some? ==> Sound(status.value) && Heard(status.value, old(s), old(v), old(w.now.cfg), err, t)
      ensures status.None? && err.Fine? ==> Unheard(t) && o.state == LocSettled && s == old(s)
      ensures err.Fine? || Unsettled(t)
      ensures err.Fine? ==> Clean(old(w.setbacks))
    {
      hide SaveOk, Inv, Rely, Initial, Legal, Replay, RowGrows, CourseSaved, TerminalView, FinalView, SettledByLoc,
        Heard, Sound, Moved, PeersGrow;
      var response := StatusSession();
      err, status := HeedReply(response, t);
    }

    /** No answer: LOC's record decides. An answer that cannot be used: nothing is done. Any other is heeded. */
    method HeedReply(response: Option<BrokerStatus>,
                     ghost t: Setbacks) returns (err: Err, ghost status: Option<BrokerStatus>)
      requires Synced() && worker && s.broker.Some? && s.session.Some? && s.prep.Some? && s.claim.None?
      requires s.endReason == NoReason && s.upstream.Some? && NoRefill(s) && !s.refillRefused
      requires w.now.course.open && (response.Some? ==> w.now.course.polled == response)
      requires Going(w.log, t) && (response.None? ==> Unheard(t))
                && (response.Some? ==> Sound(response.value) || Odd(t))
      modifies this, w
      ensures o.stop == old(o.stop)
      ensures Done(err) && Going(old(w.log), t) && w.now.broker.opens == old(w.now.broker.opens)
      ensures err.Fine? && o.finished.Some? ==> Settled()
      ensures err.Fine? && o.finished.None? ==> status.Some? && Shown(w.now, Projection(o, v))
      ensures status.Some? ==> Sound(status.value) && Heard(status.value, old(s), old(v), old(w.now.cfg), err, t)
      ensures status.None? && err.Fine? ==> Unheard(t) && o.state == LocSettled && s == old(s)
      ensures err.Fine? || Unsettled(t)
      ensures err.Fine? ==> Clean(old(w.setbacks))
    {
      hide SaveOk, Inv, Rely, Initial, Legal, Replay, RowGrows, CourseSaved, TerminalView, FinalView, SettledByLoc,
        Heard;
      status := None;
      if !response.Some? {
        err := FinishByRecord();
        return err, None;
      }
      if !response.value.outputSeconds || response.value.claimed < 0 {
        return Trouble, None;
      }
      ghost var u := w.setbacks;
      err := HeedStatus(response.value);
      HeardBefore(response.value, old(s), old(v), old(w.now.cfg), err, t, u);
      status := response;
    }

    /**
     * What an answer to a poll leads to. Over: the session ends for the runner's reason. Winding down: it ends.
     * Running: a top-up if the runway is low, and nothing else.
     */
    ghost predicate Heard(status: BrokerStatus, was: Secrets, seen: View, cfg: Config, err: Err, t: Setbacks)
      reads this, w
    {
      match status.state
      case Over =>
        && s == was.(endReason := if status.closeReason == NoReason then RunnerEnded else status.closeReason,
                     claim := s.claim)
        && (s.endReason in w.now.broker.endAsked || Unwritten(t))
        && (err.Fine? ==> Settled() && FinalView(s, Noted(seen, status), v, w.now.loc.closed.value.units))
      case WindingDown =>
        && s == was.(endReason := RunnerEnded, claim := s.claim)
        && (RunnerEnded in w.now.broker.endAsked || Unwritten(t))
        && (err.Fine? ==> Settled() && FinalView(s, Marked(s, Noted(seen, status)), v, w.now.loc.closed.value.units))
      case Running =>
        if status.runwayLow && !status.willRefuse && was.session.Some? && was.session.value.extensible
           && was.cap < cfg.limit then
          && (err.Fine? && o.finished.None? ==> w.now.s == s && s.cap == Min(cfg.limit, was.cap + cfg.fund))
          && (err.Fine? && o.finished.Some? ==> Unheard(t) || s.refillRefused || s.endReason == RefillRefusal)
        else
          && s == was && v == Noted(seen, status) && o.finished.None? && w.now.s == was
          && (err.Fine? || Unwritten(t))
    }

    lemma HeardBefore(status: BrokerStatus, was: Secrets, seen: View, cfg: Config, err: Err, t: Setbacks, u: Setbacks)
      requires Heard(status, was, seen, cfg, err, u) && t.writes <= u.writes && t.lost <= u.lost
      ensures Heard(status, was, seen, cfg, err, t)
    {
    }

    /** The broker's answer is noted: over, winding down, or running on. */
    method HeedStatus(status: BrokerStatus) returns (err: Err)
      requires Synced() && worker && s.broker.Some? && s.session.Some? && s.prep.Some? && s.claim.None?
      requires s.endReason == NoReason && s.upstream.Some?
      requires NoRefill(s) && !s.refillRefused
      requires w.now.course.open && w.now.course.polled == Some(status) && Sound(status)
      modifies this, w
      ensures o.stop == old(o.stop)
      ensures Done(err) && Going(old(w.log), old(w.setbacks)) && w.now.broker.opens == old(w.now.broker.opens)
      ensures err.Fine? && o.finished.Some? ==> Settled()
      ensures err.Fine? && o.finished.None? ==> Shown(w.now, Projection(o, v))
      ensures Heard(status, old(s), old(v), old(w.now.cfg), err, old(w.setbacks))
      ensures err.Fine? || Unsettled(old(w.setbacks))
      ensures err.Fine? ==> Clean(old(w.setbacks))
    {
      hide SaveOk, Inv, Rely, Initial, Legal, Replay, RowGrows, CourseSaved, TerminalView, FinalView, SettledByLoc;
      NoteStatus(status);
      match status.state
      case Over =>
        err := EndByRunner(status);
      case WindingDown =>
        err := WindDown();
      case Running =>
        err := RunOn(status);
    }

    /** The session runs on: a top-up if it needs one, and the pass's last projection. */
    method RunOn(status: BrokerStatus) returns (err: Err)
      requires Ready() && worker && o.finished.None? && s == w.now.s && o.state == w.now.op.state
      requires s.broker.Some? && s.session.Some? && s.prep.Some? && s.claim.None? && NoRefill(s)
      requires s.endReason == NoReason && s.upstream.Some? && !s.refillRefused
      requires w.now.course.open && w.now.course.polled == Some(status) && Sound(status) && status.state == Running
      modifies this, w
      ensures o.stop == old(o.stop)
      ensures Done(err) && Going(old(w.log), old(w.setbacks)) && w.now.broker.opens == old(w.now.broker.opens)
      ensures err.Fine? && o.finished.Some? ==> Settled()
      ensures err.Fine? && o.finished.None? ==> Shown(w.now, Projection(o, v))
      ensures if status.runwayLow && !status.willRefuse && old(s).session.value.extensible
                 && old(s).cap < old(w.now.cfg).limit
              then
                && (err.Fine? && o.finished.None? ==>
                      w.now.s == s && s.cap == Min(old(w.now.cfg).limit, old(s).cap + old(w.now.cfg).fund))
                && (err.Fine? && o.finished.Some? ==>
                      Unheard(old(w.setbacks)) || s.refillRefused || s.endReason == RefillRefusal)
              else
                && s == old(s) && v == old(v) && o == old(o) && w.now.s == s
                && (err.Fine? || Unwritten(old(w.setbacks)))
      ensures err.Fine? || Unsettled(old(w.setbacks))
      ensures err.Fine? ==> Clean(old(w.setbacks))
    {
      hide SaveOk, Inv, Rely, Initial, Legal, Replay, RowGrows, CourseSaved, TerminalView, FinalView;
      if status.runwayLow && s.session.value.extensible && s.cap < w.now.cfg.limit && !status.willRefuse {
        err := TopUpLive();
        if !err.Fine? {
          return;
        }
      }
      err := ProjectLast();
    }

    /** The broker winds the session down. */
    method WindDown() returns (err: Err)
      requires Ready() && worker && o.finished.None? && s == w.now.s && o.state == w.now.op.state
      requires s.broker.Some? && s.session.Some? && s.prep.Some? && s.claim.None? && NoRefill(s)
      requires w.now.course.polled.Some? && EndsBy(w.now.course.polled.value, RunnerEnded)
      modifies this, w
      ensures o.stop == old(o.stop)
      ensures Done(err) && Going(old(w.log), old(w.setbacks)) && w.now.broker.opens == old(w.now.broker.opens)
      ensures s == old(s).(endReason := RunnerEnded, claim := s.claim)
      ensures RunnerEnded in w.now.broker.endAsked || Unwritten(old(w.setbacks))
      ensures err.Fine? ==> Settled() && FinalView(s, Marked(s, old(v)), v, w.now.loc.closed.value.units)
      ensures err.Fine? || Unsettled(old(w.setbacks))
      ensures err.Fine? ==> Clean(old(w.setbacks))
    {
      hide SaveOk, Inv, Rely, Initial, Legal, Replay, RowGrows, CourseSaved, TerminalView;
      SyncedFacts(w.now, s);
      EndSave(w.now, o, s, v, RunnerEnded);
      s := s.(endReason := RunnerEnded);
      err := EndLive();
    }

    /** What a pass over an open session holds: the saved row, but perhaps for a reason to end it. */
    ghost predicate Steering()
      reads this, w`now, w`log
    {
      && Ready() && worker && o.finished.None? && o.state == w.now.op.state && v == w.now.v
      && w.now.s == s.(endReason := w.now.s.endReason) && (w.now.s.endReason != NoReason ==> s.endReason != NoReason)
      && s.broker.Some? && s.session.Some? && s.prep.Some? && s.claim.None?
      && (s.refillRefused ==> s.endReason != NoReason && s.refill.Some?) && (s.refillId.None? ==> NoRefill(s))
    }

    /** The broker has a session: heed a stop, replay a pending refill, end, activate or poll. */
    method ControlLive() returns (err: Err, ghost status: Option<BrokerStatus>)
      requires Synced() && worker && s.broker.Some? && s.session.Some? && s.prep.Some? && s.claim.None?
      requires !w.now.course.checked
      modifies this, w
      ensures Done(err) && Going(old(w.log), old(w.setbacks)) && w.now.broker.opens == old(w.now.broker.opens)
      ensures err.Fine? && o.finished.Some? ==> Settled()
      ensures old(o.stop) ==> o.stop
      ensures o.stop && err.Fine? ==> Settled()
      ensures old(s.endReason) != NoReason && err.Fine? ==> Settled()
      ensures o.stop && old(s.endReason) == NoReason && old(s.refillId).None? && err.Fine? ==>
                s.endReason == GatewayClose
      ensures err.Fine? && o.finished.None? ==> status.Some? && Shown(w.now, Projection(o, v))
      ensures !err.Fine? ==> Unsettled(old(w.setbacks)) || Unheard(old(w.setbacks)) || Unkeyed(old(s))
      ensures err.Fine? ==> Clean(old(w.setbacks))
    {
      hide SaveOk, Inv, Rely, Initial, Legal, Replay, RowGrows, CourseSaved, TerminalView;
      status := None;
      var ok := HeedStop();
      if !ok {
        return Trouble, None;
      }
      err, status := ReplayThenSteer(old(w.setbacks));
    }

    /** The stop has been read: a pending refill is replayed before anything else. */
    method ReplayThenSteer(ghost t: Setbacks) returns (err: Err, ghost status: Option<BrokerStatus>)
      requires Steering() && (s.refillId.Some? ==> s.upstream.Some?) && Going(w.log, t) && !w.now.course.checked
      requires s.refillId.Some? && s.refill.None? && !s.refillRefused ==> w.now.course.asks
      requires s.endReason == NoReason && s.refillId.None? ==>
                 if s.upstream.None? then w.now.course.nearKey else w.now.course.open
      modifies this, w
      ensures o.stop == old(o.stop)
      ensures Done(err) && Going(old(w.log), t) && w.now.broker.opens == old(w.now.broker.opens)
      ensures err.Fine? && o.finished.Some? ==> Settled()
      ensures old(s.endReason) != NoReason && err.Fine? ==> Settled()
      ensures old(s.endReason) != NoReason && old(s.refillId).None? ==> s == old(s).(claim := s.claim)
      ensures err.Fine? && o.finished.None? ==> status.Some? && Shown(w.now, Projection(o, v))
      ensures !err.Fine? ==> Unsettled(t) || Unheard(t) || Unkeyed(old(s))
      ensures err.Fine? ==> Clean(old(w.setbacks))
    {
      hide SaveOk, Inv, Rely, Initial, Legal, Replay, RowGrows, CourseSaved, TerminalView, FinalView;
      status := None;
      err := ReplayRefill();
      if !err.Fine? || o.finished.Some? {
        return;
      }
      err, status := SteerLive(t);
    }

    /** Why a pass without a key has none, apart from what went wrong. */
    ghost predicate Unkeyed(was: Secrets)
      reads this, w`now
    {
      w.now.course.keys == Expired(2) || NoUrls(was) || GrantExpired(was, w.now.clock)
    }

    /** Reads the stop; a stop ends the session, unless something has already. */
    method HeedStop() returns (ok: bool)
      requires Synced() && worker && s.broker.Some? && s.session.Some? && s.prep.Some? && s.claim.None?
      requires !w.now.course.checked
      modifies this, w
      ensures Ready() && Going(old(w.log), old(w.setbacks)) && w.now.broker.opens == old(w.now.broker.opens)
      ensures o == old(o).(stop := o.stop) && (old(o.stop) ==> o.stop) && v == old(v)
      ensures ok || Unheard(old(w.setbacks))
      ensures s == old(s).(endReason := if ok && o.stop && old(s).endReason == NoReason then GatewayClose
                           else old(s).endReason)
      ensures ok ==> Steering() && w.now.course == RereadCourse(old(w.now.course), true, o.stop, old(s))
      ensures ok ==> s.refillId.Some? ==> s.upstream.Some?
      ensures ok ==> w.now.s == old(s) && (w.now.op.stop ==> o.stop)
      ensures Clean(old(w.setbacks))
    {
      hide SaveOk, Inv, Rely, Initial, Legal, Replay, RowGrows, CourseSaved, TerminalView, RereadCourse;
      ok := RereadStop();
      if !ok {
        return;
      }
      w.Known();
      JournalFacts(w.now);
      if o.stop && s.endReason == NoReason {
        SyncedFacts(w.now, s);
        EndSave(w.now, o, s, v, GatewayClose);
        s := s.(endReason := GatewayClose);
      }
    }

    /** A lost top-up response may already have changed the grant in use: a pending refill is replayed first. */
    method ReplayRefill() returns (err: Err)
      requires Steering() && (s.refillId.Some? ==> s.upstream.Some?)
      requires s.refillId.Some? && s.refill.None? && !s.refillRefused ==> w.now.course.asks
      requires s.endReason == NoReason && s.refillId.None? ==>
                 if s.upstream.None? then w.now.course.nearKey else w.now.course.open
      modifies this, w
      ensures o.stop == old(o.stop)
      ensures Done(err) && Going(old(w.log), old(w.setbacks)) && w.now.broker.opens == old(w.now.broker.opens)
      ensures err.Fine? && o.finished.Some? ==> Settled()
      ensures err.Fine? && o.finished.None? ==>
                && Steering() && (s.refillId.Some? ==> s.refillRefused) && s.endReason == old(s.endReason)
                && s.upstream == old(s.upstream)
                && NoUrls(s) == NoUrls(old(s)) && (forall at :: GrantExpired(s, at) == GrantExpired(old(s), at))
                && w.now.course.checked == old(w.now.course.checked)
                && (s.endReason == NoReason ==> if s.upstream.None? then w.now.course.nearKey else w.now.course.open)
      ensures old(s.refillId).None? || old(s.refillRefused) ==> err.Fine? && s == old(s) && o == old(o)
      ensures err.Fine? || Unsettled(old(w.setbacks))
      ensures err.Fine? ==> Clean(old(w.setbacks))
    {
      hide SaveOk, Inv, Rely, Initial, Legal, Replay, RowGrows, CourseSaved, TerminalView;
      err := Fine;
      if s.refillId.Some? && !s.refillRefused {
        err := RefillLive();
      }
    }

    /** No top-up is left to replay: end the session if there is a reason to, else see to its key and poll it. */
    method SteerLive(ghost t: Setbacks) returns (err: Err, ghost status: Option<BrokerStatus>)
      requires Steering() && (s.refillId.Some? ==> s.refillRefused) && Going(w.log, t) && !w.now.course.checked
      requires s.endReason == NoReason ==> if s.upstream.None? then w.now.course.nearKey else w.now.course.open
      modifies this, w
      ensures o.stop == old(o.stop)
      ensures Done(err) && Going(old(w.log), t) && w.now.broker.opens == old(w.now.broker.opens)
      ensures err.Fine? && o.finished.Some? ==> Settled()
      ensures old(s.endReason) != NoReason ==>
                && s == old(s).(claim := s.claim) && (s.endReason in w.now.broker.endAsked || Unwritten(t))
                && (err.Fine? ==> Settled() && FinalView(s, Marked(s, old(v)), v, w.now.loc.closed.value.units))
      ensures err.Fine? && o.finished.None? ==> status.Some? && Shown(w.now, Projection(o, v))
      ensures !err.Fine? ==> Unsettled(t) || Unheard(t) || Unkeyed(old(s))
      ensures err.Fine? ==> Clean(old(w.setbacks))
    {
      hide SaveOk, Inv, Rely, Initial, Legal, Replay, RowGrows, CourseSaved, TerminalView, Heard;
      status := None;
      if s.endReason != NoReason {
        err := EndLive();
        return;
      }
      if s.upstream.None? {
        var go, activateErr := ActivateLive();
        if !go {
          return activateErr, None;
        }
      }
      err, status := PollLive();
    }

    /** A reconnect with the lock in hand: keeps or renews the key, then reads the row once more. */
    method RenewedURL() returns (url: Option<Id>, ghost keys: KeyPhase)
      requires Synced() && !worker && o.state == Active && !o.stop
      requires w.now.course.keys == Untried && !w.now.course.checked
      modifies this, w
      ensures Ready() && Going(old(w.log), old(w.setbacks)) && w.now.broker.opens == old(w.now.broker.opens)
      ensures url.Some? ==>
                w.now.op.state == Active && !w.now.op.stop && w.now.op.finished.None? && url == w.now.s.upstream
                    && w.now.s.keyRequest.None?
      ensures keys == w.now.course.keys
      ensures url.None? ==> w.now.op.stop || w.now.op.finished.Some? || Keyless(old(w.setbacks)) || Unkeyed(old(s))
      ensures url.Some? ==> Clean(old(w.setbacks))
    {
      hide SaveOk, Inv, Rely, Initial, Legal, Replay, RowGrows, CourseSaved;
      if KeyUsable(s, w.now.clock) {
        CheckGrant();
      } else {
        var err := IssueLiveStreamKey();
        if !err.Fine? {
          return None, w.now.course.keys;
        }
      }
      Env();
      var read: bool := *;
      Note(read, true);
      url := if !read || w.now.op.stop || w.now.op.finished.Some? then None else s.upstream;
      keys := w.now.course.keys;
    }

    /** LOC prepares and authorizes the session, each once, each saved before it is used. */
    method IssueLive() returns (go: bool, err: Err)
      requires Synced() && worker && o.attempts >= 1 && (s.prep.None? ==> !o.stop && s.session.None?)
      modifies this, w
      ensures o.stop == old(o.stop)
      ensures Going(old(w.log), old(w.setbacks)) && w.now.broker.opens == old(w.now.broker.opens)
      ensures go ==>
                && Synced() && s == old(s).(prep := s.prep, body := s.body, session := s.session)
                && s.prep.Some? && s.session.Some? && v == old(v) && w.now.lock == old(w.now.lock)
                && w.now.course.checked == old(w.now.course.checked)
                && (old(s.session).Some? && old(s.prep).Some? ==> s == old(s) && o == old(o) && w.now == old(w.now))
      ensures !go ==> Done(err) && !err.Fine? && old(s.session).None?
      ensures !go ==>
                || Unissued(err, old(s.prep), old(o), old(v)) || Unheard(old(w.setbacks)) || Unwritten(old(w.setbacks))
      ensures go || err.Fine? ==> Clean(old(w.setbacks))
    {
      hide SaveOk, Inv, Rely, Initial, Legal, Replay, RowGrows, CourseSaved, TerminalView, Outcome;
      w.Known();
      JournalFacts(w.now);
      if s.prep.None? {
        go, err := PrepareLive();
        if !go {
          return;
        }
      }
      if s.session.None? {
        go, err := AuthorizeLive();
        return;
      }
      return true, Fine;
    }

    /** The session is authorized: finish on a saved claim, else open it, unless that was done, and control it. */
    method RunIssued(ghost t: Setbacks) returns (err: Err, ghost held: Secrets, ghost status: Option<BrokerStatus>)
      requires Synced() && worker && s.prep.Some? && s.session.Some? && (s.claim.Some? ==> w.now.course.open)
      requires !w.now.course.checked && Going(w.log, t)
      modifies this, w
      ensures Done(err) && Going(old(w.log), t)
      ensures old(o.stop) && old(s.broker).None? ==>
                w.now.broker.opens == old(w.now.broker.opens) || w.now.broker.admission.Admitted?
      ensures err.Fine? && o.finished.Some? ==> Settled()
      ensures old(o.stop) && err.Fine? ==> o.finished.Some?
      ensures err.Fine? && o.finished.None? ==> status.Some? && Shown(w.now, Projection(o, v))
      ensures !err.Fine? ==> Unsettled(t) || Unheard(t) || (held.broker.Some? && Unkeyed(held))
      ensures err.Fine? ==> Clean(old(w.setbacks))
    {
      hide SaveOk, Inv, Rely, Initial, Legal, Replay, RowGrows, CourseSaved, TerminalView, Outcome, Unkeyed;
      held, status := s, None;
      if s.claim.Some? {
        err := FinishLive();
        return;
      }
      if s.broker.None? {
        var going, openErr := OpenLive();
        if !going {
          return openErr, s, None;
        }
      }
      held := s;
      ghost var before := w.log;
      err, status := ControlLive();
      if old(o.stop) && old(s.broker).None? && w.now.broker.opens != old(w.now.broker.opens) {
        AdmittedStays(w.start, before, w.log);
      }
    }

    /** What a pass does with its row once it has returned. */
    method Withdraw(err: Err)
      requires Done(err)
      modifies this`o
      ensures Ready() && o == Withdrawn(err, old(o))
    {
      hide SaveOk, Inv, Rely, Initial, Legal, Replay;
      if !err.Fine? && o.state != OpState.IssuanceRefused {
        o := o.(finished := None);
      }
    }

    /** One pass over a live operation; `held` is what it held once the broker had a session, `status` its poll. */
    method RunLive() returns (err: Err, ghost held: Secrets, ghost status: Option<BrokerStatus>)
      requires Synced() && worker && o.attempts >= 1 && (s.claim.Some? ==> w.now.course.open) && !w.now.course.checked
      modifies this, w
      ensures Done(err) && Going(old(w.log), old(w.setbacks))
      ensures old(o.stop) && old(s.broker).None? ==>
                w.now.broker.opens == old(w.now.broker.opens) || w.now.broker.admission.Admitted?
      ensures err.Fine? && o.finished.Some? ==>
                Settled() || (o.state == Canceled && w.now.res.state == ReservationState.Refunded
                              && !w.now.loc.authorized.Granted?)
      ensures old(o.stop) && err.Fine? ==> o.finished.Some?
      ensures err.Fine? && o.finished.None? ==> status.Some? && Shown(w.now, Projection(o, v))
      ensures !err.Fine? ==>
                || Unissued(err, old(s.prep), old(o), old(v)) || Unsettled(old(w.setbacks))
                || Unheard(old(w.setbacks)) || (held.broker.Some? && Unkeyed(held))
      ensures err.Fine? ==> Clean(old(w.setbacks))
    {
      hide SaveOk, Inv, Rely, Initial, Legal, Replay, RowGrows, CourseSaved, TerminalView, Outcome;
      w.Known();
      JournalFacts(w.now);
      held, status := s, None;
      if o.stop && s.prep.None? && s.session.None? {
        err := CancelLive();
        return;
      }
      var go, issueErr := IssueLive();
      if !go {
        return issueErr, s, None;
      }
      err, held, status := RunIssued(old(w.setbacks));
    }
  }

  /** A pass that failed gives up the end it had in hand, except of a refused operation. */
  function Withdrawn(err: Err, o: OpRow): OpRow {
    if !err.Fine? && o.state != OpState.IssuanceRefused then o.(finished := None) else o
  }

  /** The row a pass holds that has counted its attempt and, if it got one, saved LOC's preparation. */
  function Attempted(was: Snap, s: Secrets): OpRow {
    was.op.(attempts := was.op.attempts + 1,
            state := if was.s.prep.None? && s.prep.Some? then Prepared else was.op.state)
  }

  /**
   * How a turn ends that nothing hindered: with a finished operation or a current product row, and finished after a
   * stop; with LOC's error answer before any grant; or without a key.
   */
  ghost predicate TurnEnds(was: Snap, now: Snap, err: Err, held: Secrets, keys: KeyPhase) {
    if err.Fine? then
      && (was.op.stop ==> now.op.finished.Some?)
      && (now.op.finished.Some? || Shown(now, Projection(now.op, now.v)))
    else
      || (&& err.LocAnswer? && now.s.session.None?
          && AnswerLeaves(err.status, Attempted(was, now.s), was.v, now.op.(stop := was.op.stop), now.v))
      || (held.broker.Some? && (keys == Expired(2) || NoUrls(held) || GrantExpired(held, now.clock)))
  }

  lemma TurnWritten(was: Snap, a: Snap, b: Snap, err: Err, held: Secrets, keys: KeyPhase, o: OpRow)
    requires b.op == Withdrawn(err, o).(stop := a.op.stop)
    requires b.stream == a.stream && b.strayed == a.strayed && b.clock == a.clock && was.op.finished.None?
    requires err.Fine? ==>
               && (was.op.stop ==> o.finished.Some?)
               && (o.finished.Some? || Shown(a, Projection(o, b.v)))
    requires !err.Fine? ==>
               || (err.LocAnswer? && b.s.session.None? && AnswerLeaves(err.status, Attempted(was, b.s), was.v, o, b.v))
               || (held.broker.Some? && (keys == Expired(2) || NoUrls(held) || GrantExpired(held, a.clock)))
    ensures TurnEnds(was, b, err, held, keys)
  {
  }

  /**
   * One turn of the control worker: lock, read, run, and write whatever the pass holds. `err` is what the pass
   * returned, `held` what it held once the broker had a session, `keys` how far it got with its key.
   */
  method Process(w: World) returns (ghost err: Err, ghost held: Secrets, ghost keys: KeyPhase)
    requires w.Valid()
    modifies w
    ensures w.Valid() && old(w.log) <= w.log && (!w.now.lock.held || w.now == old(w.now))
    ensures old(w.now.op.finished.Some? || w.now.lock.held) ==> w.now == old(w.now) && err.Fine?
    ensures old(w.now.op.stop) && old(w.now.s.broker).None? ==>
              w.now.broker.opens == old(w.now.broker.opens) || w.now.broker.admission.Admitted?
    ensures old(w.now.op.finished.None? && !w.now.lock.held) && w.setbacks == old(w.setbacks) ==>
              TurnEnds(old(w.now), w.now, err, held, keys)
  {
    hide SaveOk, Inv, Rely, Initial, Legal, Replay, RowGrows, CourseSaved, TerminalView, TurnEnds;
    err, held, keys := Fine, w.now.s, Untried;
    if w.now.lock.held || w.now.op.finished.Some? {
      return;
    }
    err, held, keys := Turn(w);
  }

  /** The lock is free and the operation unfinished: run one pass. */
  method Turn(w: World) returns (ghost err: Err, ghost held: Secrets, ghost keys: KeyPhase)
    requires w.Valid() && !w.now.lock.held && w.now.op.finished.None?
    modifies w
    ensures w.Valid() && old(w.log) <= w.log && !w.now.lock.held
    ensures old(w.now.op.stop) && old(w.now.s.broker).None? ==>
              w.now.broker.opens == old(w.now.broker.opens) || w.now.broker.admission.Admitted?
    ensures w.setbacks == old(w.setbacks) ==> TurnEnds(old(w.now), w.now, err, held, keys)
  {
    hide SaveOk, Inv, Rely, Initial, Legal, Replay, RowGrows, CourseSaved, TerminalView, GrantExpired, NoUrls, TurnEnds,
      AnswerLeaves, Shown, Projection, Withdrawn;
    w.DoLock(Acquire(true));
    var pass := new Pass(w);
    var returned, kept, status := pass.RunLive();
    err, held, keys := returned, kept, w.now.course.keys;
    ghost var o := pass.o;
    pass.Withdraw(returned);
    ghost var last := w.now;
    WriteLast(w, pass.o, pass.s, pass.v);
    if w.setbacks == old(w.setbacks) {
      TurnWritten(old(w.now), last, w.now, err, held, keys, o);
    }
  }

  /** Whether a write lands. */
  method Lands(w: World) returns (lands: bool)
    modifies w`setbacks
    ensures w.setbacks == old(w.setbacks).(writes := old(w.setbacks.writes) + if lands then 0 else 1)
  {
    lands := *;
    if !lands {
      w.setbacks := w.setbacks.(writes := w.setbacks.writes + 1);
    }
  }

  /** The pass has returned: whatever it holds is written, the lock released. */
  method WriteLast(w: World, o: OpRow, s: Secrets, v: View)
    requires w.Valid() && w.now.lock.held && w.now.lock.worker && SaveOk(w.now, o, s, v)
    modifies w
    ensures w.Valid() && old(w.log) <= w.log && !w.now.lock.held && w.now.broker == old(w.now.broker)
    ensures w.now.clock == old(w.now.clock) && w.now.stream == old(w.now.stream) && w.now.strayed == old(w.now.strayed)
    ensures (w.now.op, w.now.s, w.now.v) == (o.(stop := old(w.now.op.stop)), s, v)
              || w.setbacks.writes > old(w.setbacks.writes)
    ensures w.setbacks == old(w.setbacks).(writes := w.setbacks.writes) && w.setbacks.writes >= old(w.setbacks.writes)
  {
    hide SaveOk, Inv, Rely, Initial, Legal, Replay;
    QuitSave(w.now, o, s, v);
    w.DoLock(Quit);
    var lands := Lands(w);
    if lands {
      w.Do(Action.Save(o, s, v));
    }
    w.DoLock(LockEvent.Release);
  }

  /**
   * What everyone else may do while a caller waits for the lock: control passes, other reconnects, the customer and
   * the peers, to the last step any of them takes before the lock is free again.
   */
  method Meanwhile(w: World)
    requires w.Valid()
    modifies w`now, w`log
    ensures w.Valid() && old(w.log) <= w.log && !w.now.lock.held
  {
    hide SaveOk, Inv, Rely, Initial, Legal, Replay, RowGrows, CourseSaved;
    var steps: nat := *;
    while steps > 0
      invariant w.Valid() && old(w.log) <= w.log
    {
      var act: Action := *;
      if Enabled(w.now, act) {
        w.Do(act);
      }
      steps := steps - 1;
    }
    if w.now.lock.held {
      w.DoLock(LockEvent.Release);
    }
  }

  /**
   * The relay's upstream address, read at publish admission. A key that is good is returned and nothing touched. A
   * reconnect renews an expired key under the lock; the last read finds the operation active, unstopped and unfinished,
   * or no address is returned.
   */
  method UpstreamURL(w: World) returns (url: Option<Id>)
    requires w.Valid()
    modifies w
    ensures w.Valid() && old(w.log) <= w.log && (!w.now.lock.held || w.now == old(w.now))
    ensures url.Some? ==>
              w.now.op.state == Active && !w.now.op.stop && w.now.op.finished.None? && url == w.now.s.upstream
                  && w.now.s.keyRequest.None?
    ensures old(w.now.op.stop || w.now.op.finished.Some? || w.now.op.state != Active) ==>
              url.None? && w.now == old(w.now)
    ensures old(w.now.op.state == Active && !w.now.op.stop && w.now.op.finished.None? && w.now.s.upstream.Some?
                && w.now.s.keyRequest.None? && w.now.s.keyExpires > w.now.clock + 15) ==>
              url == old(w.now.s.upstream) && w.now == old(w.now)
  {
    hide SaveOk, Inv, Rely, Initial, Legal, Replay, RowGrows, CourseSaved;
    if w.now.op.stop || w.now.op.finished.Some? || w.now.op.state != Active {
      return None;
    }
    if KeyUsable(w.now.s, w.now.clock) {
      return w.now.s.upstream;
    }
    Meanwhile(w);
    ghost var keys;
    url, keys := RenewUnderLock(w);
  }

  /**
   * The rest of `UpstreamURL`: with the lock in hand it decides anew, on the row as it is by then. No address is
   * returned only after a stop or an end was read, something went wrong, the session has no usable addresses or key
   * grant, or two keys, which `keys` tells, came back expired.
   */
  method RenewUnderLock(w: World) returns (url: Option<Id>, ghost keys: KeyPhase)
    requires w.Valid() && !w.now.lock.held
    modifies w
    ensures w.Valid() && old(w.log) <= w.log && !w.now.lock.held
    ensures w.now.broker.opens == old(w.now.broker.opens)
    ensures url.Some? ==>
              w.now.op.state == Active && !w.now.op.stop && w.now.op.finished.None? && url == w.now.s.upstream
                  && w.now.s.keyRequest.None?
    ensures url.None? ==>
              || w.now.op.stop || w.now.op.finished.Some? || old(w.now.op.state) != Active
              || w.setbacks != old(w.setbacks) || keys == Expired(2)
              || NoUrls(old(w.now.s)) || GrantExpired(old(w.now.s), w.now.clock)
  {
    hide SaveOk, Inv, Rely, Initial, Legal, Replay, RowGrows, CourseSaved;
    keys := Untried;
    if w.now.op.stop || w.now.op.finished.Some? || w.now.op.state != Active {
      return None, keys;
    }
    w.DoLock(Acquire(false));
    var pass := new Pass(w);
    url, keys := pass.RenewedURL();
    w.DoLock(LockEvent.Release);
  }
}
