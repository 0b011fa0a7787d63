/** The invariant of a live operation, and the proof that every action keeps it. */
module LiveInvariant {
  import opened Basics
  import opened LiveProtocol

  /** The grant the `n`-th revision of the session uses; grant 0 is the root. */
  function WorkAt(root: Answer<Grant>, issued: seq<IssuedRevision>, n: nat): Id
    requires root.Granted? && n <= |issued|
  {
    if n == 0 then root.value.work else issued[n - 1].work
  }

  // ---------- the parts ----------

  /** LOC was ever asked for a refill. */
  predicate Refilled(loc: Loc) {
    loc.refillAsked != {} || loc.issued != [] || loc.declined != {}
  }

  /** Write-ahead: what LOC was asked, and what the journal recorded of its answers. */
  ghost predicate Identity(cfg: Config, attempts: nat, s: Secrets, prepared: Answer<Id>, openAsked: set<OpenRequest>,
                           authorized: Answer<Grant>, refills: bool) {
    && ValidConfig(cfg)
    && s.body == s.prep
    && (s.prep.Some? ==> attempts >= 1 && prepared == Granted(s.prep.value))
    && (forall r :: r in openAsked ==> s.prep.Some? && r == CanonicalOpen(cfg, s.prep.value))
    && (!authorized.Unanswered? ==> openAsked != {})
    && (s.prep.None? ==> s.session.None?)
    && (s.session.Some? ==> authorized.Granted?
                              && s.session.value == authorized.value.(work := s.session.value.work))
    && (s.session.None? ==> s.cap == cfg.firstCap && NoRefill(s) && s.broker.None? && s.claim.None?
                            && !s.dispatched && !s.refillRefused
                            && !refills)
  }

  /** The chain of issued revisions, and where the journal stands on it. */
  ghost predicate Chain(cfg: Config, s: Secrets, root: Answer<Grant>, issued: seq<IssuedRevision>, declined: set<Id>) {
    ChainOf(cfg, s, root, issued) && forall i :: 0 <= i < |issued| ==> issued[i].id !in declined
  }

  ghost predicate ChainOf(cfg: Config, s: Secrets, root: Answer<Grant>, issued: seq<IssuedRevision>) {
    && (forall i :: 0 <= i < |issued| ==> issued[i].cap == CapAfter(cfg, i + 1) && CapAfter(cfg, i) < cfg.limit)
    && (forall i :: 0 <= i < |issued| ==> root.Granted? && issued[i].work != root.value.work)
    && (forall i, j :: 0 <= i < j < |issued| ==> issued[i].id != issued[j].id && issued[i].work != issued[j].work)
    && s.cap == CapAfter(cfg, Adopted(s, issued))
    && (s.session.Some? ==> root.Granted? && s.session.value.work == WorkAt(root, issued, Adopted(s, issued)))
    && (s.refillId.None? ==> NoRefill(s))
    && (s.refillId.Some? ==>
          && s.broker.Some? && s.cap < cfg.limit && s.refillCap == Min(cfg.limit, s.cap + cfg.fund)
          && (IdIssued(issued, s.refillId.value) ==> PendingIssued(s, issued)))
    && (s.refill.Some? ==> PendingIssued(s, issued) && s.refill.value.work == issued[|issued| - 1].work)
  }

  /** Every refill request LOC has received. */
  ghost predicate Asked(s: Secrets, units: Option<int>, asked: set<RefillRequest>, issued: seq<IssuedRevision>,
                        declined: set<Id>, locOpen: bool) {
    && (forall q :: q in asked && s.refillId == Some(q.id) ==> q.cap == s.refillCap)
    && (forall q :: q in asked && s.refillId == Some(q.id) && s.refill.None? && locOpen ==> q.observed == units)
    && (forall q :: q in asked && s.refillId != Some(q.id) ==> q.id in declined || IdIssued(issued, q.id))
    && (forall q, r :: q in asked && r in asked && q.id == r.id ==>
          q.cap == r.cap && (locOpen ==> q.observed == r.observed))
    && (forall id :: id in declined ==> RefillSeen(asked, id))
    && (forall i :: 0 <= i < |issued| ==> RefillSeen(asked, issued[i].id))
  }

  /** The broker's session and its one active grant. */
  ghost predicate Custody(s: Secrets, root: Answer<Grant>, issued: seq<IssuedRevision>, broker: Broker) {
    && broker.admissions == (if broker.admission.Admitted? then 1 else 0)
    && (OpenSent(broker) ==> s.dispatched && s.session.Some?)
    && (issued != [] ==> broker.admission.Admitted?)
    && (s.broker.Some? ==> s.dispatched && broker.admission.Admitted?
                           && s.broker.value.session == broker.admission.session
                           && s.session.Some? && s.broker.value.work == s.session.value.work)
    && (s.refillRefused ==> s.refill.Some? && s.refill.value.work in broker.refusedTopUps && s.endReason != NoReason)
    && (forall w :: w in broker.topUpSent ==>
          && WorkSeen(root, issued, w) && broker.admission.Admitted?
          && (w in broker.admission.taken || (s.refill.Some? && s.refill.value.work == w)))
    && broker.refusedTopUps <= broker.topUpSent
    && (broker.admission.Admitted? ==>
          && OpenSent(broker) && s.session.Some?
          && (broker.admission.active == s.session.value.work
              || (s.refill.Some? && broker.admission.active == s.refill.value.work))
          && s.session.value.work in broker.admission.taken && broker.admission.active in broker.admission.taken
          && (forall w :: w in broker.admission.taken ==> WorkSeen(root, issued, w) && w !in broker.refusedTopUps)
          && (PendingIssued(s, issued) && issued[|issued| - 1].work in broker.admission.taken ==>
                s.refill.Some? && broker.admission.active == s.refill.value.work)
          && broker.admission.adoptions ==
             Adopted(s, issued) + (if broker.admission.active == s.session.value.work then 0 else 1))
  }

  /** Terminal evidence and LOC's closure agree. */
  ghost predicate Evidence(s: Secrets, granted: bool, closed: Option<Closure>, broker: Broker) {
    && (broker.admission.Admitted? && broker.admission.terminal.Some? ==>
          var c := broker.admission.terminal.value;
          && s.prep.Some? && c.gateway == s.prep.value && c.session == broker.admission.session
          && c.work == broker.admission.active && c.closed && c.outputSeconds && 0 <= c.units)
    && (s.claim.Some? ==> Terminal(broker, s.claim.value))
    && (closed.Some? ==>
          && granted && 0 <= closed.value.units
          && (broker.admission.Rejected? || broker.admission.NotAdmitted?
              || (broker.admission.Admitted? && broker.admission.terminal.Some?
                  && broker.admission.terminal.value.units == closed.value.units)))
  }

  /** The reservation follows LOC and nothing else. */
  ghost predicate Money(stop: bool, prep: Option<Id>, res: Reservation, lock: Lock, closed: Option<Closure>,
                        refused: bool) {
    && (res.state.Committed? ==> closed.Some? && res.state.units == Some(closed.value.units))
    && (res.billed.Some? ==> closed.Some? && res.billed.value == closed.value.billed)
    && (res.state.Refunded? ==> refused || (stop && prep.None? && (lock.held ==> lock.sawStop)))
  }

  /** Media end, end reason, and what the lock holder has read. */
  ghost predicate Ends(op: OpRow, s: Secrets, v: View, lock: Lock, refused: bool) {
    && (op.state == Active ==> s.upstream.Some? && v.mediaEnded.None?)
    && (v.mediaEnded.Some? ==>
          s.claim.Some? || s.endReason != NoReason || (op.state == Canceled && op.finished.Some?))
    && (s.endReason != NoReason ==> s.session.Some?)
    && (s.claim.Some? && s.broker.None? ==> s.endReason != NoReason)
    && (s.claim.Some? && s.refillId.Some? ==> s.refill.Some?)
    && (op.state == IssuanceRefused ==> refused)
    && (lock.held ==> (lock.sawStop ==> op.stop) && (lock.hadKey ==> s.upstream.Some?))
  }

  /** The three ways a live operation finishes. */
  ghost predicate Finished(a: Snap) {
    || (&& a.op.state == Canceled && a.op.stop && a.s.prep.None? && a.res.state == Refunded
        && a.v.status == Ended && a.v.closeReason == GatewayClose && a.v.mediaEnded == a.op.finished
        && a.stream.status == Ended && a.stream.ended.Some?)
    || (&& a.op.state == IssuanceRefused && LocRefused(a.loc) && a.res.state == Refunded
        && a.v.status == Failed && a.stream.status != Provisional && a.stream.status != Live)
    || SettledByLoc(a, a.op, a.s, a.v)
  }

  /** Stream-key issuance identities. */
  ghost predicate Keys(s: Secrets, runner: Runner, saved: set<KeyId>) {
    && saved <= runner.keys.Keys <= runner.asked
    && (forall k :: k in runner.asked ==> s.keyRequest == Some(k) || k in saved)
    && (s.broker.None? ==> s.keyRequest.None? && s.upstream.None? && s.keyExpires == 0)
    && (s.keyRequest.Some? ==> s.keyRequest.value !in saved)
    && (s.upstream.None? ==> saved == {})
    && (s.upstream.Some? ==>
          exists k :: k in saved && k in runner.keys && runner.keys[k] == IssuedKey(s.upstream.value, s.keyExpires))
    && (s.keyRequest.Some? || s.upstream.Some? ==> s.broker.Some? && s.broker.value.urlsValid)
    && (s.refillId.Some? ==> s.upstream.Some?)
  }

  /** What the pass under way has learned is so. */
  ghost predicate Standing(op: OpRow, s: Secrets, lock: Lock, course: Course, refused: bool) {
    && (course.heard ==> refused && course.mayRefuse && lock.held && lock.worker)
    && (op.finished.Some? && lock.held ==> course.done)
    && (lock.held && lock.worker && (op.attempts == 0 || op.state == IssuanceRefused) ==> course.mayRefuse)
    && (course.cleared || course.marked ==>
        lock.held && lock.worker && s.session.Some? && s.broker.None? && s.claim.None?)
    && (course.marked ==> s.dispatched)
    && (course.open ==> s.session.Some?)
    && (lock.held && !lock.hadKey && s.upstream.Some? ==> course.keys != Untried)
    && (course.keys.Recorded? || course.keys.Usable? ==> s.upstream.Some? && s.keyRequest.None?)
    && (course.keys.Expired? ==> s.upstream.Some?)
    && (course.keys.Recorded? || course.keys.Expired? ==> 1 <= course.keys.n <= 2)
    && (course.keys != Untried ==> course.checked)
  }

  /** The product row counts distinct adoptions, and every pass that may still count has an uncounted one of its own. */
  ghost predicate Counting(adopted: nat, refills: nat, counted: set<nat>, course: Course, lapsed: seq<Lapsed>) {
    && refills == |counted|
    && (forall n :: n in counted ==> 1 <= n <= adopted)
    && (course.counts.Some? ==> 1 <= course.counts.value <= adopted && course.counts.value !in counted)
    && (forall i :: 0 <= i < |lapsed| && lapsed[i].course.counts.Some? ==>
          && 1 <= lapsed[i].course.counts.value <= adopted && lapsed[i].course.counts.value !in counted
          && course.counts != lapsed[i].course.counts)
    && (forall i, j :: 0 <= i < j < |lapsed| && lapsed[i].course.counts.Some? ==>
        lapsed[i].course.counts != lapsed[j].course.counts)
  }

  // ---------- passes without the lock ----------

  /** What such a pass last saved or read, the journal has kept or gone beyond. */
  ghost predicate Outlived(p: Lapsed, cfg: Config, op: OpRow, s: Secrets, lock: Lock, loc: Loc) {
    && p.lock.held && p.op.finished.None?
    && (p.lock.sawStop ==> op.stop && (lock.held ==> lock.sawStop) && (p.s.prep.None? ==> s.prep.None?))
    && p.s.body == p.s.prep
    && (p.s.prep.Some? ==> s.prep == p.s.prep)
    && (p.s.session.Some? ==> s.session.Some?)
    && (p.s.dispatched ==> s.dispatched)
    && (p.s.session.None? ==> p.s.cap == cfg.firstCap && NoRefill(p.s))
    && (p.s.refill.Some? ==> p.s.refillId.Some?)
    && (p.course.heard ==> LocRefused(loc))
    && (p.course.marked ==> p.lock.worker && p.s.dispatched && p.s.session.Some? && p.s.broker.None? && p.s.claim.None?)
  }

  /** Its refill is still the journal's, or LOC has answered it and the broker uses or used its grant. */
  ghost predicate RefillOutlived(p: Secrets, units: Option<int>, s: Secrets, now: Option<int>, root: Answer<Grant>,
                                 issued: seq<IssuedRevision>, asked: set<RefillRequest>, locOpen: bool,
                                     admission: Admission) {
    p.refillId.Some? ==>
      && (if s.refillId == p.refillId
          then s.refillCap == p.refillCap && (p.refill.Some? ==> s.refill == p.refill)
               && (s.refill.None? && locOpen ==> now == units)
          else RefillSeen(asked, p.refillId.value)
               && (p.refill.Some? ==> admission.Admitted? && p.refill.value.work in admission.taken))
      && (forall q :: q in asked && q.id == p.refillId.value ==>
            q.cap == p.refillCap && (p.refill.None? && locOpen ==> q.observed == units))
      && (p.refill.Some? ==> WorkSeen(root, issued, p.refill.value.work))
  }

  ghost predicate KeyOutlived(k: Option<KeyId>, now: Option<KeyId>, saved: set<KeyId>) {
    k.Some? ==> now == k || k.value in saved
  }

  ghost predicate LapsedOk(p: Lapsed, a: Snap) {
    && Outlived(p, a.cfg, a.op, a.s, a.lock, a.loc)
    && RefillOutlived(p.s, p.v.units, a.s, a.v.units, a.loc.authorized, a.loc.issued, a.loc.refillAsked,
                      a.loc.closed.None?, a.broker.admission)
    && KeyOutlived(p.s.keyRequest, a.s.keyRequest, a.keysSaved)
  }

  ghost predicate LapsedAt(a: Snap, i: nat) {
    i < |a.lapsed| ==> LapsedOk(a.lapsed[i], a)
  }

  ghost predicate AllLapsedOk(a: Snap) {
    forall i: nat :: LapsedAt(a, i)
  }

  /** What concerns journal, rows and peers. */
  ghost predicate Core(a: Snap) {
    && Identity(a.cfg, a.op.attempts, a.s, a.loc.prepared, a.loc.openAsked, a.loc.authorized, Refilled(a.loc))
    && Chain(a.cfg, a.s, a.loc.authorized, a.loc.issued, a.loc.declined)
    && Asked(a.s, a.v.units, a.loc.refillAsked, a.loc.issued, a.loc.declined, a.loc.closed.None?)
    && Custody(a.s, a.loc.authorized, a.loc.issued, a.broker)
    && Evidence(a.s, a.loc.authorized.Granted?, a.loc.closed, a.broker)
    && Money(a.op.stop, a.s.prep, a.res, a.lock, a.loc.closed, LocRefused(a.loc))
    && Ends(a.op, a.s, a.v, a.lock, LocRefused(a.loc))
    && Keys(a.s, a.runner, a.keysSaved)
    && Standing(a.op, a.s, a.lock, a.course, LocRefused(a.loc))
    && (a.course.keys.Expired? && a.s.keyRequest.Some? ==> a.course.wantsKey || a.s.keyRequest.value in a.runner.asked)
    && (a.op.finished.Some? ==> Finished(a))
  }

  ghost predicate Inv(a: Snap) {
    && Core(a)
    && Counting(Adopted(a.s, a.loc.issued), a.refills, a.counted, a.course, a.lapsed)
    && AllLapsedOk(a)
  }

  lemma InitialInv(a: Snap)
    requires Initial(a)
    ensures Inv(a)
  {
    hide SaveOk;
  }

  // ---------- actions other than a journal write ----------

  lemma StopStep(a: Snap, act: Action)
    requires Core(a) && Acts(a, act) && (act.RequestStop? || act.Tick?)
    ensures Core(ApplyAct(a, act))
  {
    hide LocEnabled, BrokerEnabled, ApplyLock, ApplyStream, ApplyMoney, AfterLoc, AfterBroker, Asked;
    var b := ApplyAct(a, act);
    assert Money(b.op.stop, b.s.prep, b.res, b.lock, b.loc.closed, LocRefused(b.loc));
    assert Ends(b.op, b.s, b.v, b.lock, LocRefused(b.loc));
  }

  lemma LockKeepsStanding(a: Snap, e: LockEvent)
    requires Core(a) && LockEnabled(a, e)
    ensures var b := ApplyLock(a, e); Standing(b.op, b.s, b.lock, b.course, LocRefused(b.loc))
  {
    hide Chain, Asked, ChecksKey, GoesToKey, KeyUsable, HasRefillToAsk, Identity, Finished;
  }

  lemma LockStep(a: Snap, e: LockEvent)
    requires Core(a) && LockEnabled(a, e)
    ensures Core(ApplyLock(a, e))
  {
    hide Chain, Asked, Custody, Evidence, Keys, ChecksKey, GoesOn, GoesToKey, KeyUsable, HasRefillToAsk;
    LockKeepsStanding(a, e);
    hide Standing;
    var b := ApplyLock(a, e);
    assert Money(b.op.stop, b.s.prep, b.res, b.lock, b.loc.closed, LocRefused(b.loc));
    assert Ends(b.op, b.s, b.v, b.lock, LocRefused(b.loc));
  }

  lemma MoneyStep(a: Snap, e: MoneyEvent)
    requires Core(a) && MoneyEnabled(a, e)
    ensures Core(a.(res := ApplyMoney(a.res, e)))
  {
    var b := a.(res := ApplyMoney(a.res, e));
    assert Money(b.op.stop, b.s.prep, b.res, b.lock, b.loc.closed, LocRefused(b.loc));
    hide Chain, Asked, Custody, Keys, Standing, Ends;
  }

  lemma StreamStep(a: Snap, e: StreamEvent)
    requires Core(a) && StreamEnabled(a, e)
    ensures Core(ApplyStream(a, e))
  {
    hide Identity, Chain, Asked, Custody, Evidence, Keys, Money, Finished;
  }

  lemma IssuedGrows(root: Answer<Grant>, issued: seq<IssuedRevision>, more: IssuedRevision)
    ensures forall w :: WorkSeen(root, issued, w) ==> WorkSeen(root, issued + [more], w)
    ensures forall id :: IdIssued(issued, id) ==> IdIssued(issued + [more], id)
    ensures WorkSeen(root, issued + [more], more.work) && IdIssued(issued + [more], more.id)
  {
    var longer := issued + [more];
    forall w | WorkSeen(root, issued, w) ensures WorkSeen(root, longer, w) {
      if !(root.Granted? && root.value.work == w) {
        var i :| 0 <= i < |issued| && issued[i].work == w;
        assert longer[i].work == w;
      }
    }
    forall id | IdIssued(issued, id) ensures IdIssued(longer, id) {
      var i :| 0 <= i < |issued| && issued[i].id == id;
      assert longer[i].id == id;
    }
    assert longer[|issued|] == more;
  }

  lemma AskedMore(s: Secrets, units: Option<int>, asked: set<RefillRequest>, issued: seq<IssuedRevision>,
                  declined: set<Id>, locOpen: bool, q: RefillRequest)
    requires Asked(s, units, asked, issued, declined, locOpen)
    requires s.refillId == Some(q.id) && s.refill.None? && q.cap == s.refillCap && q.observed == units
    ensures Asked(s, units, asked + {q}, issued, declined, locOpen)
  {
    forall id | RefillSeen(asked, id) ensures RefillSeen(asked + {q}, id) {
      var r :| r in asked && r.id == id;
      assert r in asked + {q};
    }
  }

  lemma DeclineKeepsChain(cfg: Config, s: Secrets, root: Answer<Grant>, issued: seq<IssuedRevision>, declined: set<Id>,
                          id: Id)
    requires Chain(cfg, s, root, issued, declined) && !IdIssued(issued, id)
    ensures Chain(cfg, s, root, issued, declined + {id})
  {
    hide ChainOf;
    forall i | 0 <= i < |issued| ensures issued[i].id !in declined + {id} {}
  }

  lemma ReviseKeepsChain(cfg: Config, s: Secrets, root: Answer<Grant>, issued: seq<IssuedRevision>, declined: set<Id>,
                         more: IssuedRevision)
    requires Chain(cfg, s, root, issued, declined) && root.Granted?
    requires s.refillId == Some(more.id) && s.refill.None? && more.cap == s.refillCap
    requires !IdIssued(issued, more.id) && more.id !in declined && !WorkSeen(root, issued, more.work)
    ensures Chain(cfg, s, root, issued + [more], declined)
    ensures PendingIssued(s, issued + [more]) && !PendingIssued(s, issued)
  {
    hide StreamEnabled;
    var longer := issued + [more];
    assert longer[|issued|] == more;
    assert IdIssued(longer, more.id);
    forall i | 0 <= i < |issued| ensures longer[i] == issued[i] && issued[i].id != more.id
        && issued[i].work != more.work {}
  }

  lemma ReviseKeepsAsked(s: Secrets, units: Option<int>, asked: set<RefillRequest>, issued: seq<IssuedRevision>,
                         declined: set<Id>, locOpen: bool, more: IssuedRevision)
    requires Asked(s, units, asked, issued, declined, locOpen) && RefillSeen(asked, more.id)
    ensures Asked(s, units, asked, issued + [more], declined, locOpen)
  {
    IssuedGrows(Unanswered, issued, more);
  }

  lemma ReviseKeepsCustody(s: Secrets, root: Answer<Grant>, issued: seq<IssuedRevision>, broker: Broker,
                           more: IssuedRevision)
    requires Custody(s, root, issued, broker) && root.Granted? && !WorkSeen(root, issued, more.work)
    requires s.refillId == Some(more.id) && s.refill.None? && !PendingIssued(s, issued) && s.broker.Some?
    ensures Custody(s, root, issued + [more], broker)
  {
    IssuedGrows(root, issued, more);
    assert (issued + [more])[|issued|] == more;
  }

  lemma OfferKeepsCustody(s: Secrets, root: Answer<Grant>, issued: seq<IssuedRevision>, broker: Broker, work: Id)
    requires Custody(s, root, issued, broker)
    requires s.refill.Some? && s.refill.value.work == work && PendingIssued(s, issued)
    requires issued[|issued| - 1].work == work
    ensures Custody(s, root, issued, broker.(topUpSent := broker.topUpSent + {work}))
  {
    assert WorkSeen(root, issued, work);
  }

  lemma AdoptKeepsCustody(s: Secrets, root: Answer<Grant>, issued: seq<IssuedRevision>, broker: Broker, work: Id)
    requires Custody(s, root, issued, broker)
    requires work in broker.topUpSent && work !in broker.refusedTopUps && work !in broker.admission.taken
    requires broker.admission.Admitted?
    requires s.session.Some?
    requires (s.refill.Some? ==> PendingIssued(s, issued) && s.refill.value.work == issued[|issued| - 1].work)
    ensures Custody(s, root, issued,
                    broker.(admission := broker.admission.(active := work, taken := broker.admission.taken + {work},
                                                           adoptions := broker.admission.adoptions + 1)))
  {
    assert s.refill.Some? && s.refill.value.work == work;
  }

  lemma AdmitKeepsCustody(s: Secrets, root: Answer<Grant>, issued: seq<IssuedRevision>, broker: Broker, session: Id)
    requires Custody(s, root, issued, broker) && root.Granted? && broker.admission.NoRecord? && OpenSent(broker)
    requires s.session.Some? && s.session.value.work == WorkAt(root, issued, Adopted(s, issued))
    requires s.refill.Some? ==> PendingIssued(s, issued)
    ensures Custody(s, root, issued,
                    broker.(admissions := broker.admissions + 1,
                            admission := Admitted(session, root.value.work, {root.value.work}, 0, None)))
  {
    assert issued == [] && s.broker.None?;
  }

  lemma ReviseStep(a: Snap, q: RefillRequest, work: Id)
    requires Core(a) && LocEnabled(a, LocRevise(q, work))
    ensures Core(AfterLoc(a, LocRevise(q, work)))
  {
    hide Evidence;
    var more := IssuedRevision(q.id, work, q.cap);
    assert a.s.refillId == Some(q.id) && a.s.refill.None?;
    assert RefillSeen(a.loc.refillAsked, q.id);
    ReviseKeepsChain(a.cfg, a.s, a.loc.authorized, a.loc.issued, a.loc.declined, more);
    ReviseKeepsAsked(a.s, a.v.units, a.loc.refillAsked, a.loc.issued, a.loc.declined, a.loc.closed.None?, more);
    ReviseKeepsCustody(a.s, a.loc.authorized, a.loc.issued, a.broker, more);
  }

  lemma AskRefillStep(a: Snap, q: RefillRequest)
    requires Core(a) && LocEnabled(a, AskRefill(q))
    ensures Core(AfterLoc(a, AskRefill(q)))
  {
    hide Chain, Custody, Evidence, Money, Keys, Asked, Finished;
    AskedMore(a.s, a.v.units, a.loc.refillAsked, a.loc.issued, a.loc.declined, a.loc.closed.None?, q);
  }

  lemma DeclineStep(a: Snap, id: Id)
    requires Core(a) && LocEnabled(a, LocDecline(id))
    ensures Core(AfterLoc(a, LocDecline(id)))
  {
    hide Chain, Custody, Evidence, Money, Ends, Keys, Standing;
    DeclineKeepsChain(a.cfg, a.s, a.loc.authorized, a.loc.issued, a.loc.declined, id);
  }

  lemma LocStep(a: Snap, e: LocEvent)
    requires Core(a) && LocEnabled(a, e)
    ensures Core(AfterLoc(a, e))
  {
    hide *;
    match e
    case AskRefill(q) => AskRefillStep(a, q);
    case LocDecline(id) => DeclineStep(a, id);
    case LocRevise(q, work) => ReviseStep(a, q, work);
    case _ => AnswerStep(a, e);
  }

  lemma AnswerStep(a: Snap, e: LocEvent)
    requires Core(a) && LocEnabled(a, e) && !e.AskRefill? && !e.LocDecline? && !e.LocRevise?
    ensures Core(AfterLoc(a, e))
  {
    var b := AfterLoc(a, e);
    assert Identity(b.cfg, b.op.attempts, b.s, b.loc.prepared, b.loc.openAsked, b.loc.authorized, Refilled(b.loc));
    if e.LocOpen? {
      assert a.loc.issued == [] && a.s.session.None?;
    }
  }

  lemma OfferTopUpStep(a: Snap, work: Id)
    requires Core(a) && BrokerEnabled(a, OfferTopUp(work))
    ensures Core(AfterBroker(a, OfferTopUp(work)))
  {
    OfferKeepsCustody(a.s, a.loc.authorized, a.loc.issued, a.broker, work);
  }

  lemma AdmitStep(a: Snap, session: Id)
    requires Core(a) && BrokerEnabled(a, BrokerAdmit(session))
    ensures Core(AfterBroker(a, BrokerAdmit(session)))
  {
    hide Identity, Asked;
    AdmitKeepsCustody(a.s, a.loc.authorized, a.loc.issued, a.broker, session);
  }

  lemma AdoptStep(a: Snap, work: Id)
    requires Core(a) && BrokerEnabled(a, BrokerAdopt(work))
    ensures Core(AfterBroker(a, BrokerAdopt(work)))
  {
    hide Asked, Ends;
    AdoptKeepsCustody(a.s, a.loc.authorized, a.loc.issued, a.broker, work);
  }

  lemma VerdictStep(a: Snap, e: BrokerEvent)
    requires Core(a) && BrokerEnabled(a, e) && !e.OfferTopUp? && !e.BrokerAdmit? && !e.BrokerAdopt?
    ensures Core(AfterBroker(a, e))
  {
    hide Identity, Chain, Asked, Money, Ends, Keys;
    assert Custody(a.s, a.loc.authorized, a.loc.issued, ApplyBroker(a, e));
  }

  lemma BrokerStep(a: Snap, e: BrokerEvent)
    requires Core(a) && BrokerEnabled(a, e)
    ensures Core(AfterBroker(a, e))
  {
    hide *;
    match e
    case OfferTopUp(work) => OfferTopUpStep(a, work);
    case BrokerAdmit(session) => AdmitStep(a, session);
    case BrokerAdopt(work) => AdoptStep(a, work);
    case _ => VerdictStep(a, e);
  }

  lemma RunnerStep(a: Snap, e: RunnerEvent)
    requires Core(a) && RunnerEnabled(a, e)
    ensures Core(AfterRunner(a, e))
  {
    hide Identity, Chain, Asked, Custody, Evidence, Money, Ends;
    var b := AfterRunner(a, e);
    assert Standing(b.op, b.s, b.lock, b.course, LocRefused(b.loc));
    if b.s.upstream.Some? {
      var k :| k in a.keysSaved && k in a.runner.keys
          && a.runner.keys[k] == IssuedKey(a.s.upstream.value, a.s.keyExpires);
      assert k in b.keysSaved && k in b.runner.keys
             && b.runner.keys[k] == IssuedKey(b.s.upstream.value, b.s.keyExpires);
    }
  }

  // ---------- the journal write ----------

  lemma SaveKeepsIdentity(a: Snap, o: OpRow, s: Secrets, v: View)
    requires Core(a) && SaveOk(a, o, s, v)
    ensures Identity(a.cfg, o.attempts, s, a.loc.prepared, a.loc.openAsked, a.loc.authorized, Refilled(a.loc))
  {
  }

  lemma SaveKeepsChain(a: Snap, s: Secrets)
    requires Chain(a.cfg, a.s, a.loc.authorized, a.loc.issued, a.loc.declined)
    requires forall i :: 0 <= i < |a.loc.issued| ==> RefillSeen(a.loc.refillAsked, a.loc.issued[i].id)
    requires a.s.session.None? ==> a.s.cap == a.cfg.firstCap && NoRefill(a.s) && a.loc.issued == []
    requires KeepsRefill(a, s) && KeepsSession(a, s) && KeepsBroker(a, s)
    requires s.session.Some? ==> a.loc.authorized.Granted?
    ensures Chain(a.cfg, s, a.loc.authorized, a.loc.issued, a.loc.declined)
    ensures Adopted(a.s, a.loc.issued) <= Adopted(s, a.loc.issued)
    ensures RefillAdopted(a, s) ==> Adopted(s, a.loc.issued) == Adopted(a.s, a.loc.issued) + 1 == |a.loc.issued|
    ensures !RefillAdopted(a, s) ==> Adopted(s, a.loc.issued) == Adopted(a.s, a.loc.issued)
  {
    hide StreamEnabled;
    var issued := a.loc.issued;
    if RefillMinted(a, s) {
      assert !IdIssued(issued, s.refillId.value);
      assert !PendingIssued(a.s, issued) && !PendingIssued(s, issued);
    } else if RefillAdopted(a, s) {
      assert PendingIssued(a.s, issued) && !PendingIssued(s, issued);
      assert issued[|issued| - 1].cap == CapAfter(a.cfg, |issued|);
      assert a.s.refillCap == issued[|issued| - 1].cap;
    } else if RefillDropped(a, s) {
      assert !PendingIssued(a.s, issued) && !PendingIssued(s, issued);
    } else {
      assert RefillStays(a, s);
      assert PendingIssued(s, issued) == PendingIssued(a.s, issued);
      if s.refill != a.s.refill {
        var i :| 0 <= i < |issued|
            && issued[i] == IssuedRevision(a.s.refillId.value, s.refill.value.work, a.s.refillCap);
        assert IdIssued(issued, a.s.refillId.value);
        assert i == |issued| - 1;
      }
    }
  }

  lemma SaveKeepsAsked(a: Snap, s: Secrets, v: View)
    requires Asked(a.s, a.v.units, a.loc.refillAsked, a.loc.issued, a.loc.declined, a.loc.closed.None?)
    requires Chain(a.cfg, a.s, a.loc.authorized, a.loc.issued, a.loc.declined)
    requires KeepsRefill(a, s) && KeepsObserved(a, s, v)
    ensures Asked(s, v.units, a.loc.refillAsked, a.loc.issued, a.loc.declined, a.loc.closed.None?)
  {
    var asked := a.loc.refillAsked;
    if RefillMinted(a, s) {
      forall q | q in asked ensures q.id != s.refillId.value { assert RefillSeen(asked, q.id); }
    } else if RefillAdopted(a, s) {
      assert IdIssued(a.loc.issued, a.s.refillId.value);
    }
  }

  lemma SaveKeepsCustody(a: Snap, s: Secrets)
    requires Custody(a.s, a.loc.authorized, a.loc.issued, a.broker)
    requires Chain(a.cfg, a.s, a.loc.authorized, a.loc.issued, a.loc.declined)
    requires Chain(a.cfg, s, a.loc.authorized, a.loc.issued, a.loc.declined)
    requires RefillAdopted(a, s) ==> Adopted(s, a.loc.issued) == Adopted(a.s, a.loc.issued) + 1 == |a.loc.issued|
    requires !RefillAdopted(a, s) ==> Adopted(s, a.loc.issued) == Adopted(a.s, a.loc.issued)
    requires a.s.session.None? ==> !a.s.refillRefused && a.s.broker.None? && !a.s.dispatched
    requires KeepsRefill(a, s) && KeepsSession(a, s) && KeepsBroker(a, s)
    requires RefillMinted(a, s) ==> !IdIssued(a.loc.issued, s.refillId.value)
    requires a.s.endReason != NoReason ==> s.endReason != NoReason
    ensures Custody(s, a.loc.authorized, a.loc.issued, a.broker)
  {
    if RefillAdopted(a, s) {
      assert a.s.session.value.work != a.s.refill.value.work;
    } else if RefillStays(a, s) && s.refill != a.s.refill {
      assert s.refill.value.work == a.loc.issued[|a.loc.issued| - 1].work;
    }
  }

  lemma SaveKeepsKeys(a: Snap, s: Secrets)
    requires Keys(a.s, a.runner, a.keysSaved) && KeepsKey(a, s) && KeepsBroker(a, s) && KeepsRefill(a, s)
    ensures Keys(s, a.runner,
                 if a.s.keyRequest.Some? && s.keyRequest.None? then a.keysSaved + {a.s.keyRequest.value}
                     else a.keysSaved)
  {
    if KeyRecorded(a, s) {
      var k := a.s.keyRequest.value;
      assert a.runner.keys[k] == IssuedKey(s.upstream.value, s.keyExpires);
    }
  }

  lemma SaveKeepsEvidence(a: Snap, o: OpRow, s: Secrets, v: View)
    requires Core(a) && SaveOk(a, o, s, v)
    ensures Evidence(s, a.loc.authorized.Granted?, a.loc.closed, a.broker)
    ensures Money(a.op.stop, s.prep, a.res, a.lock, a.loc.closed, LocRefused(a.loc))
  {
    hide Chain, Asked, Custody, Keys, Standing, KeepsRefill, KeepsKey, KeepsState, KeepsOutcome, FinishOk,
      KeepsObserved, Identity;
  }

  lemma SaveKeepsEnds(a: Snap, o: OpRow, s: Secrets, v: View)
    requires Core(a) && SaveOk(a, o, s, v)
    ensures Ends(o.(stop := a.op.stop), s, v, a.lock, LocRefused(a.loc))
    ensures o.finished.Some? ==> Finished(ApplySave(a, o, s, v))
  {
    hide Chain, Asked, Custody, Keys, Standing, KeepsOutcome, KeepsObserved, KeepsRefill;
  }

  lemma SaveKeepsStanding(a: Snap, o: OpRow, s: Secrets, v: View)
    requires Core(a) && SaveOk(a, o, s, v) && (o.finished.Some? ==> a.course.done)
    ensures Standing(o.(stop := a.op.stop), s, a.lock, CourseAfterSave(a, o, s), LocRefused(a.loc))
    ensures var c := CourseAfterSave(a, o, s);
            c.keys.Expired? && s.keyRequest.Some? ==> c.wantsKey || s.keyRequest.value in a.runner.asked
  {
    hide Chain, Asked, Custody, Evidence, KeepsOutcome, KeepsObserved, KeepsRefill, FinishOk, Finished;
  }

  /** What the parts of a save rest on. */
  lemma SavePremises(a: Snap, o: OpRow, s: Secrets, v: View)
    requires Core(a) && SaveOk(a, o, s, v)
    ensures forall i :: 0 <= i < |a.loc.issued| ==> RefillSeen(a.loc.refillAsked, a.loc.issued[i].id)
    ensures a.s.session.None? ==>
              && a.s.cap == a.cfg.firstCap && NoRefill(a.s) && a.loc.issued == []
              && !a.s.refillRefused && a.s.broker.None? && !a.s.dispatched
    ensures s.session.Some? ==> a.loc.authorized.Granted?
    ensures RefillMinted(a, s) ==> !IdIssued(a.loc.issued, s.refillId.value)
    ensures a.s.refill.Some? ==> a.s.refillId.Some?
    ensures a.s.endReason != NoReason ==> s.endReason != NoReason
  {
    hide Custody, Evidence, Money, Ends, Keys, Standing, Finished, KeepsObserved, KeepsKey, KeepsState, KeepsOutcome,
      FinishOk;
  }

  lemma SaveStep(a: Snap, o: OpRow, s: Secrets, v: View)
    requires Core(a) && SaveOk(a, o, s, v) && (o.finished.Some? ==> a.course.done)
    ensures Core(ApplySave(a, o, s, v))
  {
    hide Identity, Chain, Asked, Custody, Evidence, Money, Ends, Keys, Standing, Finished, KeepsPreparation,
      KeepsSession, KeepsBroker, KeepsRefill, KeepsObserved, KeepsClaim, KeepsKey, KeepsState, KeepsOutcome,
      FinishOk, CourseAfterSave, Inv;
    SavePremises(a, o, s, v);
    SaveKeepsIdentity(a, o, s, v);
    SaveKeepsChain(a, s);
    SaveKeepsAsked(a, s, v);
    SaveKeepsCustody(a, s);
    SaveKeepsEvidence(a, o, s, v);
    SaveKeepsEnds(a, o, s, v);
    SaveKeepsStanding(a, o, s, v);
    SaveKeepsKeys(a, s);
  }

  // ---------- every action, every run ----------

  /** Every action of a pass with the lock, of a peer, of the customer or of the clock keeps the core. */
  lemma CoreStep(a: Snap, act: Action)
    requires Core(a) && Direct(a, act)
    ensures Core(ApplyDirect(a, act))
  {
    hide Core, SaveOk, LockEnabled, MoneyEnabled, StreamEnabled, LocEnabled, BrokerEnabled, RunnerEnabled, ApplySave,
      ApplyLock, ApplyStream, ApplyMoney, AfterLoc, AfterBroker, AfterRunner;
    match act
    case Save(o, s, v) => SaveStep(a, o, s, v);
    case AtLoc(e) => LocStep(a, e);
    case AtBroker(e) => BrokerStep(a, e);
    case AtRunner(e) => RunnerStep(a, e);
    case OnLock(e) => LockStep(a, e);
    case OnReservation(e) => MoneyStep(a, e);
    case OnStream(e) => StreamStep(a, e);
    case _ => StopStep(a, act);
  }

  // ---------- what an action touches ----------

  /** What a pass has learned, once its requests and row updates have used some of it up. */
  predicate Dwindles(c: Course, d: Course) {
    && d.done == c.done && d.mayRefuse == c.mayRefuse && d.heard == c.heard && d.cleared == c.cleared
    && d.nearKey == c.nearKey && d.checked == c.checked && d.keys == c.keys && d.polled == c.polled
    && (d.marked ==> c.marked) && (d.open ==> c.open) && (d.asks ==> c.asks) && (d.wantsKey ==> c.wantsKey)
    && (d.counts == c.counts || d.counts.None?)
  }

  /** Whatever is not a journal write leaves the journal but for the stop flag, and everything it is not about. */
  predicate Touches(a: Snap, b: Snap, act: Action) {
    && b.cfg == a.cfg && b.s == a.s && b.v == a.v && b.keysSaved == a.keysSaved && a.clock <= b.clock
    && b.op == a.op.(stop := b.op.stop) && (a.op.stop ==> b.op.stop) && (a.op.finished.Some? ==> b.op == a.op)
    && (!act.RequestStop? ==> b.op == a.op)
    && (!act.OnLock? ==> b.lock == a.lock && Dwindles(a.course, b.course))
    && (Environment(act) || act.OnReservation? ==> b.course == a.course)
    && (act != OnLock(Lose) ==> b.lapsed == a.lapsed)
    && (act == OnLock(Lose) ==>
          a.lock.held && a.op.finished.None? && b.lapsed == a.lapsed + [Lapsed(a.op, a.s, a.v, a.lock, a.course)]
              && b.course == IDLE)
    && (act.OnLock? ==> b.course.counts == a.course.counts || b.course.counts.None?)
    && (b.res == if act.OnReservation? then ApplyMoney(a.res, act.money) else a.res)
    && (!act.OnStream? ==> b.stream == a.stream && b.strayed == a.strayed && b.refills == a.refills
                           && b.counted == a.counted)
    && (if act == OnStream(CountRefill)
        then a.course.counts.Some? && b.refills == a.refills + 1 && b.counted == a.counted + {a.course.counts.value}
            && b.course.counts.None?
        else b.refills == a.refills && b.counted == a.counted)
    && (act.OnStream? && act != OnStream(CountRefill) ==> b.course.counts == a.course.counts)
    && b.loc == (if act.AtLoc? then ApplyLoc(a.loc, act.loc) else a.loc)
    && b.broker == (if act.AtBroker? then ApplyBroker(a, act.broker) else a.broker)
    && b.runner == (if act.AtRunner? then ApplyRunner(a.runner, act.runner) else a.runner)
  }

  lemma LockTouches(a: Snap, e: LockEvent)
    requires LockEnabled(a, e)
    ensures Touches(a, ApplyLock(a, e), OnLock(e))
  {
    hide KeyUsable, ChecksKey, GoesOn, GoesToKey, HasRefillToAsk, LocRefused, ApplyMoney, ApplyLoc, ApplyBroker,
      ApplyRunner;
  }

  lemma StreamTouches(a: Snap, e: StreamEvent)
    requires StreamEnabled(a, e)
    ensures Touches(a, ApplyStream(a, e), OnStream(e))
  {
    hide StreamAfter, ApplyMoney, ApplyLoc, ApplyBroker, ApplyRunner;
  }

  lemma LocTouches(a: Snap, e: LocEvent)
    ensures Touches(a, AfterLoc(a, e), AtLoc(e))
  {
    hide ApplyLock, ApplyStream, ApplyMoney, ApplyLoc, ApplyBroker, ApplyRunner;
  }

  lemma BrokerTouches(a: Snap, e: BrokerEvent)
    ensures Touches(a, AfterBroker(a, e), AtBroker(e))
  {
    hide ApplyLock, ApplyStream, ApplyMoney, ApplyLoc, ApplyBroker, ApplyRunner;
  }

  lemma RunnerTouches(a: Snap, e: RunnerEvent)
    ensures Touches(a, AfterRunner(a, e), AtRunner(e))
  {
    hide ApplyLock, ApplyStream, ApplyMoney, ApplyLoc, ApplyBroker, ApplyRunner;
  }

  lemma RestTouches(a: Snap, act: Action)
    requires Acts(a, act) && (act.RequestStop? || act.Tick? || act.OnReservation?)
    ensures Touches(a, ApplyAct(a, act), act)
  {
    hide LockEnabled, MoneyEnabled, StreamEnabled, LocEnabled, BrokerEnabled, RunnerEnabled, ApplyLock, ApplyStream,
      ApplyMoney, AfterLoc, AfterBroker, AfterRunner;
  }

  lemma ActTouches(a: Snap, act: Action)
    requires Acts(a, act)
    ensures Touches(a, ApplyAct(a, act), act)
  {
    hide LockEnabled, MoneyEnabled, StreamEnabled, LocEnabled, BrokerEnabled, RunnerEnabled, ApplyLock, ApplyStream,
      ApplyMoney, AfterLoc, AfterBroker, AfterRunner, Touches;
    match act
    case OnLock(e) => LockTouches(a, e);
    case OnStream(e) => StreamTouches(a, e);
    case AtLoc(e) => LocTouches(a, e);
    case AtBroker(e) => BrokerTouches(a, e);
    case AtRunner(e) => RunnerTouches(a, e);
    case _ => RestTouches(a, act);
  }

  // ---------- counting ----------

  lemma CountingStays(a: Snap, b: Snap)
    requires Counting(Adopted(a.s, a.loc.issued), a.refills, a.counted, a.course, a.lapsed)
    requires b.refills == a.refills && b.counted == a.counted && b.lapsed == a.lapsed
    requires b.course.counts == a.course.counts || b.course.counts.None?
    requires Adopted(a.s, a.loc.issued) <= Adopted(b.s, b.loc.issued)
    ensures Counting(Adopted(b.s, b.loc.issued), b.refills, b.counted, b.course, b.lapsed)
  {
  }

  /** Losing the lock hands the uncounted adoption to the pass that lives on. */
  lemma LoseKeepsCounting(adopted: nat, refills: nat, counted: set<nat>, course: Course, lapsed: seq<Lapsed>, p: Lapsed)
    requires Counting(adopted, refills, counted, course, lapsed) && p.course == course
    ensures Counting(adopted, refills, counted, IDLE, lapsed + [p])
  {
  }

  lemma CountKeepsCounting(adopted: nat, refills: nat, counted: set<nat>, course: Course, next: Course,
                           lapsed: seq<Lapsed>)
    requires Counting(adopted, refills, counted, course, lapsed) && course.counts.Some? && next.counts.None?
    ensures Counting(adopted, refills + 1, counted + {course.counts.value}, next, lapsed)
  {
  }

  lemma LateCountKeepsCounting(adopted: nat, refills: nat, counted: set<nat>, course: Course, lapsed: seq<Lapsed>,
                               i: nat,
                               next: seq<Lapsed>)
    requires Counting(adopted, refills, counted, course, lapsed) && i < |lapsed| == |next|
    requires lapsed[i].course.counts.Some?
    requires next[i].course.counts.None? && forall j :: 0 <= j < |lapsed| && j != i ==> next[j] == lapsed[j]
    ensures Counting(adopted, refills + 1, counted + {lapsed[i].course.counts.value}, course, next)
  {
  }

  /** A save that adopts a refill gives its pass an adoption later than all before. */
  lemma SaveKeepsCounting(a: Snap, o: OpRow, s: Secrets, v: View)
    requires Core(a) && SaveOk(a, o, s, v)
    requires Counting(Adopted(a.s, a.loc.issued), a.refills, a.counted, a.course, a.lapsed)
    ensures var b := ApplySave(a, o, s, v);
              Counting(Adopted(b.s, b.loc.issued), b.refills, b.counted, b.course, b.lapsed)
  {
    hide Identity, Chain, Asked, Custody, Evidence, Money, Ends, Keys, Standing, Finished, Adopted, KeepsPreparation,
      KeepsSession, KeepsBroker, KeepsRefill, KeepsObserved, KeepsClaim, KeepsKey, KeepsState, KeepsOutcome, FinishOk,
      Counting, RefillAdopted;
    SavePremises(a, o, s, v);
    SaveKeepsChain(a, s);
    SaveAdopts(a, s);
    AdoptKeepsCounting(Adopted(a.s, a.loc.issued), Adopted(s, a.loc.issued), a.refills, a.counted, a.course,
                       CourseAfterSave(a, o, s),
                       a.lapsed);
  }

  lemma AdoptKeepsCounting(adopted: nat, more: nat, refills: nat, counted: set<nat>, course: Course, next: Course,
                           lapsed: seq<Lapsed>)
    requires Counting(adopted, refills, counted, course, lapsed) && adopted <= more
    requires next.counts == course.counts || (adopted < more && next.counts == Some(more))
    ensures Counting(more, refills, counted, next, lapsed)
  {
  }

  lemma SaveAdopts(a: Snap, s: Secrets)
    requires KeepsRefill(a, s)
    ensures a.s.refill.Some? && a.s.refillId.Some? && s.refillId.None? <==> RefillAdopted(a, s)
    ensures a.s.refill.Some? && a.s.refillId.None? ==> !RefillAdopted(a, s)
  {
  }

  lemma IssueKeepsAdopted(a: Snap, e: LocEvent)
    requires Core(a) && LocEnabled(a, e)
    ensures Adopted(a.s, ApplyLoc(a.loc, e).issued) == Adopted(a.s, a.loc.issued)
  {
    hide Identity;
    if e.LocRevise? {
      assert a.s.refillId == Some(e.revise.id) && a.s.refill.None?;
      assert !PendingIssued(a.s, a.loc.issued);
      assert (a.loc.issued + [IssuedRevision(e.revise.id, e.work, e.revise.cap)])[|a.loc.issued|].id == e.revise.id;
    }
  }

  lemma ActKeepsCounting(a: Snap, act: Action)
    requires Core(a) && Acts(a, act)
    requires Counting(Adopted(a.s, a.loc.issued), a.refills, a.counted, a.course, a.lapsed)
    ensures var b := ApplyAct(a, act); Counting(Adopted(b.s, b.loc.issued), b.refills, b.counted, b.course, b.lapsed)
  {
    hide Core, LockEnabled, MoneyEnabled, LocEnabled, BrokerEnabled, RunnerEnabled, ApplyAct, ApplyBroker, ApplyLoc,
      Adopted, Counting;
    var b := ApplyAct(a, act);
    ActTouches(a, act);
    if act.AtLoc? {
      IssueKeepsAdopted(a, act.loc);
    }
    if act == OnLock(Lose) {
      LoseKeepsCounting(Adopted(a.s, a.loc.issued), a.refills, a.counted, a.course, a.lapsed,
                        Lapsed(a.op, a.s, a.v, a.lock, a.course));
    } else if act == OnStream(CountRefill) {
      CountKeepsCounting(Adopted(a.s, a.loc.issued), a.refills, a.counted, a.course, b.course, a.lapsed);
    } else {
      CountingStays(a, b);
    }
  }

  // ---------- passes without the lock: what everyone else does ----------

  lemma SaveKeepsLapsed(a: Snap, o: OpRow, s: Secrets, v: View, p: Lapsed)
    requires Core(a) && SaveOk(a, o, s, v) && LapsedOk(p, a)
    ensures LapsedOk(p, ApplySave(a, o, s, v))
  {
    hide Identity;
    assert Outlived(p, a.cfg, o.(stop := a.op.stop), s, a.lock, a.loc);
    SaveKeepsKey(a, s, p.s.keyRequest);
    SaveKeepsRefillOutlived(a, s, v, p.s, p.v.units);
  }

  lemma SaveKeepsKey(a: Snap, s: Secrets, k: Option<KeyId>)
    requires KeepsKey(a, s) && KeyOutlived(k, a.s.keyRequest, a.keysSaved)
    ensures KeyOutlived(k, s.keyRequest,
                        if a.s.keyRequest.Some? && s.keyRequest.None? then a.keysSaved + {a.s.keyRequest.value}
                            else a.keysSaved)
  {
  }

  lemma SaveKeepsRefillOutlived(a: Snap, s: Secrets, v: View, p: Secrets, units: Option<int>)
    requires KeepsRefill(a, s) && KeepsObserved(a, s, v)
    requires Chain(a.cfg, a.s, a.loc.authorized, a.loc.issued, a.loc.declined)
    requires Asked(a.s, a.v.units, a.loc.refillAsked, a.loc.issued, a.loc.declined, a.loc.closed.None?)
    requires Custody(a.s, a.loc.authorized, a.loc.issued, a.broker)
    requires RefillOutlived(p, units, a.s, a.v.units, a.loc.authorized, a.loc.issued, a.loc.refillAsked,
                            a.loc.closed.None?, a.broker.admission)
    ensures RefillOutlived(p, units, s, v.units, a.loc.authorized, a.loc.issued, a.loc.refillAsked, a.loc.closed.None?,
                           a.broker.admission)
  {
    if p.refillId.Some? && a.s.refillId == p.refillId {
      if RefillAdopted(a, s) {
        assert RefillSeen(a.loc.refillAsked, p.refillId.value) by {
          assert a.loc.issued[|a.loc.issued| - 1].id == p.refillId.value;
        }
      } else if RefillDropped(a, s) {
        assert RefillSeen(a.loc.refillAsked, p.refillId.value);
      } else if RefillMinted(a, s) {
        assert false;
      }
    }
  }

  lemma LocKeepsLapsed(a: Snap, e: LocEvent, p: Lapsed)
    requires Core(a) && LocEnabled(a, e) && LapsedOk(p, a)
    ensures LapsedOk(p, AfterLoc(a, e))
  {
    hide Core;
    var b := AfterLoc(a, e);
    assert Outlived(p, b.cfg, b.op, b.s, b.lock, b.loc);
    if e.AskRefill? {
      AskKeepsOutlived(p.s, p.v.units, a.s, a.v.units, a.loc.authorized, a.loc.issued, a.loc.refillAsked,
                       a.loc.closed.None?, a.broker.admission, e.refill);
    } else if e.LocRevise? {
      IssuedGrows(a.loc.authorized, a.loc.issued, IssuedRevision(e.revise.id, e.work, e.revise.cap));
    }
  }

  /** A request under the journal's pending id repeats what a pass without the lock would have asked. */
  lemma AskKeepsOutlived(p: Secrets, units: Option<int>, s: Secrets, now: Option<int>, root: Answer<Grant>,
                         issued: seq<IssuedRevision>,
                         asked: set<RefillRequest>, locOpen: bool, admission: Admission, q: RefillRequest)
    requires RefillOutlived(p, units, s, now, root, issued, asked, locOpen, admission)
    requires s.refillId == Some(q.id) && s.refill.None? && q.cap == s.refillCap && q.observed == now
    ensures RefillOutlived(p, units, s, now, root, issued, asked + {q}, locOpen, admission)
  {
    if p.refillId.Some? {
      if s.refillId != p.refillId {
        var r :| r in asked && r.id == p.refillId.value;
        assert r in asked + {q};
      }
      assert forall r :: r in asked + {q} && r.id == p.refillId.value && r !in asked ==>
             r == q && s.refillId == p.refillId;
    }
  }

  lemma BrokerKeepsLapsed(a: Snap, e: BrokerEvent, p: Lapsed)
    requires Core(a) && BrokerEnabled(a, e) && LapsedOk(p, a)
    ensures LapsedOk(p, AfterBroker(a, e))
  {
    hide Core;
  }

  lemma RowKeepsLapsed(a: Snap, act: Action, p: Lapsed)
    requires Acts(a, act) && LapsedOk(p, a) && !act.AtLoc? && !act.AtBroker?
    ensures LapsedOk(p, ApplyAct(a, act))
  {
    ActTouches(a, act);
    if act.OnLock? {
      LockKeepsLapsed(a, act.lock, p);
    } else {
      hide Acts, ApplyAct, RefillOutlived, KeyOutlived, ApplyMoney, ApplyRunner, ApplyBroker, ApplyLoc, Dwindles;
    }
  }

  lemma LockKeepsLapsed(a: Snap, e: LockEvent, p: Lapsed)
    requires LockEnabled(a, e) && LapsedOk(p, a)
    ensures LapsedOk(p, ApplyLock(a, e))
  {
    hide RefillOutlived, KeyOutlived, KeyUsable, GrantExpired, GoesOn, HasRefillToAsk;
  }

  lemma ActKeepsLapsed(a: Snap, act: Action, p: Lapsed)
    requires Core(a) && Acts(a, act) && LapsedOk(p, a)
    ensures LapsedOk(p, ApplyAct(a, act))
  {
    hide Core, LapsedOk, LockEnabled, MoneyEnabled, StreamEnabled, LocEnabled, BrokerEnabled, RunnerEnabled,
      ApplyLock, ApplyStream, ApplyMoney, AfterLoc, AfterBroker, AfterRunner;
    match act
    case AtLoc(e) => LocKeepsLapsed(a, e, p);
    case AtBroker(e) => BrokerKeepsLapsed(a, e, p);
    case _ => RowKeepsLapsed(a, act, p);
  }

  /** The pass that loses the lock leaves the journal exactly as it knew it. */
  lemma LoseMakesLapsed(a: Snap)
    requires Core(a) && a.lock.held && a.op.finished.None?
    ensures LapsedOk(Lapsed(a.op, a.s, a.v, a.lock, a.course), ApplyLock(a, Lose))
  {
    hide Inv;
  }

  // ---------- passes without the lock: what they do ----------

  /** A late refill request repeats what LOC was asked, or what the journal would ask. */
  lemma LateRefillKeepsAsked(a: Snap, p: Lapsed, q: RefillRequest)
    requires Core(a) && LapsedOk(p, a)
    requires p.s.refillId == Some(q.id) && p.s.refill.None? && q.cap == p.s.refillCap && q.observed == p.v.units
    ensures Asked(a.s, a.v.units, a.loc.refillAsked + {q}, a.loc.issued, a.loc.declined, a.loc.closed.None?)
  {
    hide Identity, Chain, Custody, Evidence, Money, Ends, Keys, Standing, Finished, Outlived, KeyOutlived;
    var asked := a.loc.refillAsked;
    forall id | RefillSeen(asked, id) ensures RefillSeen(asked + {q}, id) {
      var r :| r in asked && r.id == id;
      assert r in asked + {q};
    }
    if a.s.refillId != Some(q.id) {
      var r :| r in asked && r.id == q.id;
    }
  }

  lemma LateRefillKeepsOutlived(a: Snap, p: Lapsed, r: Lapsed, q: RefillRequest)
    requires Core(a) && LapsedOk(p, a) && LapsedOk(r, a)
    requires p.s.refillId == Some(q.id) && p.s.refill.None? && q.cap == p.s.refillCap && q.observed == p.v.units
    ensures RefillOutlived(r.s, r.v.units, a.s, a.v.units, a.loc.authorized, a.loc.issued, a.loc.refillAsked + {q},
                           a.loc.closed.None?, a.broker.admission)
  {
    hide Identity, Evidence, Money, Ends, Keys, Standing, Finished, Outlived, KeyOutlived, Custody;
    var asked := a.loc.refillAsked;
    if r.s.refillId.Some? {
      if RefillSeen(asked, r.s.refillId.value) {
        var seen :| seen in asked && seen.id == r.s.refillId.value;
        assert seen in asked + {q};
      } else if r.s.refillId == Some(q.id) {
        assert a.s.refillId == Some(q.id);
        assert a.s.refill.None?;
      }
    }
  }

  /** A row update or request of such a pass that reads nothing of the journal. */
  lemma LateMoneyKeepsCore(a: Snap, i: nat, e: MoneyEvent)
    requires Core(a) && LapsedAt(a, i) && LateEnabled(a, i, OnReservation(e))
    ensures Core(ApplyLate(a, i, OnReservation(e)))
  {
    hide Chain, Asked, Custody, Keys, Standing, Ends, RefillOutlived, KeyOutlived;
    hide LockEnabled, StreamEnabled, LocEnabled, BrokerEnabled, RunnerEnabled, ApplyLock, ApplyStream, AfterLoc,
      AfterBroker, AfterRunner;
    var b := ApplyLate(a, i, OnReservation(e));
    assert Money(b.op.stop, b.s.prep, b.res, b.lock, b.loc.closed, LocRefused(b.loc));
  }

  lemma LateStreamKeepsCore(a: Snap, i: nat, e: StreamEvent)
    requires Core(a) && LapsedAt(a, i) && LateEnabled(a, i, OnStream(e))
    ensures Core(ApplyLate(a, i, OnStream(e)))
  {
    hide Chain, Asked, Custody, Evidence, Keys, Standing, Ends, Money, RefillOutlived, KeyOutlived;
    hide LockEnabled, MoneyEnabled, LocEnabled, BrokerEnabled, RunnerEnabled, ApplyLock, ApplyMoney, AfterLoc,
      AfterBroker, AfterRunner;
  }

  lemma LateAskKeepsCore(a: Snap, i: nat, e: LocEvent)
    requires Core(a) && LapsedAt(a, i) && LateEnabled(a, i, AtLoc(e)) && !e.AskRefill?
    ensures Core(ApplyLate(a, i, AtLoc(e)))
  {
    hide Chain, Asked, Custody, Evidence, Keys, Standing, Ends, Money, RefillOutlived, KeyOutlived;
    hide LockEnabled, MoneyEnabled, StreamEnabled, BrokerEnabled, RunnerEnabled, ApplyLock, ApplyMoney, ApplyStream,
      AfterBroker, AfterRunner;
  }

  lemma LateRefillKeepsCore(a: Snap, i: nat, q: RefillRequest)
    requires Core(a) && LapsedAt(a, i) && LateEnabled(a, i, AtLoc(AskRefill(q)))
    ensures Core(ApplyLate(a, i, AtLoc(AskRefill(q))))
  {
    hide LapsedOk, Chain, Asked, Custody, Evidence, Keys, Standing, Ends, Money, LateEnabled, ApplyLate, ApplyMoney,
      LateCourse, Finished;
    LateTouches(a, i, AtLoc(AskRefill(q)));
    LateRefillKeepsAsked(a, a.lapsed[i], q);
    LateRefillHasSession(a, a.lapsed[i]);
    FinishedStays(a, ApplyLate(a, i, AtLoc(AskRefill(q))));
  }

  /** What a finish rests on. */
  lemma FinishedStays(a: Snap, b: Snap)
    requires b.op == a.op && b.s == a.s && b.v == a.v && b.res == a.res && b.stream == a.stream
    requires b.strayed == a.strayed
    requires b.loc.closed == a.loc.closed && LocRefused(b.loc) == LocRefused(a.loc)
    requires a.loc.closeAsked ==> b.loc.closeAsked
    ensures Finished(a) ==> Finished(b)
  {
    hide TerminalView, Projection, LocRefused;
  }

  lemma LateRefillHasSession(a: Snap, p: Lapsed)
    requires LapsedOk(p, a)
    ensures p.s.refillId.Some? ==> a.s.session.Some?
  {
    hide RefillOutlived, KeyOutlived;
  }

  lemma LateOpenKeepsCore(a: Snap, i: nat, sawStop: bool)
    requires Core(a) && LapsedAt(a, i) && LateEnabled(a, i, AtBroker(OfferOpen(sawStop)))
    ensures Core(ApplyLate(a, i, AtBroker(OfferOpen(sawStop))))
  {
    hide Chain, Asked, Keys, Standing, Ends, Money, RefillOutlived, KeyOutlived;
    hide LockEnabled, MoneyEnabled, StreamEnabled, LocEnabled, RunnerEnabled, ApplyLock, ApplyMoney, ApplyStream,
      AfterLoc, AfterRunner;
  }

  lemma LateTopUpKeepsCore(a: Snap, i: nat, work: Id)
    requires Core(a) && LapsedAt(a, i) && LateEnabled(a, i, AtBroker(OfferTopUp(work)))
    ensures Core(ApplyLate(a, i, AtBroker(OfferTopUp(work))))
  {
    hide LateEnabled, ApplyLate, LapsedOk, Chain, Asked, Custody, Keys, Standing, Ends, Money, Identity, ApplyMoney,
      LateCourse, Finished;
    LateTouches(a, i, AtBroker(OfferTopUp(work)));
    FinishedStays(a, ApplyLate(a, i, AtBroker(OfferTopUp(work))));
    TopUpOutlived(a, a.lapsed[i], work);
    LateTopUpKeepsCustody(a.s, a.loc.authorized, a.loc.issued, a.broker,
                          ApplyLate(a, i, AtBroker(OfferTopUp(work))).broker, work);
  }

  lemma LateEndKeepsCore(a: Snap, i: nat, reason: Reason)
    requires Core(a) && LapsedAt(a, i) && LateEnabled(a, i, AtBroker(AskEnd(reason)))
    ensures Core(ApplyLate(a, i, AtBroker(AskEnd(reason))))
  {
    hide Chain, Asked, Identity, Keys, Standing, Ends, Money, LapsedOk;
    hide LateEnabled, LockEnabled, ApplyLock, ApplyMoney, ApplyStream, AfterLoc, AfterRunner;
  }

  lemma TopUpOutlived(a: Snap, p: Lapsed, work: Id)
    requires Core(a) && LapsedOk(p, a)
    ensures p.s.refill.Some? && p.s.refill.value.work == work ==>
              && WorkSeen(a.loc.authorized, a.loc.issued, work) && a.broker.admission.Admitted?
              && (work in a.broker.admission.taken || (a.s.refill.Some? && a.s.refill.value.work == work))
  {
    hide Identity, Asked, Evidence, Money, Ends, Keys, Standing, Finished;
  }

  lemma LateTopUpKeepsCustody(s: Secrets, root: Answer<Grant>, issued: seq<IssuedRevision>, broker: Broker,
                              more: Broker, work: Id)
    requires Custody(s, root, issued, broker) && WorkSeen(root, issued, work) && broker.admission.Admitted?
    requires work in broker.admission.taken || (s.refill.Some? && s.refill.value.work == work)
    requires more.topUpSent == broker.topUpSent + {work} && more.opens == broker.opens
    requires more.lateOpens == broker.lateOpens
    requires more.admissions == broker.admissions && more.admission == broker.admission
    requires more.refusedTopUps == broker.refusedTopUps
    ensures Custody(s, root, issued, more)
  {
  }

  lemma LateKeyKeepsCore(a: Snap, i: nat, key: KeyId)
    requires Core(a) && LapsedAt(a, i) && LateEnabled(a, i, AtRunner(AskKey(key)))
    ensures Core(ApplyLate(a, i, AtRunner(AskKey(key))))
  {
    hide Identity, Chain, Asked, Custody, Evidence, Standing, Ends, Money, Outlived, RefillOutlived;
    hide LockEnabled, MoneyEnabled, StreamEnabled, LocEnabled, BrokerEnabled, ApplyLock, ApplyMoney, ApplyStream,
      AfterLoc, AfterBroker;
    var b := ApplyLate(a, i, AtRunner(AskKey(key)));
    if b.s.upstream.Some? {
      var k :| k in a.keysSaved && k in a.runner.keys
          && a.runner.keys[k] == IssuedKey(a.s.upstream.value, a.s.keyExpires);
      assert k in b.keysSaved && k in b.runner.keys
             && b.runner.keys[k] == IssuedKey(b.s.upstream.value, b.s.keyExpires);
    }
  }

  lemma LateLockKeepsCore(a: Snap, i: nat, e: LockEvent)
    requires Core(a) && LateEnabled(a, i, OnLock(e))
    ensures Core(ApplyLate(a, i, OnLock(e)))
  {
    hide Identity, Chain, Asked, Custody, Evidence, Keys, Standing, Ends, Money;
    hide MoneyEnabled, StreamEnabled, LocEnabled, BrokerEnabled, RunnerEnabled, ApplyMoney, ApplyStream, AfterLoc,
      AfterBroker, AfterRunner;
  }

  lemma LateKeepsCore(a: Snap, i: nat, act: Action)
    requires Core(a) && LateEnabled(a, i, act) && LapsedAt(a, i)
    ensures Core(ApplyLate(a, i, act))
  {
    hide Core, LapsedAt, Acts, ApplyLate;
    match act
    case OnLock(e) => LateLockKeepsCore(a, i, e);
    case OnReservation(e) => LateMoneyKeepsCore(a, i, e);
    case OnStream(e) => LateStreamKeepsCore(a, i, e);
    case AtLoc(e) =>
      if e.AskRefill? {
        LateRefillKeepsCore(a, i, e.refill);
      } else {
        LateAskKeepsCore(a, i, e);
      }
    case AtBroker(e) =>
      if e.OfferOpen? {
        LateOpenKeepsCore(a, i, e.sawStop);
      } else if e.AskEnd? {
        LateEndKeepsCore(a, i, e.reason);
      } else {
        LateTopUpKeepsCore(a, i, e.work);
      }
    case AtRunner(e) => LateKeyKeepsCore(a, i, e.key);
  }

  /** What a pass without the lock can have learned since. */
  predicate LateCourse(c: Course, d: Course, refused: bool, checks: bool) {
    && (d.heard ==> c.heard || refused) && (c.done ==> d.done)
    && (d.marked ==> c.marked) && (d.open ==> c.open) && (d.asks ==> c.asks) && (d.nearKey ==> c.nearKey)
    && (c.checked ==> d.checked) && (d.wantsKey ==> c.wantsKey || (checks && !c.done))
  }

  predicate Checks(p: Lapsed, clock: Time) {
    ChecksKey(p.op.state, p.s, p.lock, p.course, clock)
  }

  /**
   * Its requests go by the row it knew, and only requests grow at the peers; of the rows, it may write what it could
   * before.
   */
  predicate TouchesLate(a: Snap, b: Snap, i: nat, act: Action) {
    && i < |a.lapsed| && |b.lapsed| == |a.lapsed|
    && b.lapsed == a.lapsed[i := a.lapsed[i].(course := b.lapsed[i].course)]
    && LateCourse(a.lapsed[i].course, b.lapsed[i].course, LocRefused(a.loc), Checks(a.lapsed[i], a.clock))
    && b.cfg == a.cfg && b.op == a.op && b.s == a.s && b.v == a.v && b.lock == a.lock && b.course == a.course
    && b.keysSaved == a.keysSaved && b.clock == a.clock
    && b.res == (if act.OnReservation? then ApplyMoney(a.res, act.money) else a.res)
    && (!act.OnStream? ==> b.stream == a.stream && b.strayed == a.strayed)
    && (act.OnStream? && act.stream.Project? ==> b.strayed)
    && (if act == OnStream(CountRefill)
        then a.lapsed[i].course.counts.Some? && b.refills == a.refills + 1
            && b.counted == a.counted + {a.lapsed[i].course.counts.value}
             && b.lapsed[i].course.counts.None?
        else b.refills == a.refills && b.counted == a.counted && b.lapsed[i].course.counts == a.lapsed[i].course.counts)
    && b.loc == a.loc.(prepareAsked := b.loc.prepareAsked, openAsked := b.loc.openAsked,
                       refillAsked := b.loc.refillAsked, closeAsked := b.loc.closeAsked)
    && (a.loc.prepareAsked ==> b.loc.prepareAsked) && a.loc.openAsked <= b.loc.openAsked
    && (a.loc.closeAsked ==> b.loc.closeAsked) && a.broker.endAsked <= b.broker.endAsked
    && (!(act.AtLoc? && act.loc.AskOpen?) ==> b.loc.openAsked == a.loc.openAsked)
    && b.loc.refillAsked == (if act.AtLoc? && act.loc.AskRefill? then a.loc.refillAsked + {act.loc.refill}
                             else a.loc.refillAsked)
    && (act.AtLoc? && act.loc.AskRefill? ==>
          var p, q := a.lapsed[i], act.loc.refill;
          p.s.refillId == Some(q.id) && p.s.refill.None? && q.cap == p.s.refillCap && q.observed == p.v.units)
    && b.broker.opens == a.broker.opens && b.broker.admissions == a.broker.admissions
    && b.broker.admission == a.broker.admission
    && b.broker.refusedTopUps == a.broker.refusedTopUps && a.broker.lateOpens <= b.broker.lateOpens
    && (!(act.AtBroker? && act.broker.OfferOpen?) ==> b.broker.lateOpens == a.broker.lateOpens)
    && b.broker.topUpSent == (if act.AtBroker? && act.broker.OfferTopUp? then a.broker.topUpSent + {act.broker.work}
                              else a.broker.topUpSent)
    && (act.AtBroker? && act.broker.OfferTopUp? ==>
          a.lapsed[i].s.refill.Some? && a.lapsed[i].s.refill.value.work == act.broker.work)
    && (!act.AtLoc? ==> b.loc == a.loc) && (!act.AtBroker? ==> b.broker == a.broker)
    && (!act.AtRunner? ==> b.runner == a.runner)
    && b.runner.keys == a.runner.keys
    && b.runner.asked == (if act.AtRunner? && act.runner.AskKey? then a.runner.asked + {act.runner.key}
                          else a.runner.asked)
  }

  lemma LateTouches(a: Snap, i: nat, act: Action)
    requires LateEnabled(a, i, act)
    ensures TouchesLate(a, ApplyLate(a, i, act), i, act)
  {
    var p := AsSeen(a, a.lapsed[i]);
    ActTouches(p, act);
    LateGuards(p, act);
    LateLearns(p, act);
    hide Acts, ApplyAct, ApplyMoney, LateCourse, Dwindles, LocRefused;
  }

  /** What a pass without the lock learns. */
  lemma LockLearns(a: Snap, e: LockEvent)
    requires LockEnabled(a, e) && Outlives(OnLock(e))
    ensures LateCourse(a.course, ApplyLock(a, e).course, LocRefused(a.loc),
                       ChecksKey(a.op.state, a.s, a.lock, a.course, a.clock))
    ensures ApplyLock(a, e).course.counts == a.course.counts
  {
  }

  lemma LateLearns(a: Snap, act: Action)
    requires Acts(a, act) && Outlives(act)
    ensures LateCourse(a.course, ApplyAct(a, act).course, LocRefused(a.loc),
                       ChecksKey(a.op.state, a.s, a.lock, a.course, a.clock))
    ensures act.OnLock? ==> ApplyAct(a, act).course.counts == a.course.counts
  {
    hide LockEnabled, MoneyEnabled, StreamEnabled, LocEnabled, BrokerEnabled, RunnerEnabled, ApplyLock, ApplyStream,
      ApplyMoney, AfterLoc, AfterBroker, AfterRunner, LocRefused, Outlives;
    ActTouches(a, act);
    if act.OnLock? {
      LockLearns(a, act.lock);
    }
  }

  /** What makes a late action possible. */
  lemma LateGuards(a: Snap, act: Action)
    requires Acts(a, act)
    ensures act.AtLoc? && act.loc.AskRefill? ==>
              && a.s.refillId == Some(act.loc.refill.id) && a.s.refill.None?
              && act.loc.refill.cap == a.s.refillCap && act.loc.refill.observed == a.v.units
    ensures act.AtBroker? && act.broker.OfferTopUp? ==> a.s.refill.Some? && a.s.refill.value.work == act.broker.work
  {
  }

  lemma LateKeepsCounting(a: Snap, i: nat, act: Action)
    requires LateEnabled(a, i, act) && Counting(Adopted(a.s, a.loc.issued), a.refills, a.counted, a.course, a.lapsed)
    ensures var b := ApplyLate(a, i, act);
              Counting(Adopted(b.s, b.loc.issued), b.refills, b.counted, b.course, b.lapsed)
  {
    hide LateEnabled, ApplyLate, Adopted, LateCourse, LocRefused, ApplyMoney;
    LateTouches(a, i, act);
    var b := ApplyLate(a, i, act);
    if act == OnStream(CountRefill) {
      LateCountKeepsCounting(Adopted(a.s, a.loc.issued), a.refills, a.counted, a.course, a.lapsed, i, b.lapsed);
    }
  }

  /** A pass without the lock keeps every such pass, itself included, in step with the journal. */
  lemma LateKeepsLapsed(a: Snap, i: nat, act: Action, j: nat)
    requires Core(a) && LateEnabled(a, i, act) && LapsedAt(a, i) && LapsedAt(a, j)
    ensures LapsedAt(ApplyLate(a, i, act), j)
  {
    hide LateEnabled, ApplyLate, ApplyMoney, Core;
    var b := ApplyLate(a, i, act);
    LateTouches(a, i, act);
    if j < |a.lapsed| {
      if act.AtLoc? && act.loc.AskRefill? {
        LateRefillKeepsOutlived(a, a.lapsed[i], a.lapsed[j], act.loc.refill);
      }
      hide Core, RefillOutlived, KeyOutlived;
      OutlivedStays(a, b, a.lapsed[j], b.lapsed[j]);
    }
  }

  lemma OutlivedStays(a: Snap, b: Snap, p: Lapsed, q: Lapsed)
    requires Outlived(p, a.cfg, a.op, a.s, a.lock, a.loc)
    requires q.op == p.op && q.s == p.s && q.lock == p.lock && (q.course.marked ==> p.course.marked)
    requires LocRefused(a.loc) ==> LocRefused(b.loc)
    requires q.course.heard ==> p.course.heard || LocRefused(b.loc)
    requires b.cfg == a.cfg && b.op == a.op && b.s == a.s && b.lock == a.lock
    ensures Outlived(q, b.cfg, b.op, b.s, b.lock, b.loc)
  {
    hide LocRefused;
  }

  lemma LateStep(a: Snap, i: nat, act: Action)
    requires Inv(a) && LateEnabled(a, i, act)
    ensures Inv(ApplyLate(a, i, act))
  {
    hide Core, LapsedAt, Counting, ApplyLate, LateEnabled;
    LateKeepsCore(a, i, act);
    LateKeepsCounting(a, i, act);
    forall j: nat ensures LapsedAt(ApplyLate(a, i, act), j) {
      LateKeepsLapsed(a, i, act, j);
    }
  }

  lemma DirectStep(a: Snap, act: Action)
    requires Inv(a) && Direct(a, act)
    ensures Inv(ApplyDirect(a, act))
  {
    hide Core, Counting, Acts, ApplyAct, SaveOk;
    CoreStep(a, act);
    var b := ApplyDirect(a, act);
    if act.Save? {
      SaveKeepsCounting(a, act.o, act.s, act.v);
      hide LapsedOk;
      forall j: nat ensures LapsedAt(b, j) {
        assert LapsedAt(a, j);
        if j < |a.lapsed| {
          SaveKeepsLapsed(a, act.o, act.s, act.v, a.lapsed[j]);
        }
      }
    } else {
      ActKeepsCounting(a, act);
      ActKeepsAll(a, act);
    }
  }

  lemma ActKeepsAll(a: Snap, act: Action)
    requires Core(a) && AllLapsedOk(a) && Acts(a, act)
    ensures AllLapsedOk(ApplyAct(a, act))
  {
    hide Core, LapsedOk, Acts, ApplyAct, ApplyMoney, ApplyLoc, ApplyBroker, Dwindles, Inv, ApplyLock;
    ActTouches(a, act);
    var b := ApplyAct(a, act);
    forall j: nat ensures LapsedAt(b, j) {
      assert LapsedAt(a, j);
      if j < |a.lapsed| {
        ActKeepsLapsed(a, act, a.lapsed[j]);
      } else if j < |b.lapsed| {
        LoseMakesLapsed(a);
        assert b == ApplyLock(a, Lose) by {
          LoseIs(a, act);
        }
      }
    }
  }

  lemma LoseIs(a: Snap, act: Action)
    requires act == OnLock(Lose)
    ensures ApplyAct(a, act) == ApplyLock(a, Lose)
  {
    hide ApplyLock, AfterLoc;
  }

  // ---------- every action, every run ----------

  /** What any enabled action may change. */
  lemma StepTouches(a: Snap, act: Action)
    requires Enabled(a, act)
    ensures act.Late? ==> TouchesLate(a, Apply(a, act), act.i, act.late)
    ensures act.Save? ==> SaveOk(a, act.o, act.s, act.v) && Apply(a, act) == ApplySave(a, act.o, act.s, act.v)
    ensures !act.Late? && !act.Save? ==> Touches(a, Apply(a, act), act)
  {
    hide SaveOk, ApplySave, Acts, ApplyAct, LateEnabled, ApplyLate, Touches, TouchesLate;
    if act.Late? {
      LateTouches(a, act.i, act.late);
    } else if !act.Save? {
      ActTouches(a, act);
    }
  }

  /** What an enabled action of the lock's holder, or of a peer, goes by. */
  lemma Guards(a: Snap, act: Action)
    requires Enabled(a, act)
    ensures act.OnLock? ==> LockEnabled(a, act.lock) && Apply(a, act) == ApplyLock(a, act.lock)
    ensures act.OnReservation? ==> MoneyEnabled(a, act.money)
    ensures act.OnStream? ==> StreamEnabled(a, act.stream)
    ensures act.AtLoc? ==> LocEnabled(a, act.loc)
    ensures act.AtBroker? ==> BrokerEnabled(a, act.broker)
    ensures act.AtRunner? ==> RunnerEnabled(a, act.runner)
    ensures act.Late? ==> LateEnabled(a, act.i, act.late)
    ensures act.Save? ==> act.o.finished.Some? ==> a.course.done
  {
    hide SaveOk, ApplySave, LateEnabled, ApplyLate, LockEnabled, MoneyEnabled, StreamEnabled, LocEnabled,
      BrokerEnabled, RunnerEnabled, ApplyLock, ApplyStream, ApplyMoney, AfterLoc, AfterBroker, AfterRunner;
  }

  /** A pass without the lock is one from before, further on, or the one that just lost it. */
  predicate LapsedFrom(a: Snap, b: Snap, j: nat) {
    j < |b.lapsed| ==>
      var q := b.lapsed[j];
      || (j < |a.lapsed| && var p := a.lapsed[j];
          q.op == p.op && q.s == p.s && q.v == p.v && q.lock == p.lock
              && LateCourse(p.course, q.course, LocRefused(a.loc), Checks(p, a.clock)))
      || (q == Lapsed(a.op, a.s, a.v, a.lock, a.course) && a.lock.held && a.op.finished.None?)
  }

  lemma LapsedEvolve(a: Snap, act: Action)
    requires Enabled(a, act)
    ensures forall j: nat :: LapsedFrom(a, Apply(a, act), j)
  {
    hide Enabled, Apply, SaveOk, ApplyLoc, ApplyRunner, ApplyMoney, CourseAfterSave, Dwindles, LocRefused;
    StepTouches(a, act);
  }

  /** Every enabled action keeps the invariant, also those of passes that lost their lock. */
  lemma Step(a: Snap, act: Action)
    requires Inv(a) && Enabled(a, act)
    ensures Inv(Apply(a, act))
  {
    hide Inv, Direct, ApplyLate, ApplyDirect, Acts;
    if act.Late? {
      LateStep(a, act.i, act.late);
    } else {
      DirectStep(a, act);
    }
  }

  /** The invariant holds in every state of every legal run. */
  lemma {:induction false} RunInv(a: Snap, log: seq<Action>)
    requires Inv(a) && Legal(a, log)
    ensures Inv(Replay(a, log))
    decreases |log|
  {
    hide Inv, Enabled, Apply;
    if log != [] {
      RunInv(a, log[..|log| - 1]);
      Step(Replay(a, log[..|log| - 1]), log[|log| - 1]);
    }
  }

  lemma {:induction false} Extend(a: Snap, log: seq<Action>, act: Action)
    requires Legal(a, log) && Enabled(Replay(a, log), act)
    ensures Legal(a, log + [act]) && Replay(a, log + [act]) == Apply(Replay(a, log), act)
  {
    hide Enabled, Apply;
    assert (log + [act])[..|log|] == log;
  }

  /** An admitted session stays admitted. */
  lemma {:induction false} AdmittedStays(a: Snap, before: seq<Action>, log: seq<Action>)
    requires Legal(a, log) && before <= log && Legal(a, before) && Replay(a, before).broker.admission.Admitted?
    ensures Replay(a, log).broker.admission.Admitted?
    decreases |log|
  {
    hide Enabled, Apply;
    if before == log {
    } else {
      var shorter := log[..|log| - 1];
      assert before <= shorter;
      AdmittedStays(a, before, shorter);
      AdmittedStep(Replay(a, shorter), log[|log| - 1]);
    }
  }

  lemma AdmittedStep(a: Snap, act: Action)
    requires Enabled(a, act)
    ensures a.broker.admission.Admitted? ==> Apply(a, act).broker.admission.Admitted?
    ensures Apply(a, act).cfg == a.cfg
  {
    StepTouches(a, act);
    hide Enabled, Apply, SaveOk, ApplyLoc, ApplyRunner, ApplyMoney, Dwindles, LateCourse;
  }
}
