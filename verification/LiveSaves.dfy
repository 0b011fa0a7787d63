/**
 * What a pass may hold in memory: every state a pass reaches between two of its own steps is one the journal
 * accepts, because the pass ends with a write of whatever it holds.
 */
module LiveSaves {
  import opened Basics
  import opened LiveProtocol
  import opened LiveInvariant

  lemma LoadSave(a: Snap, o: OpRow)
    requires Inv(a) && a.lock.held && a.op.finished.None?
    requires o == if a.lock.worker then a.op.(attempts := a.op.attempts + 1) else a.op
    ensures SaveOk(a, o, a.s, a.v)
  {
  }

  /** Writing twice what was written once. */
  lemma AgainSave(a: Snap, o: OpRow, s: Secrets, v: View)
    requires SaveOk(a, o, s, v) && o.finished.None?
    ensures SaveOk(ApplySave(a, o, s, v), o, s, v)
  {
  }

  lemma RereadSave(a: Snap, o: OpRow, s: Secrets, v: View)
    requires SaveOk(a, o, s, v) && s == a.s && o.finished.None? && a.lock.worker && LockEnabled(a, RereadStop)
    ensures SaveOk(ApplyLock(a, RereadStop), o, s, v)
  {
  }

  /** The in-memory stop flag is never written. */
  lemma StopFlagSave(a: Snap, o: OpRow, o': OpRow, s: Secrets, v: View)
    requires SaveOk(a, o', s, v) && o == o'.(stop := o.stop)
    ensures SaveOk(a, o, s, v)
  {
    hide KeepsPreparation, KeepsRefill;
  }

  lemma ViewSave(a: Snap, o: OpRow, s: Secrets, v: View, view: View)
    requires SaveOk(a, o, s, v) && o.finished.None?
    requires view.mediaEnded == v.mediaEnded && a.s.claim.None?
    requires view.units == v.units || s.refillId != a.s.refillId || a.s.refillId.None? || s.refill.Some?
             || (a.loc.closed.Some? && view.units == Some(a.loc.closed.value.units))
    ensures SaveOk(a, o, s, view)
  {
    hide KeepsRefill;
  }

  lemma StateSave(a: Snap, o: OpRow, s: Secrets, v: View, state: OpState)
    requires SaveOk(a, o, s, v) && o.finished.None? && a.lock.worker
    requires state != Active && state != IssuanceRefused
    ensures SaveOk(a, o.(state := state), s, v)
  {
    hide KeepsRefill;
  }

  lemma EndSave(a: Snap, o: OpRow, s: Secrets, v: View, reason: Reason)
    requires SaveOk(a, o, s, v) && o.finished.None? && reason != NoReason
    requires s.session.Some? && a.s.claim.None? && RefillStays(a, s) && KeySame(a, s)
    requires (o.state == Active ==> a.op.state == Active)
    requires KeepsReason(a, s.(endReason := reason))
    ensures SaveOk(a, o, s.(endReason := reason), v)
    ensures RefillStays(a, s.(endReason := reason)) && KeySame(a, s.(endReason := reason))
  {
  }

  lemma MediaEndSave(a: Snap, o: OpRow, s: Secrets, v: View, at: Time)
    requires SaveOk(a, o, s, v) && o.finished.None? && a.lock.worker
    requires v.mediaEnded.None? && (s.claim.Some? || s.endReason != NoReason)
    ensures SaveOk(a, o.(state := AccountingPending), s, v.(mediaEnded := Some(at)))
  {
  }

  /** A terminal view computed twice, with the same units, is the terminal view. */
  lemma TerminalViewStable(s: Secrets, v: View, units: int, more: int)
    ensures TerminalView(s, TerminalView(s, v, units), more) == TerminalView(s, v, more)
  {
  }

  /** The view while a session ends: the end shows with its reason, unless media ended before. */
  function Marked(s: Secrets, v: View): View {
    if v.mediaEnded.None? then v.(status := Closing, closeReason := s.endReason) else v
  }

  /** The view at the end, whenever media ended. */
  predicate FinalView(s: Secrets, was: View, v: View, units: int) {
    v == TerminalView(s, was.(mediaEnded := v.mediaEnded), units)
  }

  /** Computed again, perhaps with a claim found since, the final view is what it would have been at once. */
  lemma FinalAgain(s: Secrets, t: Secrets, was: View, seen: View, v: View, units: int, more: int)
    requires t.endReason == s.endReason && (s.claim == t.claim || s.claim.None?)
    requires FinalView(s, was, seen, units) && FinalView(t, seen, v, more)
    ensures FinalView(t, was, v, more)
  {
  }

  lemma FinalMedia(s: Secrets, was: View, v: View, units: int)
    requires v == TerminalView(s, was, units)
    ensures forall at :: FinalView(s, was, v.(mediaEnded := at), units)
  {
  }

  lemma OutcomeStable(s: Secrets, v: View, t: View, units: int)
    requires s.claim.Some? && t == TerminalView(s, v, units)
    ensures Outcome(s, t) == Outcome(s, v) && t.mediaEnded == v.mediaEnded
  {
  }

  lemma OutcomeIgnoresMedia(s: Secrets, v: View, units: int, t: View)
    requires s.claim.Some? && t == TerminalView(s, v, units).(mediaEnded := t.mediaEnded)
    ensures Outcome(s, t) == Outcome(s, v)
  {
  }

  lemma OutcomeAgain(s: Secrets, v: View, t: View)
    requires s.claim.Some? && (t == v || exists units :: t == TerminalView(s, v, units))
    ensures Outcome(s, t) == Outcome(s, v) && t.mediaEnded == v.mediaEnded
  {
  }

  lemma TerminalViewSave(a: Snap, o: OpRow, s: Secrets, v: View, units: int)
    requires SaveOk(a, o, s, v) && o.finished.None?
    requires a.s.claim.Some? ==> s.endReason == a.s.endReason && a.lock.worker
    requires s.refillId != a.s.refillId || a.s.refillId.None? || s.refill.Some?
             || (a.loc.closed.Some? && units == a.loc.closed.value.units)
    ensures SaveOk(a, o, s, TerminalView(s, v, units))
  {
    hide KeepsRefill;
    if a.s.claim.Some? {
      TerminalViewStable(s, v, units, s.claim.value.units);
    }
  }

  lemma CancelSave(a: Snap, o: OpRow, s: Secrets, v: View, at: Time)
    requires SaveOk(a, o, s, v) && a.s.prep.None? && s == a.s && v == a.v && o.finished.None? && Inv(a)
    requires a.res.state == Refunded && a.lock.sawStop && a.stream.status == Ended && a.stream.ended.Some?
    ensures SaveOk(a, o.(state := Canceled, finished := Some(at)), s,
                   v.(status := Ended, closeReason := GatewayClose, mediaEnded := Some(at)))
  {
  }

  lemma RefusedSave(a: Snap, o: OpRow, s: Secrets, v: View)
    requires SaveOk(a, o, s, v) && o.finished.None? && LocRefused(a.loc) && a.course.heard && v.mediaEnded.None?
    requires a.s.claim.None? && a.lock.worker
    ensures SaveOk(a, o.(state := IssuanceRefused), s, v)
    ensures forall at :: a.res.state == Refunded && v.status == Failed && a.stream.status != Provisional
              && a.stream.status != Live
              ==> SaveOk(a, o.(state := IssuanceRefused, finished := Some(at)), s, v)
  {
    hide KeepsRefill;
  }

  lemma PrepareSave(a: Snap, o: OpRow, s: Secrets, v: View, gateway: Id)
    requires SaveOk(a, o, s, v) && o.finished.None? && a.lock.worker && s.prep.None? && s.session.None?
    requires !a.lock.sawStop
    requires a.loc.prepared == Granted(gateway) && o.attempts >= 1
    ensures SaveOk(a, o.(state := Prepared), s.(prep := Some(gateway), body := Some(gateway)), v)
  {
  }

  lemma AuthorizeSave(a: Snap, o: OpRow, s: Secrets, v: View, grant: Grant)
    requires SaveOk(a, o, s, v) && o.finished.None? && a.lock.worker && s == a.s && s.prep.Some? && s.session.None?
    requires a.loc.authorized == Granted(grant) && Inv(a)
    ensures SaveOk(a, o.(state := Authorized), s.(session := Some(grant)), v)
  {
    hide Inv;
  }

  lemma DispatchSave(a: Snap, o: OpRow, s: Secrets, v: View)
    requires SaveOk(a, o, s, v) && o.finished.None? && a.lock.worker && a.s.session.Some?
    ensures SaveOk(a, o.(state := Dispatching), s.(dispatched := true), v)
  {
  }

  lemma DescriptorSave(a: Snap, o: OpRow, s: Secrets, v: View, d: Descriptor)
    requires SaveOk(a, o, s, v) && o.finished.None? && a.lock.worker && s == a.s && s.broker.None? && s.dispatched
    requires Inv(a)
    requires a.broker.admission.Admitted? && a.broker.admission.session == d.session && d.work == s.session.value.work
    requires s.session.Some?
    ensures SaveOk(a, o, s.(broker := Some(d)), v)
    ensures SaveOk(a, o.(state := Provisioning), s.(broker := Some(d)), v)
  {
    hide Inv;
  }

  lemma ClaimSave(a: Snap, o: OpRow, s: Secrets, v: View, claim: Claim)
    requires SaveOk(a, o, s, v) && o.finished.None? && s.claim.None? && a.s.claim.None? && s.session.Some?
    requires a.lock.worker
    requires Terminal(a.broker, claim) && (s.broker.None? ==> s.endReason != NoReason)
    requires s.refillId.Some? ==> s.refill.Some?
    requires EvidenceSought(a, s.(claim := Some(claim)))
    ensures SaveOk(a, o.(state := AccountingPending), s.(claim := Some(claim)), v)
    ensures o.state != Active || (a.op.state == Active && RefillStays(a, s)) ==>
              SaveOk(a, o, s.(claim := Some(claim)), v)
  {
  }

  lemma OpenFailedClaimSave(a: Snap, o: OpRow, s: Secrets, v: View, claim: Claim)
    requires SaveOk(a, o, s, v) && o.finished.None? && s == a.s && s.claim.None? && s.broker.None? && s.session.Some?
    requires Terminal(a.broker, claim) && a.lock.worker && Inv(a) && o.state != Active
    ensures SaveOk(a, o, s.(claim := Some(claim), endReason := OpenFailed), v)
  {
  }

  lemma OpenFailedSave(a: Snap, o: OpRow, s: Secrets, v: View)
    requires SaveOk(a, o, s, v) && Inv(a) && o.finished.None? && s.broker.None? && s.endReason == NoReason
    requires o.state != Active
    requires a.lock.worker && s.session.Some?
    ensures SaveOk(a, o, s.(endReason := OpenFailed), v) && a.s.claim.None?
  {
    hide Inv;
  }

  /** A saved claim never leaves a refill without its revision. */
  lemma ClaimFacts(a: Snap, o: OpRow, s: Secrets, v: View)
    requires SaveOk(a, o, s, v) && s.claim.Some?
    ensures s.refillId.Some? ==> s.refill.Some?
    ensures s.broker.None? ==> s.endReason != NoReason
    ensures a.s.claim.Some? ==> a.s.claim == s.claim
    ensures a.s.claim.None? ==> Terminal(a.broker, s.claim.value)
    ensures s.session.Some?
  {
    hide KeepsRefill;
  }

  /** Once media has ended the operation is not active. */
  lemma MediaFacts(a: Snap, o: OpRow, s: Secrets, v: View)
    requires SaveOk(a, o, s, v)
    ensures v.mediaEnded.Some? ==> o.state != Active
    ensures s.refillRefused ==> a.s.refillRefused || s.refill.Some?
  {
  }

  lemma SyncedFacts(a: Snap, s: Secrets)
    requires s == a.s
    ensures RefillStays(a, s) && KeySame(a, s)
  {
  }

  lemma PendingFacts(a: Snap, o: OpRow, s: Secrets, v: View)
    requires SaveOk(a, o, s, v) && s == a.s.(endReason := s.endReason)
    ensures RefillStays(a, s)
  {
    hide KeepsBroker, KeepsRefill, KeepsKey, KeepsState, KeepsOutcome, FinishOk;
  }

  lemma TerminalUnits(s: Secrets, v: View)
    ensures forall units :: v == TerminalView(s, v, units) ==> v.units == Some(units)
  {
  }

  lemma UnfinishedSave(a: Snap, o: OpRow, s: Secrets, v: View)
    requires SaveOk(a, o, s, v) && a.lock.worker && o.state != Canceled
    ensures SaveOk(a, o.(finished := None), s, v)
  {
  }

  lemma MintSave(a: Snap, o: OpRow, s: Secrets, v: View, id: Id)
    requires SaveOk(a, o, s, v) && o.finished.None? && s == a.s && Inv(a)
    requires NoRefill(s) && !RefillSeen(a.loc.refillAsked, id) && s.session.Some? && s.session.value.extensible
    requires s.cap < a.cfg.limit && s.endReason == NoReason && s.broker.Some? && s.claim.None? && s.upstream.Some?
    requires a.course.polled.Some? && NeedsTopUp(a.course.polled.value)
    ensures SaveOk(a, o, s.(refillCap := Min(a.cfg.limit, s.cap + a.cfg.fund), refillId := Some(id)), v)
  {
    hide Inv;
  }

  lemma RevisionSave(a: Snap, o: OpRow, s: Secrets, v: View, r: Revision)
    requires SaveOk(a, o, s, v) && o.finished.None? && s == a.s.(endReason := s.endReason) && Inv(a)
    requires s.refillId.Some? && s.refill.None? && Issued(a.loc.issued, s.refillId.value, r.work, s.refillCap)
    ensures SaveOk(a, o, s.(refill := Some(r)), v)
  {
    hide Inv;
  }

  function Cleared(s: Secrets): Secrets {
    s.(refillId := None, refill := None, refillCap := 0)
  }

  lemma DropSave(a: Snap, o: OpRow, s: Secrets, v: View)
    requires SaveOk(a, o, s, v) && o.finished.None? && s == a.s.(endReason := s.endReason) && Inv(a)
    requires s.refillId.Some? && s.refill.None? && s.refillId.value in a.loc.declined && a.s.claim.None?
    requires o.state == Active ==> a.op.state == Active
    ensures SaveOk(a, o, Cleared(s).(endReason := RefillRefusal), v)
  {
  }

  lemma TopUpRefusedSave(a: Snap, o: OpRow, s: Secrets, v: View)
    requires SaveOk(a, o, s, v) && o.finished.None? && s == a.s.(endReason := s.endReason) && Inv(a)
    requires s.refill.Some? && s.refill.value.work in a.broker.refusedTopUps && a.s.claim.None?
    requires o.state == Active ==> a.op.state == Active
    ensures SaveOk(a, o, s.(refillRefused := true, endReason := GatewayClose), v.(failure := RefillRefusedCode))
  {
  }

  function AdoptedSecrets(s: Secrets): Secrets
    requires s.refill.Some? && s.session.Some? && s.broker.Some?
  {
    var work := s.refill.value.work;
    Cleared(s.(session := Some(s.session.value.(work := work)), broker := Some(s.broker.value.(work := work)),
               cap := s.refillCap))
  }

  lemma AdoptSave(a: Snap, o: OpRow, s: Secrets, v: View)
    requires SaveOk(a, o, s, v) && o.finished.None? && s == a.s.(endReason := s.endReason) && Inv(a)
    requires s.refill.Some? && s.session.Some? && s.broker.Some? && IsActive(a.broker, s.refill.value.work)
    requires s.claim.None?
    ensures SaveOk(a, o, AdoptedSecrets(s), v)
  {
    var s' := AdoptedSecrets(s);
    assert RefillAdopted(a, s') by { assert a.s.refillId.Some?; }
    assert KeepsPreparation(a, s') && KeepsSession(a, s') && KeepsBroker(a, s') && KeepsClaim(a, s') && KeepsKey(a, s');
  }

  /** Saving the adoption gives the pass an adoption to count. */
  lemma AdoptionCounts(a: Snap, o: OpRow, s: Secrets, v: View)
    requires s.refill.Some? && s.session.Some? && s.broker.Some? && s == a.s.(endReason := s.endReason)
    requires SaveOk(a, o, AdoptedSecrets(s), v)
    ensures ApplySave(a, o, AdoptedSecrets(s), v).course.counts.Some?
  {
    hide KeepsBroker, KeepsRefill, KeepsClaim, KeepsKey, KeepsOutcome, FinishOk;
  }

  lemma SettledSave(a: Snap, o: OpRow, s: Secrets, v: View)
    requires SaveOk(a, o.(finished := None), s, v) && s.session.Some? && a.s.session.Some? && a.loc.closed.Some?
    requires o.state == LocSettled || o.state == BrokerSettled
    requires o.state == BrokerSettled ==>
               a.loc.closeAsked && s.claim.Some? && s.claim.value.units == a.loc.closed.value.units
    requires o.finished == Some(a.loc.closed.value.at)
    requires a.res == Reservation(Committed(Some(a.loc.closed.value.units)), Some(a.loc.closed.value.billed))
    requires v == TerminalView(s, v, a.loc.closed.value.units)
    requires Shown(a, Projection(o, v))
    ensures SaveOk(a, o, s, v)
  {
    hide KeepsRefill;
  }

  lemma ActiveSave(a: Snap, o: OpRow, s: Secrets, v: View, view: View)
    requires SaveOk(a, o, s, v) && o.finished.None? && s == a.s && v.mediaEnded.None? && view.mediaEnded.None?
    requires a.lock.worker && !a.lock.hadKey && a.course.keys == Usable && s.endReason == NoReason && s.claim.None?
    requires s.upstream.Some? && view.units == v.units
    ensures SaveOk(a, o.(state := Active), s, view)
  {
    hide KeepsRefill;
  }

  lemma KeyMintSave(a: Snap, o: OpRow, s: Secrets, v: View, key: KeyId)
    requires SaveOk(a, o, s, v) && o.finished.None? && s == a.s && v == a.v && s.keyRequest.None? && s.broker.Some?
    requires key !in a.runner.asked && (a.lock.worker ==> s.endReason == NoReason)
    requires key == FirstKey <==> s.upstream.None? && s.keyExpires == 0
    requires s.broker.Some? ==> s.broker.value.urlsValid
    requires a.course.checked && (a.course.keys == Untried || a.course.keys == Expired(1))
    ensures SaveOk(a, o, s.(keyRequest := Some(key)), v)
  {
  }

  lemma KeyRecordSave(a: Snap, o: OpRow, s: Secrets, v: View)
    requires SaveOk(a, o, s, v) && o.finished.None? && s == a.s && v == a.v && s.keyRequest.Some?
    requires s.keyRequest.value in a.runner.keys
    requires a.course.checked && (a.course.keys == Untried || a.course.keys == Expired(1))
    ensures var k := a.runner.keys[s.keyRequest.value];
            SaveOk(a, o, s.(upstream := Some(k.url), keyExpires := k.expires, keyRequest := None), v)
  {
    hide SettledByLoc;
  }

  lemma GrantExpirySave(a: Snap, o: OpRow, s: Secrets, v: View)
    requires SaveOk(a, o, s, v) && o.finished.None? && s == a.s && v == a.v && v.mediaEnded.None?
    requires a.s.broker.Some? && Inv(a) && (a.lock.worker ==> a.s.claim.None?)
    requires !a.lock.worker ==> a.op.state == Active && !a.lock.sawStop && !a.course.checked && !KeyUsable(a.s, a.clock)
    requires GrantExpired(a.s, a.clock)
    ensures var (s', v') := ExpireGrant(s, v); SaveOk(a, o.(state := Ending), s', v')
  {
    hide Inv;
  }

  // ---------- facts a pass reads off the invariant ----------

  lemma KeyFacts(a: Snap)
    requires Inv(a)
    ensures a.s.upstream.None? && a.s.keyRequest.None? ==> FirstKey !in a.runner.asked
  {
  }

  lemma RefusedPreparation(a: Snap)
    requires Inv(a) && a.s.prep.None?
    ensures !a.loc.authorized.Granted?
    ensures a.loc.prepared.Refused? ==> LocRefused(a.loc)
  {
  }

  lemma JournalFacts(a: Snap)
    requires Inv(a)
    ensures a.s.prep.Some? ==> a.op.attempts >= 1 && a.s.body == a.s.prep
    ensures a.s.session.Some? ==> a.s.prep.Some? && a.loc.authorized.Granted?
    ensures a.s.session.None? ==>
              a.s.claim.None? && a.s.broker.None? && NoRefill(a.s) && !a.s.dispatched && a.s.endReason == NoReason
    ensures a.s.broker.Some? ==> a.s.session.Some? && a.s.dispatched
    ensures a.s.broker.Some? ==> a.broker.admission.Admitted? && a.s.broker.value.session == a.broker.admission.session
    ensures a.s.claim.Some? ==> a.s.session.Some? && Terminal(a.broker, a.s.claim.value) && a.s.claim.value.units >= 0
    ensures a.s.claim.Some? && a.s.broker.None? ==> a.s.endReason != NoReason
    ensures a.s.refillId.Some? ==> a.s.broker.Some? && a.s.session.Some? && a.s.upstream.Some?
    ensures a.s.refill.Some? ==> a.s.refillId.Some?
    ensures a.s.refillId.None? ==> NoRefill(a.s)
    ensures a.s.refillRefused ==> a.s.endReason != NoReason && a.s.refill.Some?
    ensures a.op.state == IssuanceRefused ==> LocRefused(a.loc)
    ensures a.lock.held && a.lock.sawStop ==> a.op.stop
    ensures a.s.upstream.None? || a.s.broker.None? ==> a.op.state != Active
    ensures a.v.mediaEnded.Some? ==> a.op.state != Active
    ensures a.v.mediaEnded.Some? && a.op.finished.None? ==> a.s.claim.Some? || a.s.endReason != NoReason
    ensures a.lock.held && a.s.upstream.None? ==> !a.lock.hadKey
    ensures a.s.upstream.None? ==> a.course.keys == Untried
    ensures a.broker.admission.Admitted? ==> OpenSent(a.broker)
    ensures a.loc.closed.Some? ==> a.loc.authorized.Granted?
    ensures OpenSent(a.broker) ==> a.s.dispatched
  {
  }

  /** A request for authorization goes out only when LOC prepared it. */
  lemma PreparedFacts(a: Snap)
    requires Inv(a) && a.s.prep.Some?
    ensures LocRefused(a.loc) ==> a.loc.authorized.Refused?
  {
  }

  /** What a reservation update leaves behind. */
  lemma ReservationFacts(a: Snap)
    requires Inv(a)
    ensures LocRefused(a.loc) || a.s.prep.None? ==> !a.res.state.Committed?
    ensures a.loc.closed.Some? ==> !a.res.state.Refunded?
    ensures a.res.state.Committed? ==> a.loc.closed.Some? && a.res.state.units == Some(a.loc.closed.value.units)
  {
  }

  // ---------- what the pass learns ----------

  lemma HearSave(a: Snap, o: OpRow, s: Secrets, v: View)
    requires SaveOk(a, o, s, v) && o.finished.None? && LockEnabled(a, HearRefusal)
    ensures SaveOk(ApplyLock(a, HearRefusal), o, s, v)
  {
    hide SettledByLoc, TerminalView;
  }

  lemma CheckSave(a: Snap, o: OpRow, s: Secrets, v: View)
    requires SaveOk(a, o, s, v) && s == a.s && v == a.v && LockEnabled(a, CheckKey)
    ensures SaveOk(ApplyLock(a, CheckKey), o, s, v)
  {
  }

  lemma HearStatusSave(a: Snap, o: OpRow, s: Secrets, v: View, st: BrokerStatus)
    requires SaveOk(a, o, s, v) && s == a.s && o.finished.None? && LockEnabled(a, HearStatus(st))
    ensures SaveOk(ApplyLock(a, HearStatus(st)), o, s, v)
  {
    hide TerminalView, SettledByLoc;
  }

  lemma JudgeSave(a: Snap, o: OpRow, s: Secrets, v: View)
    requires SaveOk(a, o, s, v) && s == a.s && o.state == a.op.state && LockEnabled(a, JudgeKey)
    ensures SaveOk(ApplyLock(a, JudgeKey), o, s, v)
  {
    hide TerminalView;
  }

  /** A pass that has returned still writes what it holds. */
  lemma QuitSave(a: Snap, o: OpRow, s: Secrets, v: View)
    requires SaveOk(a, o, s, v) && LockEnabled(a, Quit)
    ensures SaveOk(ApplyLock(a, Quit), o, s, v)
  {
    hide Inv;
  }

  /** A refusal counts on the first attempt, or when one was recorded. */
  lemma RefusalFacts(a: Snap, o: OpRow, s: Secrets, v: View)
    requires Inv(a) && SaveOk(a, o, s, v) && a.lock.worker && (o.attempts == 1 || o.state == IssuanceRefused)
    ensures a.course.mayRefuse
  {
  }
}
