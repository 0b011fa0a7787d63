/**
 * Idempotent submission: `SubmitABR`, `SubmitLive` and the journal tables they share. `Others` lets any number of
 * concurrent submissions commit between two steps of one.
 */
module Submission {
  import opened Basics

  datatype Kind = Live | Abr

  /** What of a journaled operation never changes. */
  datatype Operation = Operation(id: Id, tenant: Id, kind: Kind, key: Id, hash: Id, reservation: Id, stream: Option<Id>)

  /** An idempotency slot: the unique index of the table. */
  datatype Slot = Slot(tenant: Id, kind: Kind, key: Id)

  function SlotOf(o: Operation): Slot {
    Slot(o.tenant, o.kind, o.key)
  }

  datatype Reply = Accepted(id: Id) | Conflict | PaymentRequired | Failed

  datatype Prior = Found(o: Operation) | Absent | OtherHash | ReadError

  predicate InSlot(ops: map<Id, Operation>, slot: Slot, id: Id) {
    id in ops && SlotOf(ops[id]) == slot
  }

  predicate SlotUsed(ops: map<Id, Operation>, slot: Slot) {
    exists id :: id in ops && SlotOf(ops[id]) == slot
  }

  lemma UsedIsIn(ops: map<Id, Operation>, slot: Slot)
    ensures SlotUsed(ops, slot) <==> exists id :: InSlot(ops, slot, id)
  {
    if id :| InSlot(ops, slot, id) {
      assert id in ops && SlotOf(ops[id]) == slot;
    }
    if id :| id in ops && SlotOf(ops[id]) == slot {
      assert InSlot(ops, slot, id);
    }
  }

  lemma UsedStays(a: map<Id, Operation>, b: map<Id, Operation>, slot: Slot)
    requires Grows(a, b) && SlotUsed(a, slot)
    ensures SlotUsed(b, slot)
  {
    var id :| id in a && SlotOf(a[id]) == slot;
    assert id in b && SlotOf(b[id]) == slot;
  }

  /** At most one operation commits in a slot. */
  predicate Unique(ops: map<Id, Operation>) {
    forall a, b :: a in ops && b in ops && SlotOf(ops[a]) == SlotOf(ops[b]) ==> a == b
  }

  /** Operations and the reservations created for them name each other. */
  predicate Paired(ops: map<Id, Operation>, reservations: map<Id, Id>) {
    && (forall id :: id in ops ==>
        ops[id].id == id && ops[id].reservation in reservations && reservations[ops[id].reservation] == id)
    && (forall r :: r in reservations ==> reservations[r] in ops && ops[reservations[r]].reservation == r)
  }

  /** Committed operations stay as they are. */
  predicate Grows(a: map<Id, Operation>, b: map<Id, Operation>) {
    forall id :: id in a ==> id in b && b[id] == a[id]
  }

  /** What a reply to a submission says about the journal. */
  ghost predicate Answered(ops: map<Id, Operation>, slot: Slot, hash: Id, r: Reply) {
    && (r.Accepted? ==> InSlot(ops, slot, r.id) && ops[r.id].hash == hash)
    && (r.Conflict? ==> exists id :: InSlot(ops, slot, id) && ops[id].hash != hash)
  }

  /** Whenever they were answered, submissions in one slot with one hash get one id, and any other hash a conflict. */
  lemma AnswersAgree(earlier: map<Id, Operation>, later: map<Id, Operation>, slot: Slot, hash: Id, other: Id, r: Reply,
                     s: Reply)
    requires Grows(earlier, later) && Unique(later)
    requires Answered(earlier, slot, hash, r) && Answered(later, slot, other, s)
    ensures r.Accepted? && s.Accepted? ==> r == s && hash == other
    ensures (r.Accepted? && s.Conflict?) || (r.Conflict? && s.Accepted?) ==> hash != other
  {
    if r.Conflict? {
      var id :| InSlot(earlier, slot, id) && earlier[id].hash != hash;
      assert InSlot(later, slot, id);
    }
    if s.Conflict? {
      var id :| InSlot(later, slot, id) && later[id].hash != other;
    }
  }

  /** Every reservation is that of exactly one operation, so there are as many of the one as of the other. */
  lemma {:induction false} OneReservationEach(ops: map<Id, Operation>, reservations: map<Id, Id>)
    requires Paired(ops, reservations)
    ensures forall r :: r in reservations ==> reservations[r] in ops
    ensures forall r, id :: r in reservations && id in ops ==> (ops[id].reservation == r <==> id == reservations[r])
    ensures |ops| == |reservations|
    decreases |ops|
  {
    if |ops| == 0 {
      assert reservations.Values <= ops.Keys;
      assert reservations.Keys == {};
    } else {
      var id :| id in ops;
      var r := ops[id].reservation;
      var fewer := map k | k in ops && k != id :: ops[k];
      var rest := map k | k in reservations && k != r :: reservations[k];
      assert fewer.Keys == ops.Keys - {id} && rest.Keys == reservations.Keys - {r};
      OneReservationEach(fewer, rest);
      assert |fewer| == |ops| - 1 && |rest| == |reservations| - 1;
    }
  }

  /** `setbacks` counts reads and transactions that failed or went unconfirmed. */
  class Journal {
    var ops: map<Id, Operation>
    var reservations: map<Id, Id>
    var streams: map<Id, Id>
    ghost var setbacks: nat

    ghost predicate Valid()
      reads this`ops, this`reservations
    {
      Unique(ops) && Paired(ops, reservations)
    }

    constructor ()
      ensures Valid() && ops == map[]
    {
      ops, reservations, streams := map[], map[], map[];
      setbacks := 0;
    }

    /** Whether a read or a transaction succeeds. */
    method Works() returns (ok: bool)
      modifies this`setbacks
      ensures setbacks == if ok then old(setbacks) else old(setbacks) + 1
    {
      ok := *;
      if !ok {
        setbacks := setbacks + 1;
      }
    }

    /** The operation already in a slot, or a read error. */
    method FindRequest(slot: Slot) returns (r: Option<Operation>, ok: bool)
      requires Valid()
      modifies this`setbacks
      ensures old(setbacks) <= setbacks && (ok || old(setbacks) < setbacks)
      ensures ok && r.Some? ==> InSlot(ops, slot, r.value.id) && ops[r.value.id] == r.value
      ensures ok && r.None? ==> forall id :: !InSlot(ops, slot, id)
    {
      ok := Works();
      r := None;
      if ok && exists id :: id in ops && SlotOf(ops[id]) == slot {
        var id :| id in ops && SlotOf(ops[id]) == slot;
        r := Some(ops[id]);
      }
    }

    /**
     * One transaction: reservation, stream, operation. A conflict rolls every row back; an error after the commit was
     * sent leaves open whether it happened.
     */
    method CreateIntent(o: Operation) returns (ok: bool)
      requires Valid()
      modifies this
      ensures Valid()
      ensures ok ==> ops == old(ops)[o.id := o]
      ensures (ops == old(ops) && reservations == old(reservations) && streams == old(streams))
              || (o.id !in old(ops) && ops == old(ops)[o.id := o]
                  && reservations == old(reservations)[o.reservation := o.id]
                  && forall id :: !InSlot(old(ops), SlotOf(o), id))
      ensures (exists id :: InSlot(old(ops), SlotOf(o), id)) ==> !ok
      ensures Grows(old(ops), ops)
      ensures old(setbacks) <= setbacks
      ensures streams == (if ops != old(ops) && o.stream.Some? then old(streams)[o.stream.value := o.id]
                          else old(streams))
      ensures o.stream.Some? && o.stream.value in old(streams) ==> !ok && ops == old(ops)
      ensures ok || old(setbacks) < setbacks || o.id in old(ops) || o.reservation in old(reservations)
              || (o.stream.Some? && o.stream.value in old(streams)) || SlotUsed(old(ops), SlotOf(o))
    {
      if o.reservation in reservations {
        return false;
      }
      if o.stream.Some? && o.stream.value in streams {
        return false;
      }
      UsedIsIn(ops, SlotOf(o));
      if o.id in ops || SlotUsed(ops, SlotOf(o)) {
        return false;
      }
      var commits := Works();
      if !commits {
        return false;
      }
      reservations := reservations[o.reservation := o.id];
      if o.stream.Some? {
        streams := streams[o.stream.value := o.id];
      }
      ops := ops[o.id := o];
      ok := Works();
    }

    /** Any number of other submissions. */
    method Others()
      requires Valid()
      modifies this
      ensures Valid() && Grows(old(ops), ops) && old(setbacks) <= setbacks
    {
      var steps: nat := *;
      while steps > 0
        invariant Valid() && Grows(old(ops), ops) && old(setbacks) <= setbacks
      {
        var o: Operation := *;
        var ok := CreateIntent(o);
        steps := steps - 1;
      }
    }

    /** The operation an idempotency key already names, if its request is the same. */
    method Existing(slot: Slot, hash: Id) returns (prior: Prior)
      requires Valid()
      modifies this`setbacks
      ensures old(setbacks) <= setbacks && (prior.ReadError? ==> old(setbacks) < setbacks)
      ensures prior.Found? ==> InSlot(ops, slot, prior.o.id) && ops[prior.o.id] == prior.o && prior.o.hash == hash
      ensures prior.OtherHash? ==> exists id :: InSlot(ops, slot, id) && ops[id].hash != hash
      ensures prior.Absent? ==> forall id :: !InSlot(ops, slot, id)
    {
      var o, ok := FindRequest(slot);
      if !ok {
        return ReadError;
      }
      if !o.Some? {
        return Absent;
      }
      if o.value.hash != hash {
        assert InSlot(ops, slot, o.value.id);
        return OtherHash;
      }
      return Found(o.value);
    }

    /** The view of an operation, for its own tenant and kind only. */
    method View(id: Id, tenant: Id, kind: Kind) returns (r: Reply)
      modifies this`setbacks
      ensures r.Accepted? ==> r.id == id && id in ops && ops[id].tenant == tenant && ops[id].kind == kind
      ensures r.Accepted? || r == Failed
      ensures old(setbacks) <= setbacks
      ensures id in ops && ops[id].tenant == tenant && ops[id].kind == kind ==> r.Accepted? || old(setbacks) < setbacks
    {
      var readable := Works();
      if !readable || id !in ops || ops[id].tenant != tenant || ops[id].kind != kind {
        return Failed;
      }
      return Accepted(id);
    }

    /** An absent idempotency key is replaced by a fresh one. */
    method RequestKey(key: Option<Id>) returns (used: Id)
      ensures key.Some? ==> used == key.value
    {
      used := *;
      if key.Some? {
        used := key.value;
      }
    }

    /**
     * A submission. A key already used by the same request gets that operation and creates nothing; used by another
     * request, a conflict; otherwise one operation is created, unless a concurrent submission created it first. It
     * fails only if the request is malformed, what it needs is not offered, or a read or a transaction failed.
     */
    method Submit(tenant: Id, kind: Kind, key: Option<Id>, hash: Id, wellFormed: bool, offered: bool,
                  credit: bool) returns (r: Reply, slot: Slot)
      requires Valid()
      modifies this
      ensures Valid() && Grows(old(ops), ops)
      ensures slot.tenant == tenant && slot.kind == kind && (key.Some? ==> slot.key == key.value)
      ensures Answered(ops, slot, hash, r)
      ensures forall id :: InSlot(old(ops), slot, id) ==>
                if old(ops)[id].hash == hash then r == Accepted(id) || r == Failed else r == Conflict || r == Failed
      ensures r == Failed ==> !wellFormed || old(setbacks) < setbacks || (!offered && !SlotUsed(old(ops), slot))
      ensures r == PaymentRequired ==> kind.Live? && !credit && !SlotUsed(old(ops), slot)
      ensures !wellFormed ==> r == Failed && ops == old(ops)
    {
      var used := RequestKey(key);
      slot := Slot(tenant, kind, used);
      if !wellFormed {
        return Failed, slot;
      }
      Others();
      var prior := Existing(slot, hash);
      if prior.Found? {
        Others();
        r := View(prior.o.id, tenant, kind);
        return r, slot;
      }
      if prior.OtherHash? {
        return Conflict, slot;
      }
      UsedIsIn(ops, slot);
      if prior.ReadError? || !offered {
        if SlotUsed(old(ops), slot) {
          UsedStays(old(ops), ops, slot);
        }
        return Failed, slot;
      }
      Others();
      r := Create(slot, hash, credit, prior, offered);
    }

    /** `uuid.New`: an id no operation and no stream has. */
    method NewId() returns (id: Id)
      ensures id !in ops && id !in streams
    {
      ghost var used := ops.Keys + streams.Keys;
      UnusedId(used);
      ghost var unused: Id :| unused !in used;
      assert unused !in ops && unused !in streams;
      id :| id !in ops && id !in streams;
    }

    method NewReservation() returns (id: Id)
      ensures id !in reservations
    {
      UnusedId(reservations.Keys);
      ghost var unused: Id :| unused !in reservations.Keys;
      assert unused !in reservations;
      id :| id !in reservations;
    }

    /** The creating transaction failed: the answer is that of the operation now in the slot, if there is one. */
    method AfterConflict(slot: Slot, hash: Id, ghost n: nat) returns (r: Reply)
      requires Valid() && n <= setbacks && (n < setbacks || SlotUsed(ops, slot))
      modifies this
      ensures Valid() && Grows(old(ops), ops) && Answered(ops, slot, hash, r)
      ensures forall id :: InSlot(old(ops), slot, id) ==>
                if old(ops)[id].hash == hash then r == Accepted(id) || r == Failed else r == Conflict || r == Failed
      ensures old(setbacks) <= setbacks && (r == Failed ==> n < setbacks) && r != PaymentRequired
    {
      Others();
      if SlotUsed(old(ops), slot) {
        UsedStays(old(ops), ops, slot);
        UsedIsIn(ops, slot);
      }
      var prior := Existing(slot, hash);
      if prior.Found? {
        Others();
        r := View(prior.o.id, slot.tenant, slot.kind);
        return;
      }
      return if prior.OtherHash? then Conflict else Failed;
    }

    /**
     * The second half of a submission, when nothing was found and everything is offered: create, or find what a
     * concurrent submission created.
     */
    method Create(slot: Slot, hash: Id, credit: bool, ghost prior: Prior, ghost offered: bool) returns (r: Reply)
      requires Valid() && prior.Absent? && offered
      modifies this
      ensures Valid() && Grows(old(ops), ops) && Answered(ops, slot, hash, r)
      ensures forall id :: InSlot(old(ops), slot, id) ==>
                if old(ops)[id].hash == hash then r == Accepted(id) || r == Failed else r == Conflict || r == Failed
      ensures old(setbacks) <= setbacks && (r == Failed ==> old(setbacks) < setbacks)
      ensures r == PaymentRequired ==> slot.kind.Live? && !credit && !SlotUsed(old(ops), slot)
    {
      hide Unique, Paired;
      UsedIsIn(ops, slot);
      var id := NewId();
      var reservation := NewReservation();
      var o := Operation(id, slot.tenant, slot.kind, slot.key, hash, reservation,
                         if slot.kind.Live? then Some(id) else None);
      var ok := CreateIntent(o);
      if !ok {
        r := AfterConflict(slot, hash, old(setbacks));
        return;
      }
      assert o.id in ops && SlotOf(o) == slot;
      assert forall other :: !InSlot(old(ops), slot, other);
      r := Created(slot, id, credit);
    }

    /** The answer for an operation just created: a live one that LOC refuses for lack of credit must be paid for. */
    method Created(slot: Slot, id: Id, credit: bool) returns (r: Reply)
      requires Valid() && InSlot(ops, slot, id)
      modifies this
      ensures Valid() && Grows(old(ops), ops) && old(setbacks) <= setbacks
      ensures if slot.kind.Live? && !credit then r == PaymentRequired
              else r == Accepted(id) || (r == Failed && old(setbacks) < setbacks)
    {
      Others();
      if slot.kind.Live? && !credit {
        return PaymentRequired;
      }
      r := View(id, slot.tenant, slot.kind);
    }
  }

  // ---------- the authorization limit ----------

  const MAX_INT64: int := 0x7fff_ffff_ffff_ffff

  /** `min(headroom, ceiling - estimated)` on top of the estimate, in 64-bit arithmetic; no step overflows. */
  method AbrAuthorizationLimit(estimated: int, requested: int, ceiling: int) returns (limit: Option<int>)
    requires 1 <= estimated <= MAX_INT64 && -MAX_INT64 - 1 <= requested <= MAX_INT64
    requires -MAX_INT64 - 1 <= ceiling <= MAX_INT64
    ensures limit.Some? <==> estimated <= ceiling && (requested == 0 || estimated <= requested <= ceiling)
    ensures limit.Some? ==> estimated <= limit.value <= ceiling <= MAX_INT64
    ensures limit.Some? && requested > 0 ==> limit.value == requested
    ensures limit.Some? && requested == 0 && limit.value < ceiling ==>
              4 * (limit.value - 1) < 5 * estimated <= 4 * limit.value
    ensures limit.Some? && requested == 0 && limit.value == ceiling ==> 4 * (ceiling - 1) < 5 * estimated
  {
    if estimated > ceiling {
      return None;
    }
    if requested < 0 || requested > ceiling || (requested > 0 && requested < estimated) {
      return None;
    }
    if requested > 0 {
      return Some(requested);
    }
    var headroom := estimated / 4;
    if estimated % 4 != 0 {
      headroom := headroom + 1;
    }
    assert 0 <= headroom <= MAX_INT64 && 0 <= ceiling - estimated <= MAX_INT64;
    return Some(estimated + Min(headroom, ceiling - estimated));
  }
}
