/**
 * Slots, pool connections, advisory locks and journal rows under any interleaving of control passes, key renewals, stop
 * requests and lost connections. An actor is a goroutine that runs `Process` or `UpstreamURL`, one operation at a time.
 */
module JournalLocks {
  import opened Basics

  const SLOTS: nat := 8
  const MIN_POOL: nat := 12
  const ABR_WORKERS: nat := 2

  datatype Kind = Live | Abr

  /** A journal row; `body` is everything the engine writes but the finish and never the stop flag. */
  datatype Row = Row(stop: bool, finished: bool, body: Id)

  predicate SameButStop(a: Row, b: Row) {
    a.finished == b.finished && a.body == b.body
  }

  /** A second connection for a projection, asked of the pool while the first is pinned by the lock. */
  datatype Borrow = NoBorrow | Asking | Borrowed

  datatype Phase =
    | Idle
    | Waiting
    | Connected
    | Locked(alive: bool, base: Option<Row>, borrow: Borrow)
    | Leaving

  datatype Actor = Actor(kind: Kind, op: Id, phase: Phase)

  /** A save: the row it was computed from and the row it wrote. */
  datatype Write = Write(base: Row, wrote: Row)

  /** `others` counts short-lived connections of everything else; `writes` is the history of saves. */
  datatype State = State(actors: seq<Actor>, rows: map<Id, Row>, pool: nat, others: nat, writes: map<Id, seq<Write>>)

  datatype Action =
    | TakeSlot(i: nat, op: Id)
    | Connect(i: nat)
    | TryLock(i: nat, retry: bool)
    | Read(i: nat)
    | Save(i: nat, finished: bool, body: Id)
    | AskPool(i: nat)
    | Lend(i: nat)
    | Return(i: nat)
    | LoseConnection(i: nat)
    | Unlock(i: nat)
    | Leave(i: nat)
    | RequestStop(op: Id)
    | OthersTake
    | OthersReturn

  // ---------- counting ----------

  function Weight(f: Actor -> nat, actors: seq<Actor>): nat {
    if actors == [] then 0 else f(actors[0]) + Weight(f, actors[1..])
  }

  function InSlot(a: Actor): nat { if a.phase.Idle? then 0 else 1 }
  function Pinned(a: Actor): nat { if a.phase.Connected? || a.phase.Locked? then 1 else 0 }
  function Lent(a: Actor): nat { if a.phase.Locked? && a.phase.borrow.Borrowed? then 1 else 0 }
  function AbrActor(a: Actor): nat { if a.kind.Abr? then 1 else 0 }
  function AbrInSlot(a: Actor): nat { if a.kind.Abr? then InSlot(a) else 0 }

  function Used(st: State): nat {
    Weight(Pinned, st.actors) + Weight(Lent, st.actors) + st.others
  }

  lemma {:induction false} WeightUpdate(f: Actor -> nat, actors: seq<Actor>, i: nat, a: Actor)
    requires i < |actors|
    ensures Weight(f, actors[i := a]) == Weight(f, actors) - f(actors[i]) + f(a)
  {
    if i > 0 {
      assert actors[i := a][1..] == actors[1..][i - 1 := a];
      WeightUpdate(f, actors[1..], i - 1, a);
    } else {
      assert actors[0 := a][1..] == actors[1..];
    }
  }

  lemma {:induction false} WeightAtMost(f: Actor -> nat, g: Actor -> nat, actors: seq<Actor>)
    requires forall a :: f(a) <= g(a)
    ensures Weight(f, actors) <= Weight(g, actors)
  {
    if actors != [] {
      WeightAtMost(f, g, actors[1..]);
    }
  }

  lemma {:induction false} SomeWeight(f: Actor -> nat, actors: seq<Actor>) returns (i: nat)
    requires Weight(f, actors) > 0
    ensures i < |actors| && f(actors[i]) > 0
  {
    if f(actors[0]) > 0 {
      i := 0;
    } else {
      i := SomeWeight(f, actors[1..]);
      i := i + 1;
    }
  }

  // ---------- steps ----------

  predicate Holds(a: Actor, op: Id) {
    a.op == op && a.phase.Locked? && a.phase.alive
  }

  /** The database grants the lock to one live connection. */
  predicate LockTaken(actors: seq<Actor>, op: Id) {
    exists j :: 0 <= j < |actors| && Holds(actors[j], op)
  }

  predicate Enabled(st: State, act: Action) {
    match act
    case TakeSlot(i, op) => i < |st.actors| && st.actors[i].phase.Idle? && Weight(InSlot, st.actors) < SLOTS
    case Connect(i) => i < |st.actors| && st.actors[i].phase.Waiting? && Used(st) < st.pool
    case TryLock(i, _) => i < |st.actors| && st.actors[i].phase.Connected?
    case Read(i) => i < |st.actors| && st.actors[i].phase.Locked? && st.actors[i].phase.alive
        && st.actors[i].op in st.rows
    case Save(i, _, _) =>
      && i < |st.actors| && st.actors[i].phase.Locked? && st.actors[i].phase.alive
      && st.actors[i].phase.base.Some? && !st.actors[i].phase.base.value.finished && st.actors[i].op in st.rows
    case AskPool(i) => i < |st.actors| && st.actors[i].phase.Locked? && st.actors[i].phase.borrow.NoBorrow?
    case Lend(i) => i < |st.actors| && st.actors[i].phase.Locked? && st.actors[i].phase.borrow.Asking?
        && Used(st) < st.pool
    case Return(i) => i < |st.actors| && st.actors[i].phase.Locked? && st.actors[i].phase.borrow.Borrowed?
    case LoseConnection(i) => i < |st.actors| && st.actors[i].phase.Locked? && st.actors[i].phase.alive
    case Unlock(i) => i < |st.actors| && st.actors[i].phase.Locked? && st.actors[i].phase.borrow.NoBorrow?
    case Leave(i) => i < |st.actors| && st.actors[i].phase.Leaving?
    case RequestStop(op) => op in st.rows
    case OthersTake => Used(st) < st.pool
    case OthersReturn => st.others > 0
  }

  function Become(st: State, i: nat, phase: Phase): State
    requires i < |st.actors|
  {
    st.(actors := st.actors[i := st.actors[i].(phase := phase)])
  }

  function History(writes: map<Id, seq<Write>>, op: Id): seq<Write> {
    if op in writes then writes[op] else []
  }

  function Apply(st: State, act: Action): State
    requires Enabled(st, act)
  {
    match act
    case TakeSlot(i, op) => st.(actors := st.actors[i := Actor(st.actors[i].kind, op, Waiting)])
    case Connect(i) => Become(st, i, Connected)
    case TryLock(i, retry) =>
      Become(st, i, if !LockTaken(st.actors, st.actors[i].op) then Locked(true, None, NoBorrow)
                    else if retry then Waiting else Leaving)
    case Read(i) => Become(st, i, st.actors[i].phase.(base := Some(st.rows[st.actors[i].op])))
    case Save(i, finished, body) =>
      var op, phase := st.actors[i].op, st.actors[i].phase;
      var row := Row(st.rows[op].stop, finished, body);
      Become(st, i, phase.(base := Some(row)))
        .(rows := st.rows[op := row],
          writes := st.writes[op := History(st.writes, op) + [Write(phase.base.value, row)]])
    case AskPool(i) => Become(st, i, st.actors[i].phase.(borrow := Asking))
    case Lend(i) => Become(st, i, st.actors[i].phase.(borrow := Borrowed))
    case Return(i) => Become(st, i, st.actors[i].phase.(borrow := NoBorrow))
    case LoseConnection(i) => Become(st, i, st.actors[i].phase.(alive := false))
    case Unlock(i) => Become(st, i, Leaving)
    case Leave(i) => Become(st, i, Idle)
    case RequestStop(op) => if st.rows[op].finished then st else st.(rows := st.rows[op := st.rows[op].(stop := true)])
    case OthersTake => st.(others := st.others + 1)
    case OthersReturn => st.(others := st.others - 1)
  }

  /** A running gateway before any of its actors starts; each lane has two ABR workers, live actors are unbounded. */
  predicate Initial(st: State) {
    && (forall i :: 0 <= i < |st.actors| ==> st.actors[i].phase.Idle?)
    && Weight(AbrActor, st.actors) <= ABR_WORKERS
    && MIN_POOL <= st.pool && st.others <= st.pool && st.writes == map[]
  }

  // ---------- the invariant ----------

  ghost predicate Exclusive(actors: seq<Actor>) {
    forall i, j :: 0 <= i < j < |actors| && Holds(actors[i], actors[i].op) && Holds(actors[j], actors[j].op) ==>
      actors[i].op != actors[j].op
  }

  /** What a holder read is what the row still is. */
  ghost predicate Fresh(actors: seq<Actor>, rows: map<Id, Row>) {
    forall i :: 0 <= i < |actors| && Holds(actors[i], actors[i].op) && actors[i].phase.base.Some? ==>
      actors[i].op in rows && SameButStop(rows[actors[i].op], actors[i].phase.base.value)
  }

  /** Each save starts from what the save before it wrote, and the last one wrote the row. */
  ghost predicate Linear(rows: map<Id, Row>, writes: map<Id, seq<Write>>) {
    && (forall op, k :: op in writes && 0 < k < |writes[op]| ==>
        SameButStop(writes[op][k].base, writes[op][k - 1].wrote))
    && (forall op, k :: op in writes && 0 <= k < |writes[op]| ==> !writes[op][k].base.finished)
    && (forall op :: op in writes ==>
        op in rows && writes[op] != [] && SameButStop(rows[op], writes[op][|writes[op]| - 1].wrote))
  }

  ghost predicate Bounded(st: State) {
    && Weight(InSlot, st.actors) <= SLOTS
    && Weight(AbrActor, st.actors) <= ABR_WORKERS
    && Used(st) <= st.pool && MIN_POOL <= st.pool
  }

  ghost predicate Inv(st: State) {
    Exclusive(st.actors) && Fresh(st.actors, st.rows) && Linear(st.rows, st.writes) && Bounded(st)
  }

  lemma {:induction false} IdleWeighsNothing(actors: seq<Actor>)
    requires forall i :: 0 <= i < |actors| ==> actors[i].phase.Idle?
    ensures Weight(InSlot, actors) == Weight(Pinned, actors) == Weight(Lent, actors) == 0
  {
    if actors != [] {
      IdleWeighsNothing(actors[1..]);
    }
  }

  lemma InitialInv(st: State)
    requires Initial(st)
    ensures Inv(st)
  {
    IdleWeighsNothing(st.actors);
  }

  /** Changing one actor changes each count by that actor's part. */
  lemma CountsUpdate(actors: seq<Actor>, i: nat, a: Actor)
    requires i < |actors|
    ensures Weight(InSlot, actors[i := a]) == Weight(InSlot, actors) - InSlot(actors[i]) + InSlot(a)
    ensures Weight(Pinned, actors[i := a]) == Weight(Pinned, actors) - Pinned(actors[i]) + Pinned(a)
    ensures Weight(Lent, actors[i := a]) == Weight(Lent, actors) - Lent(actors[i]) + Lent(a)
    ensures Weight(AbrActor, actors[i := a]) == Weight(AbrActor, actors) - AbrActor(actors[i]) + AbrActor(a)
  {
    WeightUpdate(InSlot, actors, i, a);
    WeightUpdate(Pinned, actors, i, a);
    WeightUpdate(Lent, actors, i, a);
    WeightUpdate(AbrActor, actors, i, a);
  }

  predicate ByActor(act: Action) {
    !act.RequestStop? && !act.OthersTake? && !act.OthersReturn?
  }

  lemma BoundedStep(st: State, act: Action)
    requires Bounded(st) && Enabled(st, act)
    ensures Bounded(Apply(st, act))
  {
    if ByActor(act) {
      var next := Apply(st, act);
      CountsUpdate(st.actors, act.i, next.actors[act.i]);
    }
  }

  lemma ExclusiveStep(st: State, act: Action)
    requires Exclusive(st.actors) && Enabled(st, act)
    ensures Exclusive(Apply(st, act).actors)
  {
  }

  /** One more save at the end of an operation's history. */
  lemma LinearSave(rows: map<Id, Row>, writes: map<Id, seq<Write>>, op: Id, base: Row, row: Row)
    requires Linear(rows, writes) && op in rows && SameButStop(rows[op], base) && !base.finished
    ensures Linear(rows[op := row], writes[op := History(writes, op) + [Write(base, row)]])
  {
    var longer := History(writes, op) + [Write(base, row)];
    assert forall k :: 0 <= k < |longer| - 1 ==> longer[k] == History(writes, op)[k];
  }

  lemma FreshSave(actors: seq<Actor>, rows: map<Id, Row>, i: nat, row: Row)
    requires Exclusive(actors) && Fresh(actors, rows) && i < |actors| && Holds(actors[i], actors[i].op)
    ensures Fresh(actors[i := actors[i].(phase := actors[i].phase.(base := Some(row)))], rows[actors[i].op := row])
  {
    forall j | 0 <= j < |actors| && j != i && Holds(actors[j], actors[j].op) ensures actors[j].op != actors[i].op {}
  }

  lemma SaveStep(st: State, i: nat, finished: bool, body: Id)
    requires Exclusive(st.actors) && Fresh(st.actors, st.rows) && Linear(st.rows, st.writes)
    requires Enabled(st, Save(i, finished, body))
    ensures var b := Apply(st, Save(i, finished, body)); Fresh(b.actors, b.rows) && Linear(b.rows, b.writes)
  {
    var op, base := st.actors[i].op, st.actors[i].phase.base.value;
    var row := Row(st.rows[op].stop, finished, body);
    assert Holds(st.actors[i], op);
    FreshSave(st.actors, st.rows, i, row);
    LinearSave(st.rows, st.writes, op, base, row);
  }

  lemma OtherStep(st: State, act: Action)
    requires Exclusive(st.actors) && Fresh(st.actors, st.rows) && Linear(st.rows, st.writes) && Enabled(st, act)
    requires !act.Save?
    ensures var b := Apply(st, act); Fresh(b.actors, b.rows) && Linear(b.rows, b.writes)
  {
    var b := Apply(st, act);
    assert b.writes == st.writes;
    assert forall op :: op in st.rows ==> op in b.rows && SameButStop(b.rows[op], st.rows[op]);
  }

  lemma Step(st: State, act: Action)
    requires Inv(st) && Enabled(st, act)
    ensures Inv(Apply(st, act))
  {
    BoundedStep(st, act);
    ExclusiveStep(st, act);
    if act.Save? {
      SaveStep(st, act.i, act.finished, act.body);
    } else {
      OtherStep(st, act);
    }
  }

  // ---------- runs ----------

  ghost predicate Legal(st: State, log: seq<Action>)
    decreases |log|, 0
  {
    log == [] || (Legal(st, log[..|log| - 1]) && Enabled(Run(st, log[..|log| - 1]), log[|log| - 1]))
  }

  ghost function Run(st: State, log: seq<Action>): State
    requires Legal(st, log)
    decreases |log|, 1
  {
    if log == [] then st else Apply(Run(st, log[..|log| - 1]), log[|log| - 1])
  }

  lemma {:induction false} RunInv(st: State, log: seq<Action>)
    requires Inv(st) && Legal(st, log)
    ensures Inv(Run(st, log))
    decreases |log|
  {
    if log != [] {
      RunInv(st, log[..|log| - 1]);
      Step(Run(st, log[..|log| - 1]), log[|log| - 1]);
    }
  }

  // ---------- theorems ----------

  /** Stop flags never revert, no row is lost, and a finished row never changes. */
  ghost predicate Forward(a: State, b: State) {
    forall op :: op in a.rows ==>
      && op in b.rows
      && (a.rows[op].stop ==> b.rows[op].stop)
      && (a.rows[op].finished ==> b.rows[op] == a.rows[op])
  }

  lemma ForwardStep(st: State, act: Action)
    requires Inv(st) && Enabled(st, act)
    ensures Forward(st, Apply(st, act))
  {
  }

  lemma {:induction false} RowsForward(st: State, log: seq<Action>)
    requires Inv(st) && Legal(st, log)
    ensures Forward(st, Run(st, log))
    decreases |log|
  {
    if log != [] {
      var before := log[..|log| - 1];
      RowsForward(st, before);
      RunInv(st, before);
      ForwardStep(Run(st, before), log[|log| - 1]);
    }
  }

  /**
   * Journal linearity: in every run, each saved row was computed from the row saved just before it, by the one actor
   * whose connection holds the lock; an actor whose connection died saves nothing.
   */
  lemma {:induction false} JournalLinearity(st: State, log: seq<Action>)
    requires Initial(st) && Legal(st, log)
    ensures Linear(Run(st, log).rows, Run(st, log).writes)
    ensures forall i: nat, finished, body: Id :: Enabled(Run(st, log), Save(i, finished, body)) ==>
              var a := Run(st, log).actors[i];
              && a.phase.alive && SameButStop(Run(st, log).rows[a.op], a.phase.base.value)
              && !Run(st, log).rows[a.op].finished
              && forall j :: 0 <= j < |Run(st, log).actors| && j != i ==> !Holds(Run(st, log).actors[j], a.op)
  {
    InitialInv(st);
    RunInv(st, log);
    SavesAreFresh(Run(st, log));
  }

  lemma SavesAreFresh(st: State)
    requires Inv(st)
    ensures forall i: nat, finished, body: Id :: Enabled(st, Save(i, finished, body)) ==>
              var a := st.actors[i];
              && a.phase.alive && SameButStop(st.rows[a.op], a.phase.base.value) && !st.rows[a.op].finished
              && forall j :: 0 <= j < |st.actors| && j != i ==> !Holds(st.actors[j], a.op)
  {
    forall i: nat, finished, body: Id | Enabled(st, Save(i, finished, body))
      ensures var a := st.actors[i];
              && a.phase.alive && SameButStop(st.rows[a.op], a.phase.base.value) && !st.rows[a.op].finished
              && forall j :: 0 <= j < |st.actors| && j != i ==> !Holds(st.actors[j], a.op)
    {
      assert Holds(st.actors[i], st.actors[i].op);
    }
  }

  /**
   * At most eight connections are pinned, so at least four of twelve are never pinned; ABR work holds at most two
   * slots.
   */
  lemma {:induction false} ResourceSafety(st: State, log: seq<Action>)
    requires Initial(st) && Legal(st, log)
    ensures var b := Run(st, log);
            && Weight(Pinned, b.actors) <= Weight(InSlot, b.actors) <= 8
            && b.pool - Weight(Pinned, b.actors) >= 4
            && Weight(AbrInSlot, b.actors) <= 2
  {
    InitialInv(st);
    RunInv(st, log);
    WeightAtMost(Pinned, InSlot, Run(st, log).actors);
    WeightAtMost(AbrInSlot, AbrActor, Run(st, log).actors);
  }

  /** Steps by which something already under way comes nearer its end. */
  predicate Progress(act: Action) {
    act.Connect? || act.TryLock? || act.Lend? || act.Return? || act.Unlock? || act.Leave? || act.OthersReturn?
  }

  /** A lock is tried that another actor holds. */
  predicate Blocked(st: State, act: Action) {
    act.TryLock? && act.i < |st.actors| && LockTaken(st.actors, st.actors[act.i].op)
  }

  /** Progress, but for a key renewal that finds its lock taken and goes back to wait. */
  predicate Onward(st: State, act: Action) {
    Progress(act) && !(Blocked(st, act) && act.retry)
  }

  /** How far an actor is from an empty slot. */
  function Rank(a: Actor): nat {
    match a.phase
    case Idle => 0
    case Leaving => 1
    case Locked(_, _, borrow) => if borrow.NoBorrow? then 2 else if borrow.Borrowed? then 3 else 4
    case Connected => 5
    case Waiting => 6
  }

  function Distance(st: State): nat {
    Weight(Rank, st.actors) + st.others
  }

  /** Nothing goes in a circle. */
  lemma OnwardLowers(st: State, act: Action)
    requires Enabled(st, act) && Onward(st, act)
    ensures Distance(Apply(st, act)) < Distance(st)
  {
    if act.OthersReturn? {
    } else {
      WeightUpdate(Rank, st.actors, act.i, Apply(st, act).actors[act.i]);
    }
  }

  /** An actor with the lock, or asking the pool, or one it waits for, can go on. */
  lemma {:induction false} GoesOn(st: State, i: nat) returns (act: Action)
    requires Inv(st) && i < |st.actors| && !st.actors[i].phase.Idle? && !st.actors[i].phase.Connected?
    ensures Enabled(st, act) && Progress(act) && !act.TryLock?
  {
    var phase := st.actors[i].phase;
    if phase.Leaving? {
      act := Leave(i);
    } else if phase.Locked? && phase.borrow.NoBorrow? {
      act := Unlock(i);
    } else if phase.Locked? && phase.borrow.Borrowed? {
      act := Return(i);
    } else if Used(st) < st.pool {
      act := if phase.Waiting? then Connect(i) else Lend(i);
    } else {
      WeightAtMost(Pinned, InSlot, st.actors);
      if st.others > 0 {
        act := OthersReturn;
      } else {
        var j := SomeWeight(Lent, st.actors);
        act := Return(j);
      }
    }
  }

  /**
   * While any actor is in a slot, some step that was begun can go on, and without anyone trying a lock that is taken,
   * although slots, locks and connections are all bounded.
   */
  lemma {:induction false} SomeoneGoesOn(st: State) returns (act: Action)
    requires Inv(st) && Weight(InSlot, st.actors) > 0
    ensures Enabled(st, act) && Onward(st, act) && !Blocked(st, act)
  {
    hide Inv;
    var i := SomeWeight(InSlot, st.actors);
    if !st.actors[i].phase.Connected? {
      act := GoesOn(st, i);
    } else if LockTaken(st.actors, st.actors[i].op) {
      var j: nat :| j < |st.actors| && Holds(st.actors[j], st.actors[i].op);
      act := GoesOn(st, j);
    } else {
      act := TryLock(i, false);
    }
  }

  /**
   * A run of such steps alone: nobody enters a slot, asks for a connection, or starts anything; if `free`, nobody tries
   * a taken lock.
   */
  ghost predicate OnlyOnward(st: State, log: seq<Action>, free: bool)
    requires Legal(st, log)
    decreases |log|
  {
    log == [] ||
    var before, act := log[..|log| - 1], log[|log| - 1];
    OnlyOnward(st, before, free) && Onward(Run(st, before), act) && (free ==> !Blocked(Run(st, before), act))
  }

  lemma {:induction false} OnwardShortens(st: State, log: seq<Action>, free: bool)
    requires Legal(st, log) && OnlyOnward(st, log, free)
    ensures |log| + Distance(Run(st, log)) <= Distance(st)
    decreases |log|
  {
    if log != [] {
      var before := log[..|log| - 1];
      OnwardShortens(st, before, free);
      OnwardLowers(Run(st, before), log[|log| - 1]);
    }
  }

  /**
   * No deadlock, not even of a few: whatever is under way drains, in any order. Runs of steps already begun are no
   * longer than the distance, and one that cannot go on has emptied every slot.
   */
  lemma {:induction false} EveryDrainEnds(st: State, log: seq<Action>)
    requires Inv(st) && Legal(st, log) && OnlyOnward(st, log, false)
    ensures |log| <= Distance(st)
    ensures (forall act :: Enabled(Run(st, log), act) ==> !Onward(Run(st, log), act)) ==>
              Weight(InSlot, Run(st, log).actors) == 0
  {
    OnwardShortens(st, log, false);
    RunInv(st, log);
    hide Inv, Enabled, Onward;
    if Weight(InSlot, Run(st, log).actors) > 0 {
      var act := SomeoneGoesOn(Run(st, log));
    }
  }

  /** Such a run exists from every state, with every lock tried only once it is free: no actors wait for each other. */
  lemma {:induction false} Drains(st: State) returns (log: seq<Action>)
    requires Inv(st)
    ensures Legal(st, log) && OnlyOnward(st, log, true) && |log| <= Distance(st)
    ensures Weight(InSlot, Run(st, log).actors) == 0
  {
    hide Inv, Enabled, Onward, Blocked, Apply;
    log := DrainsOn(st, []);
    OnwardShortens(st, log, true);
  }

  lemma {:induction false} DrainsOn(st: State, before: seq<Action>) returns (log: seq<Action>)
    requires Inv(st) && Legal(st, before) && OnlyOnward(st, before, true)
    ensures Legal(st, log) && OnlyOnward(st, log, true) && Weight(InSlot, Run(st, log).actors) == 0
    decreases Distance(Run(st, before))
  {
    hide Inv, Enabled, Onward, Blocked, Apply;
    log := before;
    if Weight(InSlot, Run(st, before).actors) > 0 {
      RunInv(st, before);
      var act := SomeoneGoesOn(Run(st, before));
      var more := before + [act];
      assert more[..|before|] == before;
      OnwardLowers(Run(st, before), act);
      log := DrainsOn(st, more);
    }
  }
}
