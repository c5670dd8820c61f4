/**
 The two-level fair run queue and the admission built on it (ferrosa-sched/src:
 scheduler.rs, runqueue.rs, group_runqueue.rs, fair_admit.rs). Groups are picked by group
 vruntime, a group's queries by their own; service is charged inversely to weight. A slot
 freed under the lock is granted before the lock is given up: `Grant` steps run until no
 slot is free or nothing waits.
 */
module FairQueue {
  import opened Base

  type GroupId = nat
  type QueryId = nat

  const MAX_U64: nat := 0xFFFF_FFFF_FFFF_FFFF
  const BASE_WEIGHT: nat := 1024

  // ---------------------------------------------------------------- virtual time

  function Saturate(n: nat): nat { if n > MAX_U64 then MAX_U64 else n }

  /** What `service` costs at `weight`: never nothing for positive service. */
  function Cost(service: nat, weight: nat): nat {
    var delta := Saturate(service * BASE_WEIGHT) / (if weight > 1 then weight else 1);
    if service > 0 && delta < 1 then 1 else delta
  }

  function Advance(vruntime: nat, service: nat, weight: nat): (v: nat)
    ensures vruntime <= MAX_U64 ==> vruntime <= v <= vruntime + Cost(service, weight)
  {
    Saturate(vruntime + Cost(service, weight))
  }

  function Less(a: nat, b: nat): nat { if a < b then 0 else a - b }

  // ---------------------------------------------------------------- the queues

  /** Position in a queue: vruntime first, arrival among equals. */
  datatype Key = Key(vruntime: nat, ticket: nat)

  predicate Before(a: Key, b: Key) { a.vruntime < b.vruntime || (a.vruntime == b.vruntime && a.ticket < b.ticket) }

  datatype Query = Query(id: QueryId, vruntime: nat, weight: nat)

  datatype RunQueue = RunQueue(tree: map<Key, Query>, minVruntime: nat, ticket: nat)

  datatype Group = Group(vruntime: nat, weight: nat, queries: RunQueue, key: Option<Key>)

  datatype GroupQueue = GroupQueue(groups: map<GroupId, Group>, minVruntime: nat, ticket: nat, boost: nat)

  function EnqueueQuery(q: RunQueue, boost: nat, e: Query): RunQueue {
    var v := Max(e.vruntime, Less(q.minVruntime, boost));
    q.(tree := q.tree[Key(v, q.ticket) := e.(vruntime := v)], ticket := q.ticket + 1)
  }

  function GroupOf(q: GroupQueue, g: GroupId, weight: nat): Group {
    if g in q.groups then q.groups[g]
    else Group(Less(q.minVruntime, q.boost), Max(weight, 1), RunQueue(map[], 0, 0), None)
  }

  /** A new or waking group starts no lower than the floor. */
  function Enqueue(q: GroupQueue, g: GroupId, weight: nat, e: Query): GroupQueue {
    var group := GroupOf(q, g, weight);
    var queries := EnqueueQuery(group.queries, q.boost, e);
    if group.key.Some? then q.(groups := q.groups[g := group.(queries := queries)])
    else
      var v := Max(group.vruntime, Less(q.minVruntime, q.boost));
      q.(groups := q.groups[g := Group(v, group.weight, queries, Some(Key(v, q.ticket)))], ticket := q.ticket + 1)
  }

  predicate LeastGroup(q: GroupQueue, g: GroupId) {
    && g in q.groups && q.groups[g].key.Some?
    && forall o :: o in q.groups && o != g && q.groups[o].key.Some? ==>
         Before(q.groups[g].key.value, q.groups[o].key.value)
  }

  predicate LeastQuery(q: RunQueue, k: Key) { k in q.tree && forall j :: j in q.tree && j != k ==> Before(k, j) }

  function Pick(q: GroupQueue, g: GroupId, k: Key): GroupQueue
    requires g in q.groups && k in q.groups[g].queries.tree
  {
    var group := q.groups[g];
    var left := group.queries.tree - {k};
    var floor := Max(group.queries.minVruntime, group.queries.tree[k].vruntime);
    var queries := group.queries.(tree := left, minVruntime := floor);
    q.(groups := q.groups[g := group.(queries := queries, key := if left == map[] then None else group.key)],
       minVruntime := Max(q.minVruntime, group.vruntime))
  }

  function Charge(q: GroupQueue, g: GroupId, service: nat): GroupQueue {
    if g !in q.groups then q
    else
      var group := q.groups[g];
      var v := Advance(group.vruntime, service, group.weight);
      if group.key.None? then q.(groups := q.groups[g := group.(vruntime := v)])
      else q.(groups := q.groups[g := group.(vruntime := v, key := Some(Key(v, q.ticket)))], ticket := q.ticket + 1)
  }

  function Remove(q: GroupQueue, g: GroupId, k: Key): GroupQueue
    requires g in q.groups && k in q.groups[g].queries.tree
  {
    var group := q.groups[g];
    var left := group.queries.tree - {k};
    var key := if left == map[] then None else group.key;
    q.(groups := q.groups[g := group.(queries := group.queries.(tree := left), key := key)])
  }

  /** Only groups with queued queries have a key, it carries their vruntime, and keys are
      never shared. */
  predicate Keyed(q: GroupQueue, g: GroupId)
    requires g in q.groups
  {
    var group := q.groups[g];
    && group.vruntime <= MAX_U64
    && (group.key.Some? <==> group.queries.tree != map[])
    && (group.key.Some? ==> group.key.value.vruntime == group.vruntime && group.key.value.ticket < q.ticket)
    && (group.key.Some? ==> group.vruntime >= Less(q.minVruntime, q.boost))
  }

  predicate Consistent(q: GroupQueue) {
    && q.minVruntime <= MAX_U64
    && (forall g :: g in q.groups ==> Keyed(q, g))
    && (forall g, o :: g in q.groups && o in q.groups && g != o && q.groups[g].key.Some? && q.groups[o].key.Some? ==>
          q.groups[g].key.value.ticket != q.groups[o].key.value.ticket)
  }

  lemma EnqueueKeeps(q: GroupQueue, g: GroupId, weight: nat, e: Query)
    requires Consistent(q)
    ensures Consistent(Enqueue(q, g, weight, e))
  {
    var n := Enqueue(q, g, weight, e);
    assert g in q.groups ==> Keyed(q, g);
    forall o | o in n.groups ensures Keyed(n, o) {
      assert o in q.groups ==> Keyed(q, o);
      if o == g {
        var queries := GroupOf(q, g, weight).queries;
        assert Key(Max(e.vruntime, Less(queries.minVruntime, q.boost)), queries.ticket) in n.groups[g].queries.tree;
      }
    }
  }

  lemma PickKeeps(q: GroupQueue, g: GroupId, k: Key)
    requires Consistent(q) && LeastGroup(q, g) && k in q.groups[g].queries.tree
    ensures Consistent(Pick(q, g, k)) && Pick(q, g, k).minVruntime >= q.minVruntime
  {
    var n := Pick(q, g, k);
    assert Keyed(q, g);
    forall o | o in n.groups ensures Keyed(n, o) {
      assert Keyed(q, o);
      assert o != g && q.groups[o].key.Some? ==> Before(q.groups[g].key.value, q.groups[o].key.value);
    }
  }

  lemma ChargeKeeps(q: GroupQueue, g: GroupId, service: nat)
    requires Consistent(q)
    ensures Consistent(Charge(q, g, service))
  {
    var n := Charge(q, g, service);
    forall o | o in n.groups ensures Keyed(n, o) {
      assert Keyed(q, o);
    }
  }

  lemma RemoveKeeps(q: GroupQueue, g: GroupId, k: Key)
    requires Consistent(q) && g in q.groups && k in q.groups[g].queries.tree
    ensures Consistent(Remove(q, g, k))
  {
    var n := Remove(q, g, k);
    forall o | o in n.groups ensures Keyed(n, o) {
      assert Keyed(q, o);
    }
  }

  // ---------------------------------------------------------------- admission

  datatype Slot = Slot(group: GroupId, weight: nat, query: Query)

  /** `parked` scans gave their slot up and have not re-entered the queue yet. */
  datatype State = State(capacity: nat, free: nat, queue: GroupQueue, running: map<QueryId, Slot>,
        parked: map<QueryId, Slot>)

  datatype Step =
    | Admit(id: QueryId, group: GroupId, weight: nat, queryWeight: nat)
    | Grant(group: GroupId, key: Key)
    | Serve(id: QueryId, service: nat, requeue: bool)
    | Suspend(id: QueryId)
    | Readmit(id: QueryId)
    | Finish(id: QueryId)
    | Cancel(group: GroupId, key: Key)

  predicate Waits(q: GroupQueue, g: GroupId) { g in q.groups && q.groups[g].key.Some? }

  predicate Settled(s: State) { s.free == 0 || forall g :: g in s.queue.groups ==> !Waits(s.queue, g) }

  /** The query that would be picked next. */
  predicate Top(q: GroupQueue, g: GroupId, k: Key) { LeastGroup(q, g) && LeastQuery(q.groups[g].queries, k) }

  /** The most deserving waiter comes strictly before a scan at these vruntimes. */
  ghost predicate Outranked(q: GroupQueue, groupVruntime: nat, queryVruntime: nat) {
    exists g, k :: Top(q, g, k)
      && (q.groups[g].vruntime < groupVruntime || (q.groups[g].vruntime == groupVruntime && k.vruntime < queryVruntime))
  }

  predicate Enabled(s: State, step: Step) {
    match step
    case Admit(id, _, _, _) => Settled(s)
    case Grant(g, k) => s.free > 0 && Top(s.queue, g, k) && s.queue.groups[g].queries.tree[k].id !in s.running
    case Serve(id, _, _) => Settled(s) && id in s.running && s.running[id].group in s.queue.groups
    case Suspend(id) => Settled(s) && id in s.running
    case Readmit(id) => Settled(s) && id in s.parked
    case Finish(id) => Settled(s) && id in s.running
    case Cancel(g, k) => Settled(s) && g in s.queue.groups && k in s.queue.groups[g].queries.tree
  }

  ghost function Served(s: State, step: Step): State
    requires step.Serve? && Enabled(s, step)
  {
    var slot := s.running[step.id];
    var query := slot.query.(vruntime := Advance(slot.query.vruntime, step.service, slot.query.weight));
    var queue := Charge(s.queue, slot.group, step.service);
    if !Outranked(queue, queue.groups[slot.group].vruntime, query.vruntime) then
      s.(queue := queue, running := s.running[step.id := slot.(query := query)])
    else if step.requeue then
      s.(free := s.free + 1, queue := Enqueue(queue, slot.group, slot.weight, query), running := s.running - {step.id})
    else
      s.(free := s.free + 1, queue := queue, running := s.running - {step.id},
         parked := s.parked[step.id := slot.(query := query)])
  }

  ghost function Next(s: State, step: Step): State
    requires Enabled(s, step)
  {
    match step
    case Admit(id, g, w, qw) => s.(queue := Enqueue(s.queue, g, w, Query(id, 0, qw)))
    case Grant(g, k) =>
      var query := s.queue.groups[g].queries.tree[k];
      s.(free := s.free - 1, queue := Pick(s.queue, g, k),
         running := s.running[query.id := Slot(g, s.queue.groups[g].weight, query)])
    case Serve(_, _, _) => Served(s, step)
    case Suspend(id) =>
      s.(free := s.free + 1, running := s.running - {id}, parked := s.parked[id := s.running[id]])
    case Readmit(id) =>
      var slot := s.parked[id];
      s.(queue := Enqueue(s.queue, slot.group, slot.weight, slot.query), parked := s.parked - {id})
    case Finish(id) => s.(free := s.free + 1, running := s.running - {id})
    case Cancel(g, k) => s.(queue := Remove(s.queue, g, k))
  }

  predicate Inv(s: State) {
    && Consistent(s.queue) && s.free + |s.running| == s.capacity
    && (forall id :: id in s.running ==> s.running[id].group in s.queue.groups)
  }

  function Start(capacity: nat, boost: nat): State {
    State(Max(capacity, 1), Max(capacity, 1), GroupQueue(map[], 0, 0, boost), map[], map[])
  }

  lemma StepKeeps(s: State, step: Step)
    requires Inv(s) && Enabled(s, step)
    ensures Inv(Next(s, step))
  {
    match step
    case Admit(id, g, w, qw) => EnqueueKeeps(s.queue, g, w, Query(id, 0, qw));
    case Grant(g, k) => PickKeeps(s.queue, g, k);
    case Serve(id, service, requeue) => ServeKeeps(s, step);
    case Suspend(id) => RunningShrinks(s, id);
    case Readmit(id) => EnqueueKeeps(s.queue, s.parked[id].group, s.parked[id].weight, s.parked[id].query);
    case Finish(id) => RunningShrinks(s, id);
    case Cancel(g, k) => RemoveKeeps(s.queue, g, k);
  }

  lemma RunningShrinks(s: State, id: QueryId)
    requires id in s.running
    ensures |s.running - {id}| == |s.running| - 1
  {
    assert (s.running - {id}).Keys == s.running.Keys - {id};
  }

  lemma ServeKeeps(s: State, step: Step)
    requires Inv(s) && step.Serve? && Enabled(s, step)
    ensures Inv(Next(s, step))
  {
    var slot := s.running[step.id];
    var query := slot.query.(vruntime := Advance(slot.query.vruntime, step.service, slot.query.weight));
    ChargeKeeps(s.queue, slot.group, step.service);
    var queue := Charge(s.queue, slot.group, step.service);
    EnqueueKeeps(queue, slot.group, slot.weight, query);
    KeepsGroups(s.queue, slot.group, step.service, slot.weight, query);
    if !Outranked(queue, queue.groups[slot.group].vruntime, query.vruntime) {
      SlotKept(s, queue, step.id, slot.(query := query));
    } else if step.requeue {
      SlotGivenUp(s, Enqueue(queue, slot.group, slot.weight, query), step.id, s.parked);
    } else {
      SlotGivenUp(s, queue, step.id, s.parked[step.id := slot.(query := query)]);
    }
  }

  lemma SlotKept(s: State, queue: GroupQueue, id: QueryId, slot: Slot)
    requires Inv(s) && Consistent(queue) && queue.groups.Keys == s.queue.groups.Keys
    requires id in s.running && slot.group == s.running[id].group
    ensures Inv(s.(queue := queue, running := s.running[id := slot]))
  {
    assert s.running[id := slot].Keys == s.running.Keys;
  }

  lemma SlotGivenUp(s: State, queue: GroupQueue, id: QueryId, parked: map<QueryId, Slot>)
    requires Inv(s) && Consistent(queue) && queue.groups.Keys == s.queue.groups.Keys && id in s.running
    ensures Inv(s.(free := s.free + 1, queue := queue, running := s.running - {id}, parked := parked))
  {
    RunningShrinks(s, id);
  }

  lemma KeepsGroups(q: GroupQueue, g: GroupId, service: nat, weight: nat, e: Query)
    requires g in q.groups
    ensures Charge(q, g, service).groups.Keys == q.groups.Keys
    ensures Enqueue(Charge(q, g, service), g, weight, e).groups.Keys == q.groups.Keys
  {
  }

  // ---------------------------------------------------------------- fairness between groups

  /** The slots a group holds. */
  function Holds(s: State, g: GroupId): set<QueryId> { set id | id in s.running && s.running[id].group == g }

  /** `g` is ahead of `o` by at most `bound`, with one charge set aside for each slot `g` holds. */
  predicate Near(s: State, g: GroupId, o: GroupId, charge: nat, bound: nat)
    requires Waits(s.queue, g) && Waits(s.queue, o)
  {
    s.queue.groups[g].vruntime + |Holds(s, g)| * charge <= s.queue.groups[o].vruntime + bound
  }

  /** No charge of the run costs more than `charge`. */
  predicate Affordable(s: State, step: Step, charge: nat) {
    step.Serve? && step.id in s.running && s.running[step.id].group in s.queue.groups ==>
      Cost(step.service, s.queue.groups[s.running[step.id].group].weight) <= charge
  }

  lemma HoldsBounded(s: State, g: GroupId)
    requires Inv(s)
    ensures |Holds(s, g)| <= |s.running|
  {
    SubsetSize(Holds(s, g), s.running.Keys);
  }

  /** Granting a slot moves no vruntime; the group it goes to was not behind. */
  lemma GrantLeads(s: State, step: Step, g: GroupId)
    requires Inv(s) && step.Grant? && Enabled(s, step) && Waits(s.queue, g)
    ensures Next(s, step).queue.groups[g].vruntime == s.queue.groups[g].vruntime
    ensures s.queue.groups[step.group].vruntime <= s.queue.groups[g].vruntime
  {
    assert Keyed(s.queue, g) && Keyed(s.queue, step.group);
    assert g != step.group ==> Before(s.queue.groups[step.group].key.value, s.queue.groups[g].key.value);
  }

  lemma HoldsAtMost(s: State, g: GroupId, charge: nat)
    requires Inv(s)
    ensures |Holds(s, g)| * charge <= s.capacity * charge
  {
    HoldsBounded(s, g);
    Scaled(|Holds(s, g)|, s.capacity, charge);
  }

  /** Slots granted to one group leave the slots of the others as they were. */
  lemma GrantHolds(s: State, step: Step, g: GroupId)
    requires step.Grant? && Enabled(s, step) && step.group != g
    ensures Holds(Next(s, step), g) == Holds(s, g)
  {
  }

  lemma GrantStaysNear(s: State, step: Step, g: GroupId, o: GroupId, charge: nat, bound: nat)
    requires Inv(s) && step.Grant? && Enabled(s, step) && g != o && s.capacity * charge <= bound
    requires Waits(s.queue, g) && Waits(s.queue, o) && Near(s, g, o, charge, bound)
    requires Waits(Next(s, step).queue, g) && Waits(Next(s, step).queue, o)
    ensures Near(Next(s, step), g, o, charge, bound)
  {
    var n := Next(s, step);
    GrantLeads(s, step, g);
    GrantLeads(s, step, o);
    if step.group == g {
      assert Inv(n) by { StepKeeps(s, step); }
      HoldsAtMost(n, g, charge);
    } else {
      GrantHolds(s, step, g);
    }
  }

  /** What serving a scan does to the vruntime of a waiting group. */
  lemma ServeMoves(s: State, step: Step, g: GroupId, charge: nat)
    requires Inv(s) && step.Serve? && Enabled(s, step) && Affordable(s, step, charge) && Waits(s.queue, g)
    ensures g in Next(s, step).queue.groups
    ensures var v, w := s.queue.groups[g].vruntime, Next(s, step).queue.groups[g].vruntime;
            if s.running[step.id].group == g then v <= w <= v + charge else w == v
    ensures Charge(s.queue, s.running[step.id].group, step.service).groups[g].vruntime ==
              Next(s, step).queue.groups[g].vruntime
  {
    assert Keyed(s.queue, g);
  }

  lemma ServeKeepsSlot(s: State, step: Step, g: GroupId, o: GroupId)
    requires Inv(s) && step.Serve? && Enabled(s, step) && Waits(s.queue, g) && Waits(s.queue, o) && g != o
    requires s.running[step.id].group == g && step.id in Next(s, step).running
    ensures Next(s, step).queue.groups[g].vruntime <= Next(s, step).queue.groups[o].vruntime
    ensures Holds(Next(s, step), g) == Holds(s, g)
  {
    var n := Next(s, step);
    ChargeKeeps(s.queue, g, step.service);
    KeptSlot(s, step);
    NotOutrankedLeads(n.queue, o, n.queue.groups[g].vruntime, n.running[step.id].query.vruntime);
  }

  /** A query keeps its slot only if nobody waiting deserves it more. */
  lemma KeptSlot(s: State, step: Step)
    requires step.Serve? && Enabled(s, step) && step.id in Next(s, step).running
    ensures var n, g := Next(s, step), s.running[step.id].group;
            && n.queue == Charge(s.queue, g, step.service) && n.running.Keys == s.running.Keys
            && n.running[step.id].group == g
            && (forall id :: id in s.running && id != step.id ==> n.running[id] == s.running[id])
            && !Outranked(n.queue, n.queue.groups[g].vruntime, n.running[step.id].query.vruntime)
  {
  }

  lemma ServeLeavesSlots(s: State, step: Step, g: GroupId)
    requires Inv(s) && step.Serve? && Enabled(s, step)
    ensures s.running[step.id].group != g ==> Holds(Next(s, step), g) == Holds(s, g)
    ensures s.running[step.id].group == g && step.id !in Next(s, step).running ==>
              Holds(Next(s, step), g) == Holds(s, g) - {step.id} && |Holds(Next(s, step), g)| == |Holds(s, g)| - 1
  {
    assert s.running[step.id].group == g ==> step.id in Holds(s, g);
  }

  lemma ServeStaysNear(s: State, step: Step, g: GroupId, o: GroupId, charge: nat, bound: nat)
    requires Inv(s) && step.Serve? && Enabled(s, step) && g != o && s.capacity * charge <= bound &&
             Affordable(s, step, charge)
    requires Waits(s.queue, g) && Waits(s.queue, o) && Near(s, g, o, charge, bound)
    requires Waits(Next(s, step).queue, g) && Waits(Next(s, step).queue, o)
    ensures Near(Next(s, step), g, o, charge, bound)
  {
    var n := Next(s, step);
    ServeMoves(s, step, g, charge);
    ServeMoves(s, step, o, charge);
    ServeLeavesSlots(s, step, g);
    var v, w, h := s.queue.groups[g].vruntime, n.queue.groups[g].vruntime, |Holds(s, g)|;
    if s.running[step.id].group == g {
      if step.id in n.running {
        ServeKeepsSlot(s, step, g, o);
        HoldsAtMost(s, g, charge);
      } else {
        OneLess(h, charge);
      }
    }
  }

  lemma {:induction false} LeastIn(keys: set<Key>) returns (k: Key)
    requires keys != {}
    ensures k in keys && forall j :: j in keys && j != k ==> Before(k, j)
    decreases keys
  {
    var first :| first in keys;
    if keys == {first} {
      k := first;
    } else {
      var rest := LeastIn(keys - {first});
      k := if Before(rest, first) then rest else first;
      assert forall j :: j in keys && j != first ==> j in keys - {first};
    }
  }

  /** Something waits, so something is picked next, and it is not behind `o`. */
  lemma SomebodyIsTop(q: GroupQueue, o: GroupId) returns (g: GroupId, k: Key)
    requires Consistent(q) && Waits(q, o)
    ensures Top(q, g, k) && q.groups[g].vruntime <= q.groups[o].vruntime
  {
    var keys := set a | a in q.groups && Waits(q, a) :: q.groups[a].key.value;
    assert q.groups[o].key.value in keys;
    var least := LeastIn(keys);
    g :| g in q.groups && Waits(q, g) && q.groups[g].key.value == least;
    assert Keyed(q, g) && Keyed(q, o);
    forall a | a in q.groups && a != g && q.groups[a].key.Some? ensures Before(least, q.groups[a].key.value) {
      assert Waits(q, a) && q.groups[a].key.value in keys;
    }
    k := LeastIn(q.groups[g].queries.tree.Keys);
  }

  /** A scan that keeps its slot is not behind any waiting group. */
  lemma NotOutrankedLeads(q: GroupQueue, o: GroupId, groupVruntime: nat, queryVruntime: nat)
    requires Consistent(q) && Waits(q, o) && !Outranked(q, groupVruntime, queryVruntime)
    ensures groupVruntime <= q.groups[o].vruntime
  {
    var g, k := SomebodyIsTop(q, o);
  }

  /** Every other step leaves both vruntimes alone: a group that waits is never clamped. */
  lemma QuietStaysNear(s: State, step: Step, g: GroupId, o: GroupId, charge: nat, bound: nat)
    requires Inv(s) && !step.Grant? && !step.Serve? && Enabled(s, step)
    requires Waits(s.queue, g) && Waits(s.queue, o) && Near(s, g, o, charge, bound)
    requires Waits(Next(s, step).queue, g) && Waits(Next(s, step).queue, o)
    ensures Near(Next(s, step), g, o, charge, bound)
  {
    var n := Next(s, step);
    assert Holds(n, g) <= Holds(s, g);
    SubsetSize(Holds(n, g), Holds(s, g));
    Scaled(|Holds(n, g)|, |Holds(s, g)|, charge);
  }

  lemma StepStaysNear(s: State, step: Step, g: GroupId, o: GroupId, charge: nat, bound: nat)
    requires Inv(s) && Enabled(s, step) && g != o && s.capacity * charge <= bound && Affordable(s, step, charge)
    requires Waits(s.queue, g) && Waits(s.queue, o) && Near(s, g, o, charge, bound)
    requires Waits(Next(s, step).queue, g) && Waits(Next(s, step).queue, o)
    ensures Near(Next(s, step), g, o, charge, bound)
  {
    if step.Grant? {
      GrantStaysNear(s, step, g, o, charge, bound);
    } else if step.Serve? {
      ServeStaysNear(s, step, g, o, charge, bound);
    } else {
      QuietStaysNear(s, step, g, o, charge, bound);
    }
  }

  /** A run during which both groups always have work waiting. */
  ghost predicate Backlogged(s: State, steps: seq<Step>, g: GroupId, o: GroupId, charge: nat)
    decreases |steps|
  {
    && Waits(s.queue, g) && Waits(s.queue, o)
    && (steps == [] || (Enabled(s, steps[0]) && Affordable(s, steps[0], charge)
                        && Backlogged(Next(s, steps[0]), steps[1..], g, o, charge)))
  }

  ghost function Exec(s: State, steps: seq<Step>, g: GroupId, o: GroupId, charge: nat): State
    requires Backlogged(s, steps, g, o, charge)
    decreases |steps|
  {
    if steps == [] then s else Exec(Next(s, steps[0]), steps[1..], g, o, charge)
  }

  lemma {:induction false} RunStaysNear(s: State, steps: seq<Step>, g: GroupId, o: GroupId, charge: nat, bound: nat)
    requires Inv(s) && g != o && Backlogged(s, steps, g, o, charge) && s.capacity * charge <= bound &&
             Near(s, g, o, charge, bound)
    ensures var end := Exec(s, steps, g, o, charge);
            Waits(end.queue, g) && Waits(end.queue, o) && Near(end, g, o, charge, bound) && end.capacity == s.capacity
    decreases |steps|
  {
    if steps != [] {
      StepStaysNear(s, steps[0], g, o, charge, bound);
      StepKeeps(s, steps[0]);
      RunStaysNear(Next(s, steps[0]), steps[1..], g, o, charge, bound);
    }
  }

  /** While two groups stay backlogged, however many queries each has, their vruntimes
      stay within one maximum charge per slot of each other. */
  lemma GroupsStayTogether(s: State, steps: seq<Step>, g: GroupId, o: GroupId, charge: nat)
    requires Inv(s) && g != o && Backlogged(s, steps, g, o, charge)
    requires Near(s, g, o, charge, s.capacity * charge) && Near(s, o, g, charge, s.capacity * charge)
    ensures var q := Exec(s, steps, g, o, charge).queue;
            && Waits(q, g) && Waits(q, o)
            && q.groups[g].vruntime <= q.groups[o].vruntime + s.capacity * charge
            && q.groups[o].vruntime <= q.groups[g].vruntime + s.capacity * charge
  {
    var bound := s.capacity * charge;
    GroupStaysBehind(s, steps, g, o, charge, bound);
    SwapBacklogged(s, steps, g, o, charge);
    GroupStaysBehind(s, steps, o, g, charge, bound);
  }

  lemma GroupStaysBehind(s: State, steps: seq<Step>, g: GroupId, o: GroupId, charge: nat, bound: nat)
    requires Inv(s) && g != o && Backlogged(s, steps, g, o, charge) && s.capacity * charge <= bound &&
             Near(s, g, o, charge, bound)
    ensures var q := Exec(s, steps, g, o, charge).queue;
            Waits(q, g) && Waits(q, o) && q.groups[g].vruntime <= q.groups[o].vruntime + bound
  {
    RunStaysNear(s, steps, g, o, charge, bound);
    NearMeans(Exec(s, steps, g, o, charge), g, o, charge, bound);
  }

  lemma NearMeans(s: State, g: GroupId, o: GroupId, charge: nat, bound: nat)
    requires Waits(s.queue, g) && Waits(s.queue, o) && Near(s, g, o, charge, bound)
    ensures s.queue.groups[g].vruntime <= s.queue.groups[o].vruntime + bound
  {
    Scaled(0, |Holds(s, g)|, charge);
  }

  lemma {:induction false} SwapBacklogged(s: State, steps: seq<Step>, g: GroupId, o: GroupId, charge: nat)
    requires Backlogged(s, steps, g, o, charge)
    ensures Backlogged(s, steps, o, g, charge) && Exec(s, steps, o, g, charge) == Exec(s, steps, g, o, charge)
    decreases |steps|
  {
    if steps != [] {
      SwapBacklogged(Next(s, steps[0]), steps[1..], g, o, charge);
    }
  }

  // ---------------------------------------------------------------- how sharp the bound is

  /** `g` and `o` start level, stay backlogged, and end more than one charge apart. */
  ghost predicate Drifts(s: State, steps: seq<Step>, g: GroupId, o: GroupId, charge: nat) {
    && Inv(s) && g != o && Backlogged(s, steps, g, o, charge)
    && Near(s, g, o, charge, charge) && Near(s, o, g, charge, charge)
    && var q := Exec(s, steps, g, o, charge).queue;
       g in q.groups && o in q.groups && q.groups[g].vruntime > q.groups[o].vruntime + charge
  }

  ghost predicate IsRun(s: State, steps: seq<Step>)
    decreases |steps|
  {
    steps == [] || (Enabled(s, steps[0]) && IsRun(Next(s, steps[0]), steps[1..]))
  }

  ghost function After(s: State, steps: seq<Step>): State
    requires IsRun(s, steps)
    decreases |steps|
  {
    if steps == [] then s else After(Next(s, steps[0]), steps[1..])
  }

  lemma StartHolds(capacity: nat, boost: nat)
    ensures Inv(Start(capacity, boost))
  {
  }

  lemma {:induction false} RunKeeps(s: State, steps: seq<Step>)
    requires Inv(s) && IsRun(s, steps)
    ensures Inv(After(s, steps)) && After(s, steps).capacity == s.capacity
    decreases |steps|
  {
    if steps != [] {
      StepKeeps(s, steps[0]);
      RunKeeps(Next(s, steps[0]), steps[1..]);
    }
  }

  lemma {:induction false} RunSnoc(s: State, steps: seq<Step>, step: Step)
    requires IsRun(s, steps) && Enabled(After(s, steps), step)
    ensures IsRun(s, steps + [step]) && After(s, steps + [step]) == Next(After(s, steps), step)
    decreases |steps|
  {
    if steps == [] {
      assert steps + [step] == [step] && [step][1..] == [];
    } else {
      RunSnoc(Next(s, steps[0]), steps[1..], step);
      assert (steps + [step])[1..] == steps[1..] + [step];
    }
  }

  ghost predicate Reachable(capacity: nat, boost: nat, s: State) {
    exists steps :: IsRun(Start(capacity, boost), steps) && After(Start(capacity, boost), steps) == s
  }

  lemma ReachStart(capacity: nat, boost: nat)
    ensures Reachable(capacity, boost, Start(capacity, boost))
  {
    assert IsRun(Start(capacity, boost), []) && After(Start(capacity, boost), []) == Start(capacity, boost);
  }

  lemma ReachNext(capacity: nat, boost: nat, s: State, step: Step)
    requires Reachable(capacity, boost, s) && Enabled(s, step)
    ensures Reachable(capacity, boost, Next(s, step))
  {
    var steps :| IsRun(Start(capacity, boost), steps) && After(Start(capacity, boost), steps) == s;
    RunSnoc(Start(capacity, boost), steps, step);
  }

  ghost predicate OneChargeApart(capacity: nat) {
    forall boost, s, steps, g, o, charge :: Reachable(capacity, boost, s) ==> !Drifts(s, steps, g, o, charge)
  }

  /** From every state an admission can reach, one charge bounds the distance in every run
      if and only if there is a single slot. */
  lemma OneChargeExactly(capacity: nat)
    ensures OneChargeApart(capacity) <==> capacity <= 1
  {
    if capacity <= 1 {
      forall boost, s, steps, g, o, charge | Reachable(capacity, boost, s) ensures !Drifts(s, steps, g, o, charge) {
        if Drifts(s, steps, g, o, charge) {
          OneSlot(capacity, boost, s);
          Scaled(1, 1, charge);
          GroupStaysBehind(s, steps, g, o, charge, charge);
        }
      }
    } else {
      CrowdReached(capacity);
      var steps := CrowdDrifts(capacity);
      assert !OneChargeApart(capacity);
    }
  }

  lemma OneSlot(capacity: nat, boost: nat, s: State)
    requires capacity <= 1 && Reachable(capacity, boost, s)
    ensures s.capacity == 1
  {
    var steps :| IsRun(Start(capacity, boost), steps) && After(Start(capacity, boost), steps) == s;
    StartHolds(capacity, boost);
    RunKeeps(Start(capacity, boost), steps);
  }

  // The failing run: group 2 fills every slot, then three queries of group 0 and two of
  // group 1 arrive, then two slots fall free.

  const SOON: Key := Key(0, 0)
  const NEXT: Key := Key(0, 1)
  const LAST: Key := Key(0, 2)

  function Fresh(id: QueryId): Query { Query(id, 0, 256) }

  function FirstGroup(t: nat, tree: map<Key, Query>): Group { Group(0, 1024, RunQueue(tree, 0, 3), Some(Key(0, t))) }

  function OtherGroup(t: nat): Group {
    Group(0, 1024, RunQueue(map[SOON := Fresh(10), NEXT := Fresh(11)], 0, 2), Some(Key(0, t + 1)))
  }

  function IdleGroup(t: nat): Group { Group(0, 1024, RunQueue(map[], 0, t), None) }

  const ALL_THREE: map<Key, Query> := map[SOON := Fresh(0), NEXT := Fresh(1), LAST := Fresh(2)]
  const LAST_TWO: map<Key, Query> := map[NEXT := Fresh(1), LAST := Fresh(2)]
  const LAST_ONE: map<Key, Query> := map[LAST := Fresh(2)]

  function Crowded(t: nat, tree: map<Key, Query>): map<GroupId, Group> {
    map[0 := FirstGroup(t, tree), 1 := OtherGroup(t), 2 := IdleGroup(t)]
  }

  function Held(n: nat): map<QueryId, Slot> { map i: nat | 100 <= i < 100 + n :: Slot(2, 1024, Fresh(i)) }

  /** Group 2 holds `n` of the slots and nothing waits. */
  function Filled(capacity: nat, n: nat): State
    requires n <= capacity
  {
    State(capacity, capacity - n, GroupQueue(if n == 0 then map[] else map[2 := IdleGroup(n)], 0, n, 0), Held(n), map[])
  }

  /** Group 2 holds every slot; group 0 has three queries waiting and group 1 two. */
  function Crowd(capacity: nat): State {
    State(capacity, 0, GroupQueue(Crowded(capacity, ALL_THREE), 0, capacity + 2, 0), Held(capacity), map[])
  }

  lemma OneMoreFilled(capacity: nat, n: nat)
    requires n < capacity
    ensures var s := Filled(capacity, n);
            && Enabled(s, Admit(100 + n, 2, 1024, 256))
            && var a := Next(s, Admit(100 + n, 2, 1024, 256));
               Enabled(a, Grant(2, Key(0, n))) && Next(a, Grant(2, Key(0, n))) == Filled(capacity, n + 1)
  {
    var s := Filled(capacity, n);
    var a := Next(s, Admit(100 + n, 2, 1024, 256));
    var waiting := Group(0, 1024, RunQueue(map[Key(0, n) := Fresh(100 + n)], 0, n + 1), Some(Key(0, n)));
    assert a.queue.groups == map[2 := waiting];
    assert Top(a.queue, 2, Key(0, n));
    assert waiting.queries.tree - {Key(0, n)} == map[];
    assert Held(n)[100 + n := Slot(2, 1024, Fresh(100 + n))] == Held(n + 1);
    assert map[2 := waiting][2 := IdleGroup(n + 1)] == map[2 := IdleGroup(n + 1)];
  }

  lemma MoreFilled(capacity: nat, n: nat)
    requires n < capacity && Reachable(capacity, 0, Filled(capacity, n))
    ensures Reachable(capacity, 0, Filled(capacity, n + 1))
  {
    OneMoreFilled(capacity, n);
    var s := Filled(capacity, n);
    ReachNext(capacity, 0, s, Admit(100 + n, 2, 1024, 256));
    ReachNext(capacity, 0, Next(s, Admit(100 + n, 2, 1024, 256)), Grant(2, Key(0, n)));
  }

  lemma {:induction false} FilledReached(capacity: nat, n: nat)
    requires 1 <= capacity && n <= capacity
    ensures Reachable(capacity, 0, Filled(capacity, n))
    decreases n
  {
    if n == 0 {
      ReachStart(capacity, 0);
      assert Held(0) == map[];
    } else {
      FilledReached(capacity, n - 1);
      MoreFilled(capacity, n - 1);
    }
  }

  /** A full house with `groups` queued. */
  function Full(capacity: nat, groups: map<GroupId, Group>, ticket: nat): State {
    State(capacity, 0, GroupQueue(groups, 0, ticket, 0), Held(capacity), map[])
  }

  lemma FirstArrives(capacity: nat, g: GroupId, id: QueryId, groups: map<GroupId, Group>, t: nat)
    requires g !in groups && Reachable(capacity, 0, Full(capacity, groups, t))
    ensures Reachable(capacity, 0, Full(capacity, groups[g := First(id, t)], t + 1))
  {
    var s := Full(capacity, groups, t);
    assert Next(s, Admit(id, g, 1024, 256)) == Full(capacity, groups[g := First(id, t)], t + 1);
    ReachNext(capacity, 0, s, Admit(id, g, 1024, 256));
  }

  function First(id: QueryId, t: nat): Group {
    Group(0, 1024, RunQueue(map[SOON := Fresh(id)], 0, 1), Some(Key(0, t)))
  }

  function Later(group: Group, id: QueryId): Group {
    var q := group.queries;
    group.(queries := RunQueue(q.tree[Key(0, q.ticket) := Fresh(id)], 0, q.ticket + 1))
  }

  lemma LaterArrives(capacity: nat, g: GroupId, id: QueryId, groups: map<GroupId, Group>, t: nat)
    requires g in groups && groups[g].key.Some? && groups[g].queries.minVruntime == 0
    requires Reachable(capacity, 0, Full(capacity, groups, t))
    ensures Reachable(capacity, 0, Full(capacity, groups[g := Later(groups[g], id)], t))
  {
    var s := Full(capacity, groups, t);
    assert Next(s, Admit(id, g, 1024, 256)) == Full(capacity, groups[g := Later(groups[g], id)], t);
    ReachNext(capacity, 0, s, Admit(id, g, 1024, 256));
  }

  lemma CrowdReached(capacity: nat)
    requires 1 <= capacity
    ensures Reachable(capacity, 0, Crowd(capacity))
  {
    FilledReached(capacity, capacity);
    var groups := map[2 := IdleGroup(capacity)];
    assert Filled(capacity, capacity) == Full(capacity, groups, capacity);
    ThreeArrive(capacity, groups);
    OthersArrive(capacity, groups[0 := FirstGroup(capacity, ALL_THREE)]);
  }

  lemma ThreeArrive(t: nat, groups: map<GroupId, Group>)
    requires 0 !in groups && Reachable(t, 0, Full(t, groups, t))
    ensures Reachable(t, 0, Full(t, groups[0 := FirstGroup(t, ALL_THREE)], t + 1))
  {
    var one := First(0, t);
    var two := Later(one, 1);
    FirstArrives(t, 0, 0, groups, t);
    LaterArrives(t, 0, 1, groups[0 := one], t + 1);
    assert groups[0 := one][0 := two] == groups[0 := two];
    LaterArrives(t, 0, 2, groups[0 := two], t + 1);
    assert groups[0 := two][0 := Later(two, 2)] == groups[0 := Later(two, 2)];
    FirstQueued(t);
  }

  lemma FirstQueued(t: nat)
    ensures Later(Later(First(0, t), 1), 2) == FirstGroup(t, ALL_THREE)
  {
    assert map[SOON := Fresh(0)][NEXT := Fresh(1)][LAST := Fresh(2)] == ALL_THREE;
  }

  lemma OthersArrive(t: nat, groups: map<GroupId, Group>)
    requires groups == map[0 := FirstGroup(t, ALL_THREE), 2 := IdleGroup(t)] && Reachable(t, 0, Full(t, groups, t + 1))
    ensures Reachable(t, 0, Crowd(t))
  {
    var one := First(10, t + 1);
    FirstArrives(t, 1, 10, groups, t + 1);
    LaterArrives(t, 1, 11, groups[1 := one], t + 2);
    assert map[SOON := Fresh(10)][NEXT := Fresh(11)] == map[SOON := Fresh(10), NEXT := Fresh(11)];
    assert Later(one, 11) == OtherGroup(t);
    assert groups[1 := one][1 := OtherGroup(t)] == Crowded(t, ALL_THREE);
  }

  lemma CrowdNear(capacity: nat)
    requires Inv(Crowd(capacity))
    ensures Near(Crowd(capacity), 0, 1, 1000, 1000) && Near(Crowd(capacity), 1, 0, 1000, 1000)
  {
    assert Holds(Crowd(capacity), 0) == {} && Holds(Crowd(capacity), 1) == {};
  }

  /** Group 0 runs two queries, both charged nothing so far. */
  predicate TwoRunning(s: State, t: nat) {
    && s.free == 0 && 0 in s.running && 1 in s.running && 10 !in s.running
    && s.running[0] == Slot(0, 1024, Fresh(0)) && s.running[1] == Slot(0, 1024, Fresh(1))
    && s.queue.groups == Crowded(t, LAST_ONE)
  }

  lemma FirstSlot(t: nat)
    requires t >= 2
    ensures var s := Crowd(t);
            Enabled(s, Finish(100))
            && var a := Next(s, Finish(100));
               Enabled(a, Grant(0, SOON)) && Waits(a.queue, 0) && Waits(a.queue, 1)
               && var b := Next(a, Grant(0, SOON));
                  b == s.(queue := b.queue, running := (s.running - {100})[0 := Slot(0, 1024, Fresh(0))])
                  && b.queue.groups == Crowded(t, LAST_TWO)
  {
    var a := Next(Crowd(t), Finish(100));
    assert Top(a.queue, 0, SOON);
    assert ALL_THREE - {SOON} == LAST_TWO;
    assert NEXT in LAST_TWO;
  }

  lemma SecondSlot(b: State, t: nat)
    requires b.free == 0 && 0 in b.running && 101 in b.running && 1 !in b.running && 10 !in b.running
    requires b.running[0] == Slot(0, 1024, Fresh(0)) && b.queue.groups == Crowded(t, LAST_TWO)
    ensures Enabled(b, Finish(101))
            && var c := Next(b, Finish(101));
               Enabled(c, Grant(0, NEXT)) && Waits(c.queue, 0) && Waits(c.queue, 1) &&
               TwoRunning(Next(c, Grant(0, NEXT)), t)
  {
    var c := Next(b, Finish(101));
    assert Top(c.queue, 0, NEXT);
    assert LAST_TWO - {NEXT} == LAST_ONE;
    assert LAST in LAST_ONE;
  }

  /** A query of group 0 is served for 1000 while group 1 still stands at nothing. */
  lemma ServedOnce(s: State, id: QueryId, k: Key)
    requires s.free == 0 && id in s.running && s.running[id] == Slot(0, 1024, Fresh(id))
    requires s.queue.groups.Keys == {0, 1, 2} && s.queue.groups[2].key.None?
    requires var g := s.queue.groups[0]; g.weight == 1024 && g.vruntime <= 1000 && g.key.Some?
    requires var o := s.queue.groups[1];
             o.vruntime == 0 && o.key.Some? && o.key.value.vruntime == 0 && LeastQuery(o.queries, k)
    ensures Enabled(s, Serve(id, 1000, false)) && Cost(1000, 1024) == 1000
    ensures var a := Next(s, Serve(id, 1000, false));
            && a.queue == Charge(s.queue, 0, 1000) && a.free == 1 && a.running == s.running - {id}
            && a.queue.groups[0].vruntime == s.queue.groups[0].vruntime + 1000 && a.queue.groups[0].key.Some?
            && a.queue.groups[1] == s.queue.groups[1] && Top(a.queue, 1, k)
  {
    var charged := Charge(s.queue, 0, 1000);
    assert charged.groups[0].vruntime == s.queue.groups[0].vruntime + 1000 && charged.groups[1] == s.queue.groups[1];
    assert Top(charged, 1, k);
  }

  const LATE: seq<Step> := [Serve(0, 1000, false)] + ([Grant(1, SOON)] + ([Serve(1, 1000, false)] + []))

  /** Both queries of group 0 are charged, though group 1 falls behind after the first. */
  lemma LateRun(s: State, t: nat)
    requires TwoRunning(s, t)
    ensures Backlogged(s, LATE, 0, 1, 1000)
    ensures var q := Exec(s, LATE, 0, 1, 1000).queue;
            Waits(q, 0) && Waits(q, 1) && q.groups[0].vruntime == 2000 && q.groups[1].vruntime == 0
  {
    ServedOnce(s, 0, SOON);
    var a := Next(s, Serve(0, 1000, false));
    var b := Next(a, Grant(1, SOON));
    assert OtherGroup(t).queries.tree - {SOON} == map[NEXT := Fresh(11)];
    assert NEXT in b.queue.groups[1].queries.tree;
    ServedOnce(b, 1, NEXT);
    BacklogCons(b, Serve(1, 1000, false), []);
    BacklogCons(a, Grant(1, SOON), [Serve(1, 1000, false)] + []);
    BacklogCons(s, Serve(0, 1000, false), [Grant(1, SOON)] + ([Serve(1, 1000, false)] + []));
  }

  /** With two slots or more, a backlogged run ends two charges apart. */
  lemma CrowdDrifts(capacity: nat) returns (steps: seq<Step>)
    requires capacity >= 2
    ensures Drifts(Crowd(capacity), steps, 0, 1, 1000)
  {
    CrowdHolds(capacity);
    CrowdNear(capacity);
    FirstSlot(capacity);
    var a := Next(Crowd(capacity), Finish(100));
    var b := Next(a, Grant(0, SOON));
    SecondSlot(b, capacity);
    var c := Next(b, Finish(101));
    LateRun(Next(c, Grant(0, NEXT)), capacity);
    BacklogCons(c, Grant(0, NEXT), LATE);
    steps := [Grant(0, NEXT)] + LATE;
    BacklogCons(b, Finish(101), steps);
    steps := [Finish(101)] + steps;
    BacklogCons(a, Grant(0, SOON), steps);
    steps := [Grant(0, SOON)] + steps;
    BacklogCons(Crowd(capacity), Finish(100), steps);
    steps := [Finish(100)] + steps;
  }

  lemma CrowdHolds(capacity: nat)
    requires capacity >= 1
    ensures Inv(Crowd(capacity))
  {
    CrowdReached(capacity);
    var steps :| IsRun(Start(capacity, 0), steps) && After(Start(capacity, 0), steps) == Crowd(capacity);
    StartHolds(capacity, 0);
    RunKeeps(Start(capacity, 0), steps);
  }

  lemma BacklogCons(s: State, step: Step, rest: seq<Step>)
    requires Waits(s.queue, 0) && Waits(s.queue, 1) && Enabled(s, step) && Affordable(s, step, 1000)
    requires Backlogged(Next(s, step), rest, 0, 1, 1000)
    ensures Backlogged(s, [step] + rest, 0, 1, 1000)
    ensures Exec(s, [step] + rest, 0, 1, 1000) == Exec(Next(s, step), rest, 0, 1, 1000)
  {
    assert ([step] + rest)[1..] == rest;
  }

  // ---------------------------------------------------------------- arrivals

  /** A new group undercuts another group `g` by no more than the boost exactly when `g`
      has not run past both the floor and the boost. */
  lemma ArrivalUndercutsExactly(q: GroupQueue, g: GroupId, o: GroupId, weight: nat, e: Query)
    requires g in q.groups && o !in q.groups
    ensures var n := Enqueue(q, o, weight, e);
            n.groups[g].vruntime <= n.groups[o].vruntime + q.boost <==>
              q.groups[g].vruntime <= Max(q.minVruntime, q.boost)
  {
  }

  /** One query of group 0 holds the only slot, charged `n` so far, and nothing waits. */
  predicate Lone(s: State, n: nat, boost: nat) {
    && s.free == 0 && 0 in s.running && s.running[0].group == 0
    && s.queue.groups.Keys == {0} && s.queue.minVruntime == 0 && s.queue.boost == boost
    && var g := s.queue.groups[0]; g.vruntime == n && g.weight == BASE_WEIGHT && g.key.None?
  }

  lemma LoneServed(s: State, n: nat, boost: nat)
    requires Lone(s, n, boost) && n < MAX_U64
    ensures Enabled(s, Serve(0, 1, false)) && Lone(Next(s, Serve(0, 1, false)), n + 1, boost)
  {
  }

  lemma {:induction false} LoneReached(n: nat, boost: nat) returns (s: State)
    requires n <= MAX_U64
    ensures Reachable(1, boost, s) && Lone(s, n, boost)
    decreases n
  {
    if n == 0 {
      var start := Start(1, boost);
      ReachStart(1, boost);
      ReachNext(1, boost, start, Admit(0, 0, BASE_WEIGHT, 256));
      var a := Next(start, Admit(0, 0, BASE_WEIGHT, 256));
      assert Top(a.queue, 0, SOON);
      assert a.queue.groups[0].queries.tree - {SOON} == map[];
      ReachNext(1, boost, a, Grant(0, SOON));
      s := Next(a, Grant(0, SOON));
    } else {
      var before := LoneReached(n - 1, boost);
      LoneServed(before, n - 1, boost);
      ReachNext(1, boost, before, Serve(0, 1, false));
      s := Next(before, Serve(0, 1, false));
    }
  }

  /** The floor only rises when a group is picked, so a query that runs alone leaves it
      behind: for every lead there is a run in which a group arrives that far below the one
      that was running, whatever the boost. */
  lemma ArrivalFarBehind(lead: nat, boost: nat) returns (s: State)
    requires lead <= MAX_U64
    ensures Reachable(1, boost, s) && Enabled(s, Admit(1, 1, BASE_WEIGHT, 256))
    ensures var q := Next(s, Admit(1, 1, BASE_WEIGHT, 256)).queue;
            0 in q.groups && 1 in q.groups && q.groups[0].vruntime == q.groups[1].vruntime + lead
  {
    s := LoneReached(lead, boost);
  }

  // ---------------------------------------------------------------- the queue as an object

  /** `slot` is the most deserving query of `before`, and `after` is the queue without it. */
  ghost predicate Picked(before: GroupQueue, slot: Slot, after: GroupQueue) {
    exists k ::
      Top(before, slot.group, k) && after == Pick(before, slot.group, k)
      && slot == Slot(slot.group, before.groups[slot.group].weight, before.groups[slot.group].queries.tree[k])
  }

  class GroupRunQueue {
    var groups: map<GroupId, Group>
    var minVruntime: nat
    var ticket: nat
    const boost: nat

    function Value(): GroupQueue
      reads this
    {
      GroupQueue(groups, minVruntime, ticket, boost)
    }

    constructor (boost: nat)
      ensures Value() == GroupQueue(map[], 0, 0, boost) && Consistent(Value())
    {
      this.boost, groups, minVruntime, ticket := boost, map[], 0, 0;
    }

    method Put(g: GroupId, weight: nat, e: Query)
      requires Consistent(Value())
      modifies this
      ensures Value() == Enqueue(old(Value()), g, weight, e) && Consistent(Value())
    {
      EnqueueKeeps(Value(), g, weight, e);
      var floor := if minVruntime > boost then minVruntime - boost else 0;
      var group := if g in groups then groups[g] else Group(floor, Max(weight, 1), RunQueue(map[], 0, 0), None);
      var queries := EnqueueQuery(group.queries, boost, e);
      if group.key.Some? {
        groups := groups[g := group.(queries := queries)];
      } else {
        var v := Max(group.vruntime, floor);
        groups := groups[g := Group(v, group.weight, queries, Some(Key(v, ticket)))];
        ticket := ticket + 1;
      }
    }

    /** The least query of the least group leaves; the floor rises to that group. */
    method PickNext() returns (r: Option<Slot>)
      requires Consistent(Value())
      modifies this
      ensures Consistent(Value()) && minVruntime >= old(minVruntime)
      ensures r.None? ==> Value() == old(Value()) && forall g :: !Waits(Value(), g)
      ensures r.Some? ==> Picked(old(Value()), r.value, Value())
    {
      var waiting := set a | a in groups && groups[a].key.Some?;
      if waiting == {} {
        forall g ensures !Waits(Value(), g) {
          assert g in groups && groups[g].key.Some? ==> g in waiting;
        }
        return None;
      }
      var g := LeastOf(waiting);
      assert Keyed(Value(), g);
      var group := groups[g];
      var k := LeastKey(group.queries.tree.Keys);
      assert Top(Value(), g, k);
      PickKeeps(Value(), g, k);
      var left := group.queries.tree - {k};
      var query := group.queries.tree[k];
      minVruntime := Max(minVruntime, group.vruntime);
      groups := groups[g := group.(
        queries := group.queries.(tree := left, minVruntime := Max(group.queries.minVruntime, query.vruntime)),
        key := if left == map[] then None else group.key)];
      r := Some(Slot(g, group.weight, query));
    }

    method LeastOf(waiting: set<GroupId>) returns (g: GroupId)
      requires Consistent(Value()) && waiting == (set a | a in groups && groups[a].key.Some?) && waiting != {}
      ensures LeastGroup(Value(), g)
    {
      g :| g in waiting;
      var left := waiting - {g};
      while left != {}
        invariant g in waiting && left <= waiting && g !in left
        invariant forall a :: a in waiting && a !in left && a != g ==> Before(groups[g].key.value, groups[a].key.value)
        decreases left
      {
        var a :| a in left;
        left := left - {a};
        if Before(groups[a].key.value, groups[g].key.value) {
          g := a;
        }
      }
    }

    method ChargeGroup(g: GroupId, service: nat)
      requires Consistent(Value())
      modifies this
      ensures Value() == Charge(old(Value()), g, service) && Consistent(Value())
    {
      ChargeKeeps(Value(), g, service);
      if g in groups {
        var group := groups[g];
        var v := Advance(group.vruntime, service, group.weight);
        if group.key.Some? {
          groups := groups[g := group.(vruntime := v, key := Some(Key(v, ticket)))];
          ticket := ticket + 1;
        } else {
          groups := groups[g := group.(vruntime := v)];
        }
      }
    }
  }

  method LeastKey(keys: set<Key>) returns (k: Key)
    requires keys != {}
    ensures k in keys && forall j :: j in keys && j != k ==> Before(k, j)
  {
    k :| k in keys;
    var left := keys - {k};
    while left != {}
      invariant k in keys && left <= keys && k !in left
      invariant forall j :: j in keys && j !in left && j != k ==> Before(k, j)
      decreases left
    {
      var j :| j in left;
      left := left - {j};
      if Before(j, k) {
        k := j;
      }
    }
  }
}
