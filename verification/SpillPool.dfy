/**
 The node-wide spill memory pool (ferrosa-storage/src/spill_pool.rs). Operators charge the
 rows they buffer; a refused operator keeps buffering up to its floor and then spills.
 Counters are unbounded here; `CountersFit` says when the 64-bit ones agree.
 */
module SpillPool {
  import opened Base

  datatype Admission = Granted | OverLimit | SpillFirst

  /** The shared counters. */
  datatype Pool = Pool(limit: nat, used: nat, exhausted: bool, refused: nat, forced: nat, live: nat)

  /** Where an operator's request stands: none made, refused and about to be forced, or
      refused with the answer to spill first. */
  datatype Request = Idle | Forcing(bytes: nat) | Spilling

  /** One operator's share. `over` is history: bytes admitted over the limit since its
      last release. */
  datatype Charge = Charge(alive: bool, held: nat, floor: nat, over: nat, request: Request)

  datatype System = System(pool: Pool, charges: seq<Charge>)

  function TryAdd(p: Pool, bytes: nat): Pool {
    if p.used + bytes <= p.limit then p.(used := p.used + bytes)
    else p.(refused := p.refused + 1, exhausted := true)
  }

  /** The first atomic update of a request, and what the operator makes of it. */
  function Tried(p: Pool, c: Charge, bytes: nat): Charge {
    if p.used + bytes <= p.limit then c.(held := c.held + bytes)
    else c.(request := if c.held >= c.floor then Spilling else Forcing(bytes))
  }

  /** The second one, which other operators may come before. */
  function ForceAdd(p: Pool, bytes: nat): Pool { p.(used := p.used + bytes, forced := p.forced + 1) }

  function Forced(c: Charge): Charge
    requires c.request.Forcing?
  {
    var bytes := c.request.bytes;
    c.(held := c.held + bytes, over := c.over + bytes, request := Idle)
  }

  function Returned(p: Pool, bytes: nat): Pool
    requires bytes <= p.used
  {
    p.(used := p.used - bytes, exhausted := p.exhausted && p.used - bytes > p.limit / 2)
  }

  // ---------------------------------------------------------------- the objects

  function NewCharge(floor: nat): Charge { Charge(true, 0, Max(floor, 1), 0, Idle) }

  class SharedPool {
    const limit: nat
    var used: nat
    var exhausted: bool
    var refused: nat
    var forced: nat
    var live: nat

    function Value(): Pool
      reads this
    {
      Pool(limit, used, exhausted, refused, forced, live)
    }

    constructor (limit: nat)
      ensures Value() == Pool(Max(limit, 1), 0, false, 0, 0, 0)
    {
      this.limit := Max(limit, 1);
      used, exhausted, refused, forced, live := 0, false, 0, 0, 0;
    }

    method Add(bytes: nat) returns (granted: bool)
      modifies this
      ensures Value() == TryAdd(old(Value()), bytes)
      ensures granted <==> old(used) + bytes <= limit
    {
      granted := used + bytes <= limit;
      if granted {
        used := used + bytes;
      } else {
        refused := refused + 1;
        exhausted := true;
      }
    }

    method Sub(bytes: nat)
      requires bytes <= used
      modifies this
      ensures Value() == Returned(old(Value()), bytes)
    {
      used := used - bytes;
      if used <= limit / 2 {
        exhausted := false;
      }
    }
  }

  class SpillCharge {
    const pool: SharedPool
    const floor: nat
    var held: nat
    ghost var over: nat
    ghost var request: Request

    ghost function Value(): Charge
      reads this
    {
      Charge(true, held, floor, over, request)
    }

    constructor (pool: SharedPool, floor: nat)
      modifies pool
      ensures this.pool == pool && Value() == NewCharge(floor)
      ensures pool.Value() == old(pool.Value()).(live := old(pool.live) + 1)
    {
      this.pool, this.floor, held, over, request := pool, Max(floor, 1), 0, 0, Idle;
      new;
      pool.live := pool.live + 1;
    }

    /** Asks for `bytes`: the first update, and with nobody else in between the second. */
    method Admit(bytes: nat) returns (a: Admission)
      requires request.Idle?
      modifies this, pool
      ensures var p, c := TryAdd(old(pool.Value()), bytes), Tried(old(pool.Value()), old(Value()), bytes);
              if c.request.Forcing?
              then a == OverLimit && pool.Value() == ForceAdd(p, bytes) && Value() == Forced(c)
              else a == (if c.request.Spilling? then SpillFirst else Granted) && pool.Value() == p && Value() == c
    {
      var granted := pool.Add(bytes);
      if granted {
        held := held + bytes;
        return Granted;
      }
      if held >= floor {
        request := Spilling;
        return SpillFirst;
      }
      pool.used := pool.used + bytes;
      pool.forced := pool.forced + 1;
      held, over := held + bytes, over + bytes;
      return OverLimit;
    }

    method ReleaseAll()
      requires held <= pool.used
      modifies this, pool
      ensures Value() == old(Value()).(held := 0, over := 0, request := Idle)
      ensures pool.Value() == if old(held) > 0 then Returned(old(pool.Value()), old(held)) else old(pool.Value())
    {
      if held > 0 {
        pool.Sub(held);
      }
      held, over, request := 0, 0, Idle;
    }

    method OverFairShare() returns (must: bool)
      ensures must <==> pool.exhausted && held > floor && held > pool.limit / Max(pool.live, 1)
    {
      must := pool.exhausted && held > Max(floor, pool.limit / Max(pool.live, 1));
    }
  }

  // ---------------------------------------------------------------- any number of operators

  datatype Step = Open(floor: nat) | Try(op: nat, bytes: nat) | Force(op: nat) | Release(op: nat) | Drop(op: nat)

  predicate Alive(s: System, op: nat) { op < |s.charges| && s.charges[op].alive }

  predicate Enabled(s: System, step: Step) {
    match step
    case Open(_) => true
    case Try(op, _) => Alive(s, op) && s.charges[op].request.Idle?
    case Force(op) => Alive(s, op) && s.charges[op].request.Forcing?
    case Release(op) => Alive(s, op) && !s.charges[op].request.Forcing? && s.charges[op].held <= s.pool.used
    case Drop(op) =>
      Alive(s, op) && !s.charges[op].request.Forcing? && s.charges[op].held <= s.pool.used && s.pool.live > 0
  }

  function Emptied(c: Charge): Charge { c.(held := 0, over := 0, request := Idle) }

  function Released(s: System, op: nat): System
    requires Alive(s, op) && s.charges[op].held <= s.pool.used
  {
    var c := s.charges[op];
    System(if c.held > 0 then Returned(s.pool, c.held) else s.pool, s.charges[op := Emptied(c)])
  }

  function Next(s: System, step: Step): System
    requires Enabled(s, step)
  {
    match step
    case Open(floor) =>
      System(s.pool.(live := s.pool.live + 1), s.charges + [NewCharge(floor)])
    case Try(op, bytes) => System(TryAdd(s.pool, bytes), s.charges[op := Tried(s.pool, s.charges[op], bytes)])
    case Force(op) =>
      System(ForceAdd(s.pool, s.charges[op].request.bytes), s.charges[op := Forced(s.charges[op])])
    case Release(op) => Released(s, op)
    case Drop(op) =>
      var r := Released(s, op);
      System(r.pool.(live := r.pool.live - 1), r.charges[op := r.charges[op].(alive := false)])
  }

  ghost predicate IsRun(s: System, steps: seq<Step>)
    decreases |steps|
  {
    steps == [] || (Enabled(s, steps[0]) && IsRun(Next(s, steps[0]), steps[1..]))
  }

  ghost function Exec(s: System, steps: seq<Step>): System
    requires IsRun(s, steps)
    decreases |steps|
  {
    if steps == [] then s else Exec(Next(s, steps[0]), steps[1..])
  }

  function Empty(limit: nat): System { System(Pool(Max(limit, 1), 0, false, 0, 0, 0), []) }

  // ---------------------------------------------------------------- sums over operators

  function Sum(cs: seq<Charge>, f: Charge -> int): int {
    if cs == [] then 0 else Sum(cs[..|cs| - 1], f) + f(cs[|cs| - 1])
  }

  function Held(c: Charge): int { c.held }

  function Over(c: Charge): int { c.over }

  function Within(c: Charge): int { c.held - c.over }

  function Lives(c: Charge): int { if c.alive then 1 else 0 }

  function Zero(c: Charge): int { 0 }

  function Slack(row: nat): Charge -> int { (c: Charge) => if c.alive then c.floor + row else 0 }

  lemma {:induction false} SumUpdate(cs: seq<Charge>, i: nat, c: Charge, f: Charge -> int)
    requires i < |cs|
    ensures Sum(cs[i := c], f) == Sum(cs, f) - f(cs[i]) + f(c)
    decreases |cs|
  {
    var n := |cs| - 1;
    var updated := cs[i := c];
    if i < n {
      assert updated[..n] == cs[..n][i := c] && updated[n] == cs[n];
      SumUpdate(cs[..n], i, c, f);
    } else {
      assert updated[..n] == cs[..n];
    }
  }

  lemma SumAppend(cs: seq<Charge>, c: Charge, f: Charge -> int)
    ensures Sum(cs + [c], f) == Sum(cs, f) + f(c)
  {
    assert (cs + [c])[..|cs|] == cs;
  }

  lemma {:induction false} SumBound(cs: seq<Charge>, f: Charge -> int, g: Charge -> int)
    requires forall i :: 0 <= i < |cs| ==> f(cs[i]) <= g(cs[i])
    ensures Sum(cs, f) <= Sum(cs, g)
    decreases |cs|
  {
    if cs != [] {
      SumBound(cs[..|cs| - 1], f, g);
    }
  }

  lemma {:induction false} SumMember(cs: seq<Charge>, i: nat, f: Charge -> int)
    requires i < |cs| && forall j :: 0 <= j < |cs| ==> f(cs[j]) >= 0
    ensures 0 <= f(cs[i]) <= Sum(cs, f)
    decreases |cs|
  {
    var n := |cs| - 1;
    if i < n {
      SumMember(cs[..n], i, f);
    } else if n > 0 {
      SumMember(cs[..n], 0, f);
    }
  }

  // ---------------------------------------------------------------- invariant

  /** Bytes over the limit stay below the floor plus one row, also while a row is about to be
      forced; who is told to spill holds its floor; and a dropped operator holds nothing. */
  predicate Sound(c: Charge, row: nat) {
    && c.over <= c.held && c.floor >= 1
    && (c.over > 0 ==> c.over < c.floor + row)
    && (c.request.Forcing? ==> c.held < c.floor && c.request.bytes <= row)
    && (c.request.Spilling? ==> c.held >= c.floor)
    && (!c.alive ==> c.held == 0)
  }

  ghost predicate Inv(s: System, row: nat) {
    && s.pool.used == Sum(s.charges, Held)
    && Sum(s.charges, Within) <= s.pool.limit
    && s.pool.live == Sum(s.charges, Lives)
    && forall i :: 0 <= i < |s.charges| ==> Sound(s.charges[i], row)
  }

  predicate Fits(step: Step, row: nat) { step.Try? ==> step.bytes <= row }

  lemma SumsUpdate(s: System, op: nat, c: Charge)
    requires op < |s.charges|
    ensures var after, was := s.charges[op := c], s.charges[op];
            && Sum(after, Held) == Sum(s.charges, Held) - was.held + c.held
            && Sum(after, Within) == Sum(s.charges, Within) - (was.held - was.over) + (c.held - c.over)
            && Sum(after, Lives) == Sum(s.charges, Lives) - Lives(was) + Lives(c)
  {
    SumUpdate(s.charges, op, c, Held);
    SumUpdate(s.charges, op, c, Within);
    SumUpdate(s.charges, op, c, Lives);
  }

  /** The bytes granted within the limit never exceed the bytes in use. */
  lemma WithinUsed(s: System, row: nat)
    requires Inv(s, row)
    ensures 0 <= Sum(s.charges, Within) <= s.pool.used
  {
    SumBound(s.charges, Within, Held);
    SumBound(s.charges, Zero, Within);
    SumZero(s.charges);
  }

  lemma {:induction false} SumZero(cs: seq<Charge>)
    ensures Sum(cs, Zero) == 0
    decreases |cs|
  {
    if cs != [] {
      SumZero(cs[..|cs| - 1]);
    }
  }

  lemma TryKeeps(s: System, step: Step, row: nat)
    requires Inv(s, row) && step.Try? && Enabled(s, step) && Fits(step, row)
    ensures Inv(Next(s, step), row)
  {
    var c := Tried(s.pool, s.charges[step.op], step.bytes);
    WithinUsed(s, row);
    SumsUpdate(s, step.op, c);
    assert Sound(s.charges[step.op], row) && Sound(c, row);
  }

  lemma ForceKeeps(s: System, step: Step, row: nat)
    requires Inv(s, row) && step.Force? && Enabled(s, step)
    ensures Inv(Next(s, step), row)
  {
    var c := Forced(s.charges[step.op]);
    SumsUpdate(s, step.op, c);
    assert Sound(s.charges[step.op], row) && Sound(c, row);
  }

  /** Returning bytes never returns more than was charged. */
  lemma NeverUnderflows(s: System, row: nat, op: nat)
    requires Inv(s, row) && Alive(s, op)
    ensures s.charges[op].held <= s.pool.used && s.pool.live > 0
  {
    SumMember(s.charges, op, Held);
    SumMember(s.charges, op, Lives);
  }

  lemma ReleaseKeeps(s: System, op: nat, row: nat)
    requires Inv(s, row) && Alive(s, op) && s.charges[op].held <= s.pool.used
    ensures Inv(Released(s, op), row)
  {
    assert Sound(s.charges[op], row);
    SumsUpdate(s, op, Emptied(s.charges[op]));
  }

  lemma SumsAppend(cs: seq<Charge>, c: Charge)
    ensures Sum(cs + [c], Held) == Sum(cs, Held) + c.held
    ensures Sum(cs + [c], Within) == Sum(cs, Within) + c.held - c.over
    ensures Sum(cs + [c], Lives) == Sum(cs, Lives) + Lives(c)
  {
    SumAppend(cs, c, Held);
    SumAppend(cs, c, Within);
    SumAppend(cs, c, Lives);
  }

  lemma SoundAppend(cs: seq<Charge>, c: Charge, row: nat)
    requires Sound(c, row) && forall i :: 0 <= i < |cs| ==> Sound(cs[i], row)
    ensures forall i :: 0 <= i < |cs + [c]| ==> Sound((cs + [c])[i], row)
  {
  }

  lemma OpenKeeps(s: System, step: Step, row: nat)
    requires Inv(s, row) && step.Open?
    ensures Inv(Next(s, step), row)
  {
    var c := NewCharge(step.floor);
    SumsAppend(s.charges, c);
    SoundAppend(s.charges, c, row);
  }

  lemma DropKeeps(s: System, op: nat, row: nat)
    requires Inv(s, row) && Enabled(s, Drop(op))
    ensures Inv(Next(s, Drop(op)), row)
  {
    ReleaseKeeps(s, op, row);
    var r := Released(s, op);
    SumsUpdate(r, op, r.charges[op].(alive := false));
  }

  lemma StepKeeps(s: System, step: Step, row: nat)
    requires Inv(s, row) && Enabled(s, step) && Fits(step, row)
    ensures Inv(Next(s, step), row)
  {
    match step
    case Open(_) => OpenKeeps(s, step, row);
    case Try(_, _) => TryKeeps(s, step, row);
    case Force(_) => ForceKeeps(s, step, row);
    case Release(op) => ReleaseKeeps(s, op, row);
    case Drop(op) => DropKeeps(s, op, row);
  }

  lemma {:induction false} RunKeeps(s: System, steps: seq<Step>, row: nat)
    requires Inv(s, row) && IsRun(s, steps) && forall i :: 0 <= i < |steps| ==> Fits(steps[i], row)
    ensures Inv(Exec(s, steps), row)
    decreases |steps|
  {
    if steps != [] {
      StepKeeps(s, steps[0], row);
      RunKeeps(Next(s, steps[0]), steps[1..], row);
    }
  }

  /** In every run, whatever the operators do: bytes in use are exactly what they hold, and
      stay within the limit plus each live operator's floor and one row. */
  lemma PoolIsBounded(limit: nat, steps: seq<Step>, row: nat)
    requires IsRun(Empty(limit), steps) && forall i :: 0 <= i < |steps| ==> Fits(steps[i], row)
    ensures var s := Exec(Empty(limit), steps);
            && s.pool.used == Sum(s.charges, Held)
            && s.pool.used <= s.pool.limit + Sum(s.charges, Slack(row))
  {
    RunKeeps(Empty(limit), steps, row);
    Bounded(Exec(Empty(limit), steps), row);
  }

  lemma Bounded(s: System, row: nat)
    requires Inv(s, row)
    ensures s.pool.used <= s.pool.limit + Sum(s.charges, Slack(row))
  {
    SumSplit(s.charges);
    forall i | 0 <= i < |s.charges| ensures Over(s.charges[i]) <= Slack(row)(s.charges[i]) {
      assert Sound(s.charges[i], row);
    }
    SumBound(s.charges, Over, Slack(row));
  }

  lemma {:induction false} SumSplit(cs: seq<Charge>)
    ensures Sum(cs, Held) == Sum(cs, Within) + Sum(cs, Over)
    decreases |cs|
  {
    if cs != [] {
      SumSplit(cs[..|cs| - 1]);
    }
  }

  /** With one floor for all, the bound of the documentation. */
  lemma {:induction false} UniformSlack(cs: seq<Charge>, floor: nat, row: nat)
    requires forall i :: 0 <= i < |cs| ==> cs[i].floor == floor
    ensures Sum(cs, Slack(row)) == Sum(cs, Lives) * (floor + row)
    decreases |cs|
  {
    if cs != [] {
      UniformSlack(cs[..|cs| - 1], floor, row);
      var last := Lives(cs[|cs| - 1]);
      assert (Sum(cs[..|cs| - 1], Lives) + last) * (floor + row)
          == Sum(cs[..|cs| - 1], Lives) * (floor + row) + last * (floor + row);
    }
  }

  predicate OpensAt(step: Step, floor: nat) { step.Open? ==> Max(step.floor, 1) == floor }

  predicate Uniform(s: System, floor: nat) { forall i :: 0 <= i < |s.charges| ==> s.charges[i].floor == floor }

  lemma UniformStep(s: System, step: Step, floor: nat)
    requires Enabled(s, step) && OpensAt(step, floor) && Uniform(s, floor)
    ensures Uniform(Next(s, step), floor)
  {
  }

  lemma {:induction false} UniformRun(s: System, steps: seq<Step>, floor: nat)
    requires IsRun(s, steps) && (forall i :: 0 <= i < |steps| ==> OpensAt(steps[i], floor)) && Uniform(s, floor)
    ensures Uniform(Exec(s, steps), floor)
    decreases |steps|
  {
    if steps != [] {
      UniformStep(s, steps[0], floor);
      UniformRun(Next(s, steps[0]), steps[1..], floor);
    }
  }

  lemma UniformBound(s: System, floor: nat, row: nat)
    requires Inv(s, row) && Uniform(s, floor)
    ensures s.pool.used <= s.pool.limit + s.pool.live * (floor + row)
  {
    Bounded(s, row);
    UniformSlack(s.charges, floor, row);
  }

  /** In every run whose operators share one floor: the limit plus a floor and a row for each
      live operator. */
  lemma DocumentedBound(limit: nat, steps: seq<Step>, floor: nat, row: nat)
    requires IsRun(Empty(limit), steps)
    requires forall i :: 0 <= i < |steps| ==> Fits(steps[i], row) && OpensAt(steps[i], floor)
    ensures var p := Exec(Empty(limit), steps).pool; p.used <= p.limit + p.live * (floor + row)
  {
    RunKeeps(Empty(limit), steps, row);
    UniformRun(Empty(limit), steps, floor);
    UniformBound(Exec(Empty(limit), steps), floor, row);
  }

  /** When the bound fits 64 bits, no counter of bytes ever wraps. */
  lemma CountersFit(s: System, row: nat)
    requires Inv(s, row) && s.pool.limit + Sum(s.charges, Slack(row)) < 0x1_0000_0000_0000_0000
    ensures s.pool.used < 0x1_0000_0000_0000_0000
    ensures forall i :: 0 <= i < |s.charges| ==> s.charges[i].held <= s.pool.used
  {
    Bounded(s, row);
    forall i | 0 <= i < |s.charges| ensures s.charges[i].held <= s.pool.used {
      SumMember(s.charges, i, Held);
    }
  }

  /** Every byte comes back: with no operator left, nothing is in use. */
  lemma {:induction false} AllReturned(cs: seq<Charge>, row: nat)
    requires forall i :: 0 <= i < |cs| ==> Sound(cs[i], row) && !cs[i].alive
    ensures Sum(cs, Held) == 0
    decreases |cs|
  {
    if cs != [] {
      AllReturned(cs[..|cs| - 1], row);
    }
  }

  // ---------------------------------------------------------------- spilling

  predicate ByOther(step: Step, op: nat) { step.Open? || step.op != op }

  lemma {:induction false} OthersLeave(s: System, steps: seq<Step>, op: nat)
    requires IsRun(s, steps) && op < |s.charges| && forall i :: 0 <= i < |steps| ==> ByOther(steps[i], op)
    ensures var end := Exec(s, steps); op < |end.charges| && end.charges[op] == s.charges[op]
    decreases |steps|
  {
    if steps != [] {
      OthersLeave(Next(s, steps[0]), steps[1..], op);
    }
  }

  /** One spill is enough: an operator told to spill holds at least its floor, and once it
      has, its next request is admitted, whatever the others do in the meantime and however
      full they leave the pool. */
  lemma OneSpillIsEnough(s: System, op: nat, others: seq<Step>, bytes: nat, row: nat)
    requires Inv(s, row) && Alive(s, op) && s.charges[op].request.Spilling?
    requires Enabled(s, Release(op)) && IsRun(Next(s, Release(op)), others)
    requires forall i :: 0 <= i < |others| ==> ByOther(others[i], op)
    ensures s.charges[op].held >= s.charges[op].floor
    ensures var t := Exec(Next(s, Release(op)), others);
            && Enabled(t, Try(op, bytes))
            && var u := Next(t, Try(op, bytes));
               if Enabled(u, Force(op)) then Next(u, Force(op)).charges[op].held == bytes
               else u.charges[op].held == bytes && u.charges[op].request.Idle?
  {
    assert Sound(s.charges[op], row);
    OthersLeave(Next(s, Release(op)), others, op);
  }

  /** The operator's reasons to spill before its last row: it was told to, or the pool is
      exhausted and it holds more than its share. */
  predicate Called(s: System, op: nat)
    requires Alive(s, op)
  {
    var c := s.charges[op];
    c.request.Spilling? || (s.pool.exhausted && c.held > Max(c.floor, s.pool.limit / Max(s.pool.live, 1)))
  }

  /** No run file is smaller than the floor: in every run, an operator that releases because
      it was called to returns at least its floor to the pool. */
  lemma RunsReachFloor(limit: nat, steps: seq<Step>, op: nat, row: nat)
    requires IsRun(Empty(limit), steps) && forall i :: 0 <= i < |steps| ==> Fits(steps[i], row)
    requires var s := Exec(Empty(limit), steps); Alive(s, op) && Called(s, op) && Enabled(s, Release(op))
    ensures var s := Exec(Empty(limit), steps);
            Next(s, Release(op)).pool.used + s.charges[op].floor <= s.pool.used
  {
    RunKeeps(Empty(limit), steps, row);
    assert Sound(Exec(Empty(limit), steps).charges[op], row);
  }
}
