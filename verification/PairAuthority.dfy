/**
 Ownership of the writer in a two-node pair: the durable authority record, the
 challenge/grant handoff, restarts and reconnects.

 A member is a class whose methods follow the RPC handler, the switchover and the
 pairing code. Each method is proved against a function on `Node` values; the
 protocol is the state machine whose steps are those functions, over a network that
 never forgets a message (so loss, duplication and reordering are all included).
 */
module PairAuthority {
  import opened Base

  /** The two members; `First` is the one with the smaller host id. */
  datatype Member = First | Second

  function Peer(m: Member): Member { if m.First? then Second else First }

  const MAX_GENERATION: nat := 0xFFFF_FFFF_FFFF_FFFF

  /** `pair-authority.json`: who may write, and under which generation. */
  datatype Record = Record(primary: Member, generation: nat)

  /** How writing the record ended; a failed directory sync leaves the new file visible. */
  datatype Persist = Stored | FailedBefore | FailedAfterRename

  datatype Message =
    | Prepare
    | Ready(challenge: nat, generation: nat)
    | Grant(challenge: nat, generation: nat)
    | Accepted(generation: nat)

  /** One member: the durable record, and what a restart forgets. `handoff` is the
      handoff gate held by a switchover in flight. */
  datatype Node = Node(record: Option<Record>, writer: bool, challenge: Option<nat>, handoff: bool)

  datatype Outcome = Outcome(node: Node, reply: Option<Message>)

  function Generation(n: Node): nat {
    if n.record.None? then 0 else n.record.value.generation
  }

  function Write(n: Node, r: Record, p: Persist): Node {
    if p.FailedBefore? then n else n.(record := Some(r))
  }

  function OnPrepare(n: Node, nonce: nat): Outcome {
    if n.writer then Outcome(n, None)
    else Outcome(n.(challenge := Some(nonce)), Some(Ready(nonce, Generation(n))))
  }

  function OnGrant(n: Node, me: Member, c: nat, g: nat, p: Persist): Outcome {
    if g <= Generation(n) then Outcome(n, None)
    else
      var spent := n.(challenge := None);
      if n.challenge != Some(c) || n.writer then Outcome(spent, None)
      else
        var kept := Write(spent, Record(me, g), p);
        if p.Stored? then Outcome(kept.(writer := true), Some(Accepted(g))) else Outcome(kept, None)
  }

  function OnReady(n: Node, me: Member, c: nat, peerGeneration: nat, p: Persist): Outcome {
    var g := Max(Generation(n), peerGeneration) + 1;
    if g > MAX_GENERATION then Outcome(n.(handoff := false), None)
    else
      var fenced := Write(n.(writer := false, handoff := false), Record(Peer(me), g), p);
      Outcome(fenced, if p.Stored? then Some(Grant(c, g)) else None)
  }

  function OnConnect(n: Node, me: Member, p: Persist): Node {
    match n.record
    case Some(r) => n.(writer := r.primary == me && n.writer, challenge := None)
    case None =>
      var kept := Write(n, Record(First, 1), p);
      if p.Stored? then kept.(writer := me.First?, challenge := None) else kept.(writer := false)
  }

  function OnRestart(n: Node): Node { Node(n.record, false, None, false) }

  /** A member in the form the source keeps it: fields updated in place. */
  class PairMember {
    const me: Member
    var record: Option<Record>
    var writer: bool
    var challenge: Option<nat>
    var handoff: bool

    ghost function State(): Node reads this { Node(record, writer, challenge, handoff) }

    constructor (m: Member, onDisk: Option<Record>)
      ensures me == m && State() == Node(onDisk, false, None, false)
    {
      me, record, writer, challenge, handoff := m, onDisk, false, None, false;
    }

    method CurrentGeneration() returns (g: nat)
      ensures g == Generation(State())
    {
      g := if record.Some? then record.value.generation else 0;
    }

    method StoreRecord(primary: Member, generation: nat, p: Persist) returns (ok: bool)
      modifies this`record
      ensures State() == Write(old(State()), Record(primary, generation), p)
      ensures ok == p.Stored?
    {
      if p != FailedBefore {
        record := Some(Record(primary, generation));
      }
      ok := p == Stored;
    }

    method HandlePrepare(nonce: nat) returns (reply: Option<Message>)
      modifies this`challenge
      ensures Outcome(State(), reply) == OnPrepare(old(State()), nonce)
    {
      if writer {
        return None;
      }
      challenge := Some(nonce);
      var current := CurrentGeneration();
      reply := Some(Ready(nonce, current));
    }

    method HandleGrant(c: nat, g: nat, p: Persist) returns (reply: Option<Message>)
      modifies this`record, this`challenge, this`writer
      ensures Outcome(State(), reply) == OnGrant(old(State()), me, c, g, p)
    {
      var current := CurrentGeneration();
      if g <= current {
        return None;
      }
      var taken := challenge;
      challenge := None;
      if taken != Some(c) || writer {
        return None;
      }
      var ok := StoreRecord(me, g, p);
      if !ok {
        return None;
      }
      writer := true;
      reply := Some(Accepted(g));
    }

    method FinishSwitchover(c: nat, peerGeneration: nat, p: Persist) returns (grant: Option<Message>)
      modifies this`record, this`writer, this`handoff
      ensures Outcome(State(), grant) == OnReady(old(State()), me, c, peerGeneration, p)
    {
      handoff := false;
      var current := CurrentGeneration();
      var g := Max(current, peerGeneration) + 1;
      if g > MAX_GENERATION {
        return None;
      }
      writer := false;
      var ok := StoreRecord(Peer(me), g, p);
      grant := if ok then Some(Grant(c, g)) else None;
    }

    method Connect(p: Persist)
      modifies this`record, this`writer, this`challenge
      ensures State() == OnConnect(old(State()), me, p)
    {
      if record.Some? {
        writer := record.value.primary == me && writer;
        challenge := None;
      } else {
        var ok := StoreRecord(First, 1, p);
        writer := ok && me == First;
        if ok {
          challenge := None;
        }
      }
    }
  }

  // ---------------------------------------------------------------- the protocol

  datatype Envelope = Envelope(to: Member, msg: Message)

  /** A moment at which a member's writer opened; bootstrap uses no challenge. */
  datatype Promotion = Promotion(member: Member, challenge: Option<nat>, generation: nat)

  datatype System = System(first: Node, second: Node, net: set<Envelope>, next: nat, log: seq<Promotion>)

  datatype Step =
    | Begin(m: Member)
    | DeliverPrepare(m: Member)
    | DeliverReady(m: Member, challenge: nat, generation: nat, p: Persist)
    | DeliverGrant(m: Member, challenge: nat, generation: nat, p: Persist)
    | Timeout(m: Member)
    | Restart(m: Member)
    | Connect(m: Member, p: Persist)

  function At(s: System, m: Member): Node { if m.First? then s.first else s.second }

  function Put(s: System, m: Member, n: Node): System {
    if m.First? then s.(first := n) else s.(second := n)
  }

  function Send(s: System, to: Member, reply: Option<Message>): System {
    if reply.None? then s else s.(net := s.net + {Envelope(to, reply.value)})
  }

  const BLANK: Node := Node(None, false, None, false)
  const INIT: System := System(BLANK, BLANK, {}, 0, [])

  /** A step that reads a message needs that message sent; one that takes the handoff
      gate needs it free. */
  predicate Enabled(s: System, t: Step) {
    var n := At(s, t.m);
    match t
    case Begin(m) => n.writer && !n.handoff
    case DeliverPrepare(m) => Envelope(m, Prepare) in s.net && !n.handoff
    case DeliverReady(m, c, g, p) => Envelope(m, Ready(c, g)) in s.net && n.handoff
    case DeliverGrant(m, c, g, p) => Envelope(m, Grant(c, g)) in s.net && !n.handoff
    case Timeout(m) => n.handoff
    case Restart(m) => true
    case Connect(m, p) => !n.handoff
  }

  function Promoted(s: System, m: Member, before: Node, after: Node): System {
    if after.writer && !before.writer
    then s.(log := s.log + [Promotion(m, before.challenge, Generation(after))])
    else s
  }

  function Next(s: System, t: Step): System
    requires Enabled(s, t)
  {
    var n := At(s, t.m);
    match t
    case Begin(m) => Send(Put(s, m, n.(handoff := true)), Peer(m), Some(Prepare))
    case DeliverPrepare(m) =>
      var o := OnPrepare(n, s.next);
      Send(Put(s, m, o.node), Peer(m), o.reply).(next := s.next + 1)
    case DeliverReady(m, c, g, p) =>
      var o := OnReady(n, m, c, g, p);
      Send(Put(s, m, o.node), Peer(m), o.reply)
    case DeliverGrant(m, c, g, p) =>
      var o := OnGrant(n, m, c, g, p);
      Promoted(Send(Put(s, m, o.node), Peer(m), o.reply), m, n, o.node)
    case Timeout(m) => Put(s, m, n.(handoff := false))
    case Restart(m) => Put(s, m, OnRestart(n))
    case Connect(m, p) =>
      var after := OnConnect(n, m, p);
      Promoted(Put(s, m, after), m, n.(challenge := None), after)
  }

  /** `steps` is a run from `s`: every step is enabled where it is taken. */
  predicate IsRun(s: System, steps: seq<Step>)
    decreases |steps|
  {
    steps == [] || (Enabled(s, steps[0]) && IsRun(Next(s, steps[0]), steps[1..]))
  }

  function Exec(s: System, steps: seq<Step>): System
    requires IsRun(s, steps)
    decreases |steps|
  {
    if steps == [] then s else Exec(Next(s, steps[0]), steps[1..])
  }

  // ---------------------------------------------------------------- safety

  predicate AtMostOneWriter(s: System) { !(s.first.writer && s.second.writer) }

  /** A grant `m` would accept: it answers the challenge `m` holds now. */
  predicate LiveGrant(s: System, m: Member, c: nat, g: nat) {
    && Envelope(m, Grant(c, g)) in s.net
    && At(s, m).challenge == Some(c)
    && Generation(At(s, m)) < g
  }

  ghost predicate HasLiveGrant(s: System, m: Member) { exists c, g :: LiveGrant(s, m, c, g) }

  /** The writer role exists in one place only: a member, or one grant on its way. */
  ghost predicate OneToken(s: System) {
    && AtMostOneWriter(s)
    && (forall m :: HasLiveGrant(s, m) ==> !s.first.writer && !s.second.writer && !HasLiveGrant(s, Peer(m)))
  }

  predicate Bootstrapped(s: System) {
    s.first.record.None? ==>
      !s.first.writer && !s.second.writer && s.log == [] && forall e :: e in s.net ==> !e.msg.Grant?
  }

  predicate NodeOk(s: System, m: Member) {
    var n := At(s, m);
    && (n.writer ==> n.record.Some? && n.record.value.primary == m)
    && (n.handoff ==> n.writer)
    && (n.challenge.Some? ==> n.challenge.value < s.next)
  }

  predicate ChallengesKnown(s: System) {
    && (forall e :: e in s.net && e.msg.Ready? ==> e.msg.challenge < s.next)
    && (forall e :: e in s.net && e.msg.Grant? ==> e.msg.challenge < s.next)
    && (s.first.challenge.Some? ==> s.first.challenge != s.second.challenge)
  }

  /** Generations of successive promotions strictly increase: each is a fencing token. */
  predicate LogIncreasing(log: seq<Promotion>) {
    forall i, j :: 0 <= i < j < |log| ==> log[i].generation < log[j].generation
  }

  /** No challenge opened a writer twice, and none that did is still held. */
  predicate ChallengesSpent(s: System) {
    && (forall i, j :: 0 <= i < j < |s.log| && s.log[i].challenge.Some? ==> s.log[i].challenge != s.log[j].challenge)
    && (forall i, m :: 0 <= i < |s.log| && s.log[i].challenge.Some? ==> At(s, m).challenge != s.log[i].challenge)
    && (forall i :: 0 <= i < |s.log| && s.log[i].challenge.Some? ==> s.log[i].challenge.value < s.next)
  }

  /** Whoever may write next does so under a generation above every logged one. */
  ghost predicate LogBelow(s: System) {
    && (forall i, m :: 0 <= i < |s.log| && At(s, m).writer ==> s.log[i].generation <= Generation(At(s, m)))
    && (forall i, m, c, g :: 0 <= i < |s.log| && LiveGrant(s, m, c, g) ==> s.log[i].generation < g)
  }

  ghost predicate Inv(s: System) {
    && OneToken(s)
    && Bootstrapped(s)
    && NodeOk(s, First) && NodeOk(s, Second)
    && ChallengesKnown(s)
    && LogIncreasing(s.log)
    && ChallengesSpent(s)
    && LogBelow(s)
  }

  /** Fewer live grants in `s'` than in `s`. */
  ghost predicate NoNewGrant(s: System, s': System) {
    forall m, c, g :: LiveGrant(s', m, c, g) ==> LiveGrant(s, m, c, g)
  }

  lemma NoNewGrantHolders(s: System, s': System)
    requires NoNewGrant(s, s')
    ensures forall m :: HasLiveGrant(s', m) ==> HasLiveGrant(s, m)
  {
    forall m | HasLiveGrant(s', m)
      ensures HasLiveGrant(s, m)
    {
      var c, g :| LiveGrant(s', m, c, g);
      assert LiveGrant(s, m, c, g);
    }
  }

  lemma BeginKeeps(s: System, m: Member)
    requires Inv(s) && Enabled(s, Begin(m))
    ensures Inv(Next(s, Begin(m)))
  {
    NoNewGrantHolders(s, Next(s, Begin(m)));
  }

  lemma TimeoutKeeps(s: System, m: Member)
    requires Inv(s) && Enabled(s, Timeout(m))
    ensures Inv(Next(s, Timeout(m)))
  {
    NoNewGrantHolders(s, Next(s, Timeout(m)));
  }

  lemma RestartKeeps(s: System, m: Member)
    requires Inv(s) && Enabled(s, Restart(m))
    ensures Inv(Next(s, Restart(m)))
  {
    NoNewGrantHolders(s, Next(s, Restart(m)));
  }

  lemma PrepareKeeps(s: System, m: Member)
    requires Inv(s) && Enabled(s, DeliverPrepare(m))
    ensures Inv(Next(s, DeliverPrepare(m)))
  {
    var s' := Next(s, DeliverPrepare(m));
    assert NoNewGrant(s, s');
    NoNewGrantHolders(s, s');
  }

  lemma ConnectKeeps(s: System, m: Member, p: Persist)
    requires Inv(s) && Enabled(s, Connect(m, p))
    ensures Inv(Next(s, Connect(m, p)))
  {
    var s' := Next(s, Connect(m, p));
    assert NoNewGrant(s, s');
    NoNewGrantHolders(s, s');
  }

  /** Withdrawing puts the token on the wire: the only live grant is the new one. */
  lemma ReadyGrants(s: System, m: Member, c: nat, g: nat, p: Persist)
    requires Inv(s) && Enabled(s, DeliverReady(m, c, g, p))
    ensures var s' := Next(s, DeliverReady(m, c, g, p));
            forall k, c': nat, g': nat :: LiveGrant(s', k, c', g') ==>
              k == Peer(m) && g' > Generation(At(s, m)) && !At(s', m).writer
  {
    var s' := Next(s, DeliverReady(m, c, g, p));
    assert At(s, m).writer;
    assert !HasLiveGrant(s, First) && !HasLiveGrant(s, Second);
    assert forall k, c': nat, g': nat :: !LiveGrant(s, k, c', g');
    forall k, c': nat, g': nat | LiveGrant(s', k, c', g')
      ensures k == Peer(m) && g' > Generation(At(s, m)) && !At(s', m).writer
    {
      assert !LiveGrant(s, k, c', g');
      assert Envelope(k, Grant(c', g')) !in s.net;
    }
  }

  lemma ReadyKeepsToken(s: System, m: Member, c: nat, g: nat, p: Persist)
    requires Inv(s) && Enabled(s, DeliverReady(m, c, g, p))
    ensures OneToken(Next(s, DeliverReady(m, c, g, p)))
  {
    ReadyGrants(s, m, c, g, p);
    var s' := Next(s, DeliverReady(m, c, g, p));
    assert At(s, m).writer && !At(s, Peer(m)).writer && At(s', Peer(m)) == At(s, Peer(m));
  }

  lemma ReadyKeepsLog(s: System, m: Member, c: nat, g: nat, p: Persist)
    requires Inv(s) && Enabled(s, DeliverReady(m, c, g, p))
    ensures ChallengesSpent(Next(s, DeliverReady(m, c, g, p))) && LogBelow(Next(s, DeliverReady(m, c, g, p)))
  {
    ReadyGrants(s, m, c, g, p);
    assert At(s, m).writer;
  }

  lemma ReadyKeeps(s: System, m: Member, c: nat, g: nat, p: Persist)
    requires Inv(s) && Enabled(s, DeliverReady(m, c, g, p))
    ensures Inv(Next(s, DeliverReady(m, c, g, p)))
  {
    ReadyKeepsToken(s, m, c, g, p);
    ReadyKeepsLog(s, m, c, g, p);
  }

  /** A member opens its writer on a grant only if that grant was the live one. */
  lemma PromotedByLiveGrant(s: System, m: Member, c: nat, g: nat, p: Persist)
    requires NodeOk(s, m) && Enabled(s, DeliverGrant(m, c, g, p))
    ensures var n := OnGrant(At(s, m), m, c, g, p).node;
            n.writer && !At(s, m).writer ==> HasLiveGrant(s, m) && LiveGrant(s, m, c, g) && Generation(n) == g
  {
    if OnGrant(At(s, m), m, c, g, p).node.writer && !At(s, m).writer {
      assert LiveGrant(s, m, c, g);
    }
  }

  /** Accepting takes the token off the wire. */
  lemma GrantKeepsToken(s: System, m: Member, c: nat, g: nat, p: Persist)
    requires Inv(s) && Enabled(s, DeliverGrant(m, c, g, p))
    ensures NoNewGrant(s, Next(s, DeliverGrant(m, c, g, p)))
    ensures OneToken(Next(s, DeliverGrant(m, c, g, p)))
  {
    var s' := Next(s, DeliverGrant(m, c, g, p));
    PromotedByLiveGrant(s, m, c, g, p);
    NoNewGrantHolders(s, s');
    assert At(s', m).writer ==> !HasLiveGrant(s', m);
  }

  /** The state after an accepted grant, with only the fields the log facts need. */
  lemma AcceptedGrantLog(s: System, s': System, m: Member, c: nat, g: nat)
    requires Inv(s) && LiveGrant(s, m, c, g) && NoNewGrant(s, s') && OneToken(s')
    requires s'.log == s.log + [Promotion(m, Some(c), g)] && s'.next == s.next
    requires At(s', m).challenge.None? && At(s', m).writer && Generation(At(s', m)) == g
    requires At(s', Peer(m)) == At(s, Peer(m))
    ensures LogIncreasing(s'.log) && ChallengesSpent(s') && LogBelow(s')
  {
    assert !At(s', Peer(m)).writer;
    assert forall i :: 0 <= i < |s.log| ==> s.log[i].generation < g && s.log[i].challenge != Some(c);
    assert forall k, c', g' :: !LiveGrant(s', k, c', g') by {
      forall k, c', g' | LiveGrant(s', k, c', g') ensures false { assert HasLiveGrant(s', k); }
    }
  }

  lemma GrantKeepsLog(s: System, m: Member, c: nat, g: nat, p: Persist)
    requires Inv(s) && Enabled(s, DeliverGrant(m, c, g, p))
    ensures LogIncreasing(Next(s, DeliverGrant(m, c, g, p)).log)
    ensures ChallengesSpent(Next(s, DeliverGrant(m, c, g, p)))
    ensures LogBelow(Next(s, DeliverGrant(m, c, g, p)))
  {
    var s' := Next(s, DeliverGrant(m, c, g, p));
    PromotedByLiveGrant(s, m, c, g, p);
    GrantKeepsToken(s, m, c, g, p);
    if s'.log != s.log {
      AcceptedGrantLog(s, s', m, c, g);
    }
  }

  lemma GrantKeeps(s: System, m: Member, c: nat, g: nat, p: Persist)
    requires Inv(s) && Enabled(s, DeliverGrant(m, c, g, p))
    ensures Inv(Next(s, DeliverGrant(m, c, g, p)))
  {
    GrantKeepsToken(s, m, c, g, p);
    GrantKeepsLog(s, m, c, g, p);
    PromotedByLiveGrant(s, m, c, g, p);
  }

  lemma StepKeeps(s: System, t: Step)
    requires Inv(s) && Enabled(s, t)
    ensures Inv(Next(s, t))
  {
    match t
    case Begin(m) => BeginKeeps(s, m);
    case DeliverPrepare(m) => PrepareKeeps(s, m);
    case DeliverReady(m, c, g, p) => ReadyKeeps(s, m, c, g, p);
    case DeliverGrant(m, c, g, p) => GrantKeeps(s, m, c, g, p);
    case Timeout(m) => TimeoutKeeps(s, m);
    case Restart(m) => RestartKeeps(s, m);
    case Connect(m, p) => ConnectKeeps(s, m, p);
  }

  lemma StepMovesForward(s: System, t: Step)
    requires Enabled(s, t)
    ensures forall m :: Generation(At(s, m)) <= Generation(At(Next(s, t), m))
    ensures s.log <= Next(s, t).log
  {
  }

  lemma {:induction false} RunKeeps(s: System, steps: seq<Step>)
    requires Inv(s) && IsRun(s, steps)
    ensures Inv(Exec(s, steps))
    decreases |steps|
  {
    if steps != [] {
      StepKeeps(s, steps[0]);
      RunKeeps(Next(s, steps[0]), steps[1..]);
    }
  }

  /** Along any run from any state, no member's generation goes back and no promotion
      is forgotten. */
  lemma {:induction false} RunMovesForward(s: System, steps: seq<Step>, m: Member)
    requires IsRun(s, steps)
    ensures Generation(At(s, m)) <= Generation(At(Exec(s, steps), m))
    ensures s.log <= Exec(s, steps).log
    decreases |steps|
  {
    if steps != [] {
      StepMovesForward(s, steps[0]);
      RunMovesForward(Next(s, steps[0]), steps[1..], m);
    }
  }

  /** Every run of the pair: one open writer at most, generations that never go back,
      promotions under strictly increasing generations, each challenge used once. */
  lemma PairIsSafe(steps: seq<Step>)
    requires IsRun(INIT, steps)
    ensures AtMostOneWriter(Exec(INIT, steps))
    ensures LogIncreasing(Exec(INIT, steps).log)
    ensures ChallengesSpent(Exec(INIT, steps))
  {
    RunKeeps(INIT, steps);
  }

  // ---------------------------------------------------------------- availability

  /** Somebody writes, or could: bootstrap is still to come or a grant is live. */
  ghost predicate TokenExists(s: System) {
    s.first.record.None? || s.first.writer || s.second.writer || HasLiveGrant(s, First) || HasLiveGrant(s, Second)
  }

  lemma LostTokenStaysLost(s: System, t: Step)
    requires Inv(s) && Enabled(s, t) && !TokenExists(s)
    ensures !TokenExists(Next(s, t))
  {
    var s' := Next(s, t);
    assert forall m, c, g :: !LiveGrant(s, m, c, g) by {
      forall m, c, g | LiveGrant(s, m, c, g) ensures false { assert HasLiveGrant(s, m); }
    }
    match t {
      case DeliverPrepare(m) => assert NoNewGrant(s, s');
      case DeliverGrant(m, c, g, p) =>
        PromotedByLiveGrant(s, m, c, g, p);
        assert NoNewGrant(s, s');
      case Connect(m, p) => assert NoNewGrant(s, s');
      case Restart(m) => assert NoNewGrant(s, s');
      case _ =>
    }
    NoNewGrantHolders(s, s');
  }

  lemma {:induction false} LostTokenRun(s: System, steps: seq<Step>)
    requires Inv(s) && IsRun(s, steps) && !TokenExists(s)
    ensures !TokenExists(Exec(s, steps))
    decreases |steps|
  {
    if steps != [] {
      LostTokenStaysLost(s, steps[0]);
      StepKeeps(s, steps[0]);
      LostTokenRun(Next(s, steps[0]), steps[1..]);
    }
  }

  ghost predicate CanWriteAgain(s: System) {
    exists steps :: IsRun(s, steps) && (Exec(s, steps).first.writer || Exec(s, steps).second.writer)
  }

  lemma ReachWriter(s: System, steps: seq<Step>)
    requires IsRun(s, steps) && (Exec(s, steps).first.writer || Exec(s, steps).second.writer)
    ensures CanWriteAgain(s)
  {
  }

  lemma OneStepRun(s: System, t: Step)
    requires Enabled(s, t)
    ensures IsRun(s, [t]) && Exec(s, [t]) == Next(s, t)
  {
    assert [t][1..] == [];
  }

  /** Without an operator, the pair can ever write again exactly while the token exists:
      a handoff that lost its grant fences both members for good. */
  lemma WritableExactlyWithToken(s: System)
    requires Inv(s)
    ensures CanWriteAgain(s) <==> TokenExists(s)
  {
    if TokenExists(s) {
      if s.first.writer || s.second.writer {
        ReachWriter(s, []);
      } else if s.first.record.None? {
        OneStepRun(s, Connect(First, Stored));
        ReachWriter(s, [Connect(First, Stored)]);
      } else {
        var m := if HasLiveGrant(s, First) then First else Second;
        var c, g :| LiveGrant(s, m, c, g);
        OneStepRun(s, DeliverGrant(m, c, g, Stored));
        ReachWriter(s, [DeliverGrant(m, c, g, Stored)]);
      }
    }
    if CanWriteAgain(s) {
      var steps :| IsRun(s, steps) && (Exec(s, steps).first.writer || Exec(s, steps).second.writer);
      if !TokenExists(s) {
        LostTokenRun(s, steps);
      }
    }
  }

  /** A restarted writer cannot resume on its own: its record alone proves nothing. */
  lemma RestartLosesToken(s: System, m: Member)
    requires Inv(s) && At(s, m).writer
    ensures !CanWriteAgain(Next(s, Restart(m)))
  {
    var s' := Next(s, Restart(m));
    assert !HasLiveGrant(s, First) && !HasLiveGrant(s, Second);
    NoNewGrantHolders(s, s');
    RestartKeeps(s, m);
    WritableExactlyWithToken(s');
  }

  /** A grant that the member it is for has not recorded. */
  predicate Outstanding(s: System, m: Member, c: nat, g: nat) {
    Envelope(m, Grant(c, g)) in s.net && Generation(At(s, m)) < g
  }

  /** While a grant is outstanding nobody writes, and there is no other. */
  ghost predicate Sole(s: System) {
    && (forall m, c, g :: Outstanding(s, m, c, g) ==> !s.first.writer && !s.second.writer)
    && (forall m, c, g, k, d, h :: Outstanding(s, m, c, g) && Outstanding(s, k, d, h) ==> m == k && c == d && g == h)
  }

  /** No step but the withdrawal of a writer makes a grant outstanding. */
  lemma OutstandingBefore(s: System, t: Step, m: Member, c: nat, g: nat)
    requires Inv(s) && Enabled(s, t) && Outstanding(Next(s, t), m, c, g)
    ensures Outstanding(s, m, c, g) || (t.DeliverReady? && At(s, t.m).writer && t.p.Stored? && m == Peer(t.m)
              && c == t.challenge && g == Max(Generation(At(s, t.m)), t.generation) + 1)
  {
    StepMovesForward(s, t);
  }

  lemma SoleStep(s: System, t: Step)
    requires Inv(s) && Sole(s) && Enabled(s, t)
    ensures Sole(Next(s, t))
  {
    var n := Next(s, t);
    forall m, c, g | Outstanding(n, m, c, g) ensures !n.first.writer && !n.second.writer {
      OutstandingBefore(s, t, m, c, g);
      NobodyOpens(s, t, m, c, g);
    }
    forall m, c, g, k, d, h | Outstanding(n, m, c, g) && Outstanding(n, k, d, h) ensures m == k && c == d && g == h {
      OutstandingBefore(s, t, m, c, g);
      OutstandingBefore(s, t, k, d, h);
    }
  }

  lemma NobodyOpens(s: System, t: Step, m: Member, c: nat, g: nat)
    requires Inv(s) && Sole(s) && Enabled(s, t) && Outstanding(Next(s, t), m, c, g)
    ensures !Next(s, t).first.writer && !Next(s, t).second.writer
  {
    OutstandingBefore(s, t, m, c, g);
    if t.DeliverGrant? {
      GrantOpensNobody(s, t, m, c, g);
    } else if t.DeliverReady? {
      assert NodeOk(s, t.m) && At(s, t.m).writer && !At(s, Peer(t.m)).writer;
      assert !Outstanding(s, m, c, g);
      assert !At(Next(s, t), t.m).writer && At(Next(s, t), Peer(t.m)) == At(s, Peer(t.m));
    } else if t.Connect? {
      assert s.first.record.Some?;
    }
  }

  lemma GrantOpensNobody(s: System, t: Step, m: Member, c: nat, g: nat)
    requires Sole(s) && Enabled(s, t) && t.DeliverGrant? && Outstanding(s, m, c, g) && Outstanding(Next(s, t), m, c, g)
    ensures !Next(s, t).first.writer && !Next(s, t).second.writer
  {
    var k, n := t.m, Next(s, t);
    if At(n, k).writer {
      assert Generation(At(s, k)) < t.generation == Generation(At(n, k));
      assert Outstanding(s, k, t.challenge, t.generation);
    }
    assert At(n, Peer(k)) == At(s, Peer(k));
  }

  lemma {:induction false} SoleRun(s: System, steps: seq<Step>)
    requires Inv(s) && Sole(s) && IsRun(s, steps)
    ensures Sole(Exec(s, steps))
    decreases |steps|
  {
    if steps != [] {
      SoleStep(s, steps[0]);
      StepKeeps(s, steps[0]);
      SoleRun(Next(s, steps[0]), steps[1..]);
    }
  }

  /** A grant of higher generation that answers an older challenge uses up the one held now,
      but in every run it comes too late to do harm: nobody writes, no grant is live, and
      without an operator the pair would not have written again anyway. */
  lemma StaleGrantTooLate(steps: seq<Step>, m: Member, c: nat, g: nat, p: Persist)
    requires IsRun(INIT, steps) && Enabled(Exec(INIT, steps), DeliverGrant(m, c, g, p))
    requires var n := At(Exec(INIT, steps), m); Generation(n) < g && n.challenge != Some(c)
    ensures !CanWriteAgain(Exec(INIT, steps)) && !CanWriteAgain(Next(Exec(INIT, steps), DeliverGrant(m, c, g, p)))
  {
    RunKeeps(INIT, steps);
    SoleRun(INIT, steps);
    var s := Exec(INIT, steps);
    assert Outstanding(s, m, c, g);
    assert forall k, d, h :: LiveGrant(s, k, d, h) ==> Outstanding(s, k, d, h);
    assert s.first.record.Some?;
    assert !TokenExists(s);
    LostTokenStaysLost(s, DeliverGrant(m, c, g, p));
    StepKeeps(s, DeliverGrant(m, c, g, p));
    WritableExactlyWithToken(s);
    WritableExactlyWithToken(Next(s, DeliverGrant(m, c, g, p)));
  }

  /** What does lose a live grant is a prepare delivered again before it: the new challenge
      fences both members until an operator acts. */
  lemma PreparedAgainFences(s: System, m: Member)
    requires Inv(s) && HasLiveGrant(s, m) && Enabled(s, DeliverPrepare(m))
    ensures CanWriteAgain(s) && !CanWriteAgain(Next(s, DeliverPrepare(m)))
  {
    var n := Next(s, DeliverPrepare(m));
    StepKeeps(s, DeliverPrepare(m));
    assert n.first.record.Some? && !n.first.writer && !n.second.writer;
    assert !HasLiveGrant(s, Peer(m));
    assert forall k, c, g :: LiveGrant(n, k, c, g) ==> k == Peer(m) && LiveGrant(s, Peer(m), c, g);
    assert !TokenExists(n);
    WritableExactlyWithToken(s);
    WritableExactlyWithToken(n);
  }
}
