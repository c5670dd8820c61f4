/**
 Keeping cached measurements across a change of the recorded toolchain identity
 (`toolchain_only_unresolved`, `should_adopt` and the adoption pass of `main` in
 scripts/lean_gap_inventory.py). A fingerprint is taken to be injective: it stands for the
 sources and the identity it was hashed from.
 */
module Adoption {
  import opened Base

  type Crate = string
  type Source = nat
  type Identity = map<string, string>

  const UNKNOWN: string := "unknown"

  datatype Fingerprint = Fingerprint(source: Source, tools: Identity)

  /** A cached row. `from` and `adoptions` are history: the sources and identity it was
      measured under, and how often it has been adopted since. */
  datatype Row = Row(fingerprint: Fingerprint, measured: bool, concluded: bool, from: Fingerprint, adoptions: nat)

  predicate Resolved(tools: Identity) { forall k :: k in tools ==> tools[k] != UNKNOWN }

  /** The two never disagree on a tool both resolved. */
  predicate Agree(a: Identity, b: Identity) {
    a.Keys == b.Keys && forall k :: k in a ==> a[k] == b[k] || a[k] == UNKNOWN || b[k] == UNKNOWN
  }

  predicate ToolchainOnlyUnresolved(recorded: Identity, current: Identity) {
    && recorded.Keys == current.Keys && recorded != current
    && forall k :: k in recorded ==> recorded[k] == current[k] || UNKNOWN in {recorded[k], current[k]}
  }

  predicate ShouldAdopt(prev: Row, atRecorded: Fingerprint, now: Fingerprint, recorded: Identity, current: Identity) {
    && prev.measured && prev.fingerprint == atRecorded && prev.fingerprint != now
    && ToolchainOnlyUnresolved(recorded, current)
  }

  // ---------------------------------------------------------------- runs over one state file

  datatype State = State(recorded: Identity, rows: map<Crate, Row>)

  /** One run: the identity and sources it finds, whether it may adopt, the crates it
      measured with the outcome, and whether it got as far as recording its identity. */
  datatype Pass = Pass(tools: Identity, sources: map<Crate, Source>, rekey: bool, measures: map<Crate, bool>,
        finished: bool)

  predicate Adopts(s: State, p: Pass, c: Crate) {
    && p.rekey && c in s.rows && c in p.sources
    && !(s.rows[c].concluded && s.rows[c].fingerprint == Fingerprint(p.sources[c], p.tools))
    && ShouldAdopt(s.rows[c], Fingerprint(p.sources[c], s.recorded), Fingerprint(p.sources[c], p.tools),
                   s.recorded, p.tools)
  }

  predicate Enabled(s: State, p: Pass) {
    p.measures.Keys <= p.sources.Keys && forall c :: c in p.measures ==> !Adopts(s, p, c)
  }

  function Next(s: State, p: Pass): State
    requires Enabled(s, p)
  {
    var adopted := set c | c in s.rows && Adopts(s, p, c);
    State(if adopted != {} || p.finished then p.tools else s.recorded,
          map c | c in s.rows.Keys + p.measures.Keys ::
            if c in p.measures then
              var fp := Fingerprint(p.sources[c], p.tools);
              Row(fp, true, p.measures[c], fp, 0)
            else if c in adopted then
              s.rows[c].(fingerprint := Fingerprint(p.sources[c], p.tools), adoptions := s.rows[c].adoptions + 1)
            else s.rows[c])
  }

  ghost predicate IsRun(s: State, passes: seq<Pass>)
    decreases |passes|
  {
    passes == [] || (Enabled(s, passes[0]) && IsRun(Next(s, passes[0]), passes[1..]))
  }

  ghost function Exec(s: State, passes: seq<Pass>): State
    requires IsRun(s, passes)
    decreases |passes|
  {
    if passes == [] then s else Exec(Next(s, passes[0]), passes[1..])
  }

  /** A row as measured, or adopted once onto a resolved identity it never contradicts. */
  predicate Honest(r: Row) {
    && r.fingerprint.source == r.from.source && r.adoptions <= 1
    && (r.adoptions == 0 ==> r.fingerprint == r.from)
    && (r.adoptions == 1 ==> Resolved(r.fingerprint.tools) && Agree(r.from.tools, r.fingerprint.tools))
  }

  predicate AllHonest(s: State) { forall c :: c in s.rows ==> Honest(s.rows[c]) }

  /** Two resolved identities are never adopted into one another. */
  lemma ResolvedNeverAdopts(recorded: Identity, current: Identity)
    requires Resolved(recorded) && Resolved(current)
    ensures !ToolchainOnlyUnresolved(recorded, current)
  {
    if recorded.Keys == current.Keys && forall k :: k in recorded ==> recorded[k] == current[k] {
      assert recorded == current;
    }
  }

  lemma AdoptedHonest(s: State, p: Pass, c: Crate)
    requires AllHonest(s) && Resolved(p.tools) && Adopts(s, p, c)
    ensures s.rows[c].adoptions == 0 && s.rows[c].from.source == p.sources[c] && Agree(s.rows[c].from.tools, p.tools)
  {
    assert Honest(s.rows[c]);
    if s.rows[c].adoptions == 1 {
      ResolvedNeverAdopts(s.recorded, p.tools);
    }
  }

  lemma PassKeeps(s: State, p: Pass)
    requires AllHonest(s) && Enabled(s, p) && Resolved(p.tools)
    ensures AllHonest(Next(s, p))
  {
    var n := Next(s, p);
    forall c | c in n.rows ensures Honest(n.rows[c]) {
      if c !in p.measures {
        assert Honest(s.rows[c]);
        if Adopts(s, p, c) {
          AdoptedHonest(s, p, c);
        }
      }
    }
  }

  /** Over every sequence of runs with a resolved identity, each row has been adopted at
      most once, its sources never changed, and it never crossed from one resolved value
      of a tool to another. */
  lemma {:induction false} RunsStayHonest(s: State, passes: seq<Pass>)
    requires AllHonest(s) && IsRun(s, passes) && forall i :: 0 <= i < |passes| ==> Resolved(passes[i].tools)
    ensures AllHonest(Exec(s, passes))
    decreases |passes|
  {
    if passes != [] {
      PassKeeps(s, passes[0]);
      RunsStayHonest(Next(s, passes[0]), passes[1..]);
    }
  }

  function At(version: string): Identity { map["charon" := version] }

  /** A run whose own identity is unresolved breaks the chain: two adoptions carry a row
      measured under version 1 over to version 2. */
  lemma UnresolvedRunCarriesAcross()
    ensures var fp := Fingerprint(0, At("1"));
            var s := State(At("1"), map["a" := Row(fp, true, true, fp, 0)]);
            var sources := map["a" := 0];
            var blind, later := Pass(At(UNKNOWN), sources, true, map[], true),
                                Pass(At("2"), sources, true, map[], true);
            && AllHonest(s) && Enabled(s, blind) && Enabled(Next(s, blind), later)
            && var end := Next(Next(s, blind), later);
               "a" in end.rows && end.rows["a"].fingerprint == Fingerprint(0, At("2"))
               && end.rows["a"].from == fp && !Agree(end.rows["a"].from.tools, At("2"))
  {
    var fp := Fingerprint(0, At("1"));
    var s := State(At("1"), map["a" := Row(fp, true, true, fp, 0)]);
    var sources := map["a" := 0];
    var blind, later := Pass(At(UNKNOWN), sources, true, map[], true), Pass(At("2"), sources, true, map[], true);
    assert At("1")["charon"] == "1" && At("2")["charon"] == "2" && At(UNKNOWN)["charon"] == UNKNOWN;
    assert |"1"| != |UNKNOWN| && |"2"| != |UNKNOWN|;
    assert Adopts(s, blind, "a");
    var mid := Next(s, blind);
    assert "a" in (set c | c in s.rows && Adopts(s, blind, c));
    assert mid.recorded == At(UNKNOWN) && mid.rows["a"].fingerprint == Fingerprint(0, At(UNKNOWN));
    assert Adopts(mid, later, "a");
    assert "a" in (set c | c in mid.rows && Adopts(mid, later, c));
  }
}
