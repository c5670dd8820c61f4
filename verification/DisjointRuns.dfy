/**
 Grouping SSTables into key-disjoint runs before a range merge
 (ferrosa-storage/src/range_merger.rs). Keys are decorated keys, which order by token and
 then key; an integer stands for a place in that order. A table's bounds are absent when
 they do not decode.
 */
module DisjointRuns {
  import opened Base
  import opened CompactionPurge

  type DecoratedKey = int

  datatype Bounds = Bounds(low: DecoratedKey, high: DecoratedKey)

  datatype Entry = Entry(key: DecoratedKey, part: Partition)

  datatype Table = Table(bounds: Option<Bounds>, entries: seq<Entry>)

  predicate Ascending(s: seq<Entry>) { forall i, j :: 0 <= i < j < |s| ==> s[i].key < s[j].key }

  predicate Within(b: Bounds, s: seq<Entry>) {
    b.low <= b.high && forall i :: 0 <= i < |s| ==> b.low <= s[i].key <= b.high
  }

  /** Bounds that decode are the table's real smallest and largest keys. */
  predicate Truthful(t: Table) { Ascending(t.entries) && (t.bounds.Some? ==> Within(t.bounds.value, t.entries)) }

  // ---------------------------------------------------------------- grouping

  predicate Follows(bounds: seq<Option<Bounds>>, a: nat, b: nat) {
    a < |bounds| && b < |bounds| && bounds[a].Some? && bounds[b].Some? && bounds[a].value.high < bounds[b].value.low
  }

  predicate IsRun(bounds: seq<Option<Bounds>>, run: seq<nat>) {
    && run != [] && (forall i :: 0 <= i < |run| ==> run[i] < |bounds|)
    && (|run| > 1 ==> forall i :: 0 <= i < |run| - 1 ==> Follows(bounds, run[i], run[i + 1]))
  }

  function Flatten(runs: seq<seq<nat>>): seq<nat> { if runs == [] then [] else runs[0] + Flatten(runs[1..]) }

  function Upto(n: nat): seq<nat> { seq(n, i => i) }

  predicate SortedByLow(bounds: seq<Option<Bounds>>, s: seq<nat>) {
    && (forall i :: 0 <= i < |s| ==> s[i] < |bounds| && bounds[s[i]].Some?)
    && forall i, j :: 0 <= i < j < |s| ==> bounds[s[i]].value.low <= bounds[s[j]].value.low
  }

  lemma {:induction false} FlattenSnoc(runs: seq<seq<nat>>, run: seq<nat>)
    ensures Flatten(runs + [run]) == Flatten(runs) + run
    decreases |runs|
  {
    if runs == [] {
      assert runs + [run] == [run] && [run][1..] == [];
    } else {
      FlattenSnoc(runs[1..], run);
      assert (runs + [run])[1..] == runs[1..] + [run];
    }
  }

  lemma {:induction false} FlattenGrow(runs: seq<seq<nat>>, r: nat, x: nat)
    requires r < |runs|
    ensures multiset(Flatten(runs[r := runs[r] + [x]])) == multiset(Flatten(runs)) + multiset{x}
    decreases |runs|
  {
    var grown := runs[r := runs[r] + [x]];
    if r == 0 {
      assert grown[1..] == runs[1..];
      assert runs[0] + [x] + Flatten(runs[1..]) == runs[0] + ([x] + Flatten(runs[1..]));
    } else {
      assert grown[1..] == runs[1..][r - 1 := runs[1..][r - 1] + [x]];
      FlattenGrow(runs[1..], r - 1, x);
    }
  }

  lemma InsertedSorted(bounds: seq<Option<Bounds>>, s: seq<nat>, x: nat, i: nat)
    requires SortedByLow(bounds, s) && x < |bounds| && bounds[x].Some? && i <= |s|
    requires i > 0 ==> bounds[s[i - 1]].value.low <= bounds[x].value.low
    requires forall j :: i <= j < |s| ==> bounds[s[j]].value.low > bounds[x].value.low
    ensures SortedByLow(bounds, s[..i] + [x] + s[i..])
  {
    var r := s[..i] + [x] + s[i..];
    assert forall j :: 0 <= j < i ==> r[j] == s[j];
    assert forall j :: i < j < |r| ==> r[j] == s[j - 1];
  }

  lemma InsertedSame(s: seq<nat>, x: nat, i: nat)
    requires i <= |s|
    ensures multiset(s[..i] + [x] + s[i..]) == multiset(s) + multiset{x}
  {
    assert s == s[..i] + s[i..];
  }

  /** Insert an index after those with a smaller or equal low bound: the sort is stable. */
  method InsertByLow(bounds: seq<Option<Bounds>>, s: seq<nat>, x: nat) returns (r: seq<nat>)
    requires SortedByLow(bounds, s) && x < |bounds| && bounds[x].Some?
    ensures SortedByLow(bounds, r) && multiset(r) == multiset(s) + multiset{x}
  {
    var i := |s|;
    while i > 0 && bounds[s[i - 1]].value.low > bounds[x].value.low
      invariant 0 <= i <= |s|
      invariant forall j :: i <= j < |s| ==> bounds[s[j]].value.low > bounds[x].value.low
    {
      i := i - 1;
    }
    r := s[..i] + [x] + s[i..];
    InsertedSorted(bounds, s, x, i);
    InsertedSame(s, x, i);
  }

  function Last(run: seq<nat>): nat
    requires run != []
  {
    run[|run| - 1]
  }

  /** A run whose tables all have bounds. */
  predicate Colored(bounds: seq<Option<Bounds>>, run: seq<nat>) {
    IsRun(bounds, run) && forall i :: 0 <= i < |run| ==> bounds[run[i]].Some?
  }

  predicate Tail(bounds: seq<Option<Bounds>>, run: seq<nat>, x: nat) {
    run != [] && Follows(bounds, Last(run), x)
  }

  /** The first run the table can be appended to, or the number of runs. */
  method FirstFit(bounds: seq<Option<Bounds>>, runs: seq<seq<nat>>, x: nat) returns (r: nat)
    requires x < |bounds| && bounds[x].Some? && forall i :: 0 <= i < |runs| ==> Colored(bounds, runs[i])
    ensures r <= |runs| && (r < |runs| ==> Tail(bounds, runs[r], x))
    ensures forall i :: 0 <= i < r ==> !Tail(bounds, runs[i], x)
  {
    r := 0;
    while r < |runs| && bounds[x].value.low <= bounds[Last(runs[r])].value.high
      invariant r <= |runs| && forall i :: 0 <= i < r ==> !Tail(bounds, runs[i], x)
    {
      r := r + 1;
    }
  }

  predicate Covers(bounds: seq<Option<Bounds>>, a: nat, at: DecoratedKey) {
    a < |bounds| && bounds[a].Some? && bounds[a].value.low <= at <= bounds[a].value.high
  }

  predicate AllCover(bounds: seq<Option<Bounds>>, who: set<nat>, at: DecoratedKey) {
    forall a :: a in who ==> Covers(bounds, a, at)
  }

  predicate Ordered(bounds: seq<Option<Bounds>>) {
    forall i :: 0 <= i < |bounds| && bounds[i].Some? ==> bounds[i].value.low <= bounds[i].value.high
  }

  /** Some key lies within `n` different tables. */
  ghost predicate Crowded(bounds: seq<Option<Bounds>>, n: nat) {
    n == 0 || exists at: DecoratedKey, who: set<nat> :: AllCover(bounds, who, at) && |who| == n
  }

  /** Where greedy coloring stands after the tables of `done`, taken by low bound. */
  ghost predicate Coloring(bounds: seq<Option<Bounds>>, done: seq<nat>, runs: seq<seq<nat>>) {
    && (forall i :: 0 <= i < |runs| ==> Colored(bounds, runs[i]))
    && multiset(Flatten(runs)) == multiset(done)
    && (Ordered(bounds) ==> Crowded(bounds, |runs|))
  }

  lemma {:induction false} FlattenHas(runs: seq<seq<nat>>, r: nat, i: nat)
    requires r < |runs| && i < |runs[r]|
    ensures runs[r][i] in Flatten(runs)
    decreases |runs|
  {
    if r > 0 {
      FlattenHas(runs[1..], r - 1, i);
    }
  }

  /** The lasts of different runs are different tables. */
  lemma {:induction false} LastsDistinct(runs: seq<seq<nat>>)
    requires forall i :: 0 <= i < |runs| ==> runs[i] != []
    requires forall x :: x in Flatten(runs) ==> multiset(Flatten(runs))[x] == 1
    ensures |set i | 0 <= i < |runs| :: Last(runs[i])| == |runs|
    decreases |runs|
  {
    if runs != [] {
      var rest := runs[1..];
      assert multiset(Flatten(runs)) == multiset(runs[0]) + multiset(Flatten(rest));
      var head := runs[0];
      assert forall x :: x in head <==> x in multiset(head);
      forall x | x in Flatten(rest) ensures multiset(Flatten(rest))[x] == 1 && x !in head {
        assert x in multiset(Flatten(rest)) && x in Flatten(runs);
      }
      LastsDistinct(rest);
      var lasts := set i | 0 <= i < |rest| :: Last(rest[i]);
      assert Last(runs[0]) !in lasts by {
        forall i | 0 <= i < |rest| ensures Last(rest[i]) != Last(runs[0]) {
          FlattenHas(rest, i, |rest[i]| - 1);
        }
      }
      assert (set i | 0 <= i < |runs| :: Last(runs[i])) == {Last(runs[0])} + lasts by {
        assert forall i :: 0 <= i < |rest| ==> Last(rest[i]) == Last(runs[i + 1]);
        assert forall i :: 1 <= i < |runs| ==> Last(runs[i]) == Last(rest[i - 1]);
      }
    }
  }

  /** Opening a run at `x` means every run already ends in a table that reaches `x`. */
  lemma NewRunCrowds(bounds: seq<Option<Bounds>>, done: seq<nat>, runs: seq<seq<nat>>, x: nat)
    requires Coloring(bounds, done, runs) && x < |bounds| && bounds[x].Some? && x !in done
    requires forall y :: y in done ==> multiset(done)[y] == 1
    requires Ordered(bounds)
    requires forall y :: y in done ==> y < |bounds| && bounds[y].Some? && bounds[y].value.low <= bounds[x].value.low
    requires forall i :: 0 <= i < |runs| ==> !Tail(bounds, runs[i], x)
    ensures Crowded(bounds, |runs| + 1)
  {
    assert forall y :: y in Flatten(runs) <==> y in multiset(Flatten(runs));
    assert forall y :: y in done <==> y in multiset(done);
    LastsDistinct(runs);
    var lasts := set i | 0 <= i < |runs| :: Last(runs[i]);
    forall i | 0 <= i < |runs| ensures Covers(bounds, Last(runs[i]), bounds[x].value.low) && Last(runs[i]) != x {
      FlattenHas(runs, i, |runs[i]| - 1);
      assert !Tail(bounds, runs[i], x);
    }
    assert AllCover(bounds, lasts + {x}, bounds[x].value.low);
    assert |lasts + {x}| == |runs| + 1;
  }

  lemma GrownRun(bounds: seq<Option<Bounds>>, run: seq<nat>, x: nat)
    requires Colored(bounds, run) && Tail(bounds, run, x)
    ensures Colored(bounds, run + [x])
  {
    var grown := run + [x];
    forall i | 0 <= i < |grown| - 1 ensures Follows(bounds, grown[i], grown[i + 1]) {
      if i < |run| - 1 {
        assert Follows(bounds, run[i], run[i + 1]);
      }
    }
  }

  lemma ColoringGrows(bounds: seq<Option<Bounds>>, done: seq<nat>, runs: seq<seq<nat>>, x: nat, r: nat)
    requires Coloring(bounds, done, runs) && r < |runs| && Tail(bounds, runs[r], x)
    ensures Coloring(bounds, done + [x], runs[r := runs[r] + [x]])
  {
    GrownRun(bounds, runs[r], x);
    FlattenGrow(runs, r, x);
  }

  lemma ColoringOpens(bounds: seq<Option<Bounds>>, done: seq<nat>, runs: seq<seq<nat>>, x: nat)
    requires Coloring(bounds, done, runs) && x < |bounds| && bounds[x].Some? && x !in done
    requires forall y :: y in done ==> multiset(done)[y] == 1
    requires forall y :: y in done ==> y < |bounds| && bounds[y].Some? && bounds[y].value.low <= bounds[x].value.low
    requires forall i :: 0 <= i < |runs| ==> !Tail(bounds, runs[i], x)
    ensures Coloring(bounds, done + [x], runs + [[x]])
  {
    if Ordered(bounds) {
      NewRunCrowds(bounds, done, runs, x);
    }
    FlattenSnoc(runs, [x]);
  }

  method Color(bounds: seq<Option<Bounds>>, sorted: seq<nat>) returns (runs: seq<seq<nat>>)
    requires SortedByLow(bounds, sorted) && forall x :: x in sorted ==> multiset(sorted)[x] == 1
    ensures Coloring(bounds, sorted, runs)
  {
    runs := [];
    for n := 0 to |sorted|
      invariant Coloring(bounds, sorted[..n], runs)
    {
      var x := sorted[n];
      var r := FirstFit(bounds, runs, x);
      PrefixOnce(sorted, n);
      assert sorted[..n + 1] == sorted[..n] + [x];
      if r < |runs| {
        ColoringGrows(bounds, sorted[..n], runs, x, r);
        runs := runs[r := runs[r] + [x]];
      } else {
        ColoringOpens(bounds, sorted[..n], runs, x);
        runs := runs + [[x]];
      }
    }
    assert sorted[..|sorted|] == sorted;
  }

  lemma PrefixOnce(s: seq<nat>, n: nat)
    requires n < |s| && forall x :: x in s ==> multiset(s)[x] == 1
    ensures s[n] !in s[..n] && forall x :: x in s[..n] ==> multiset(s[..n])[x] == 1
  {
    var rest := s[n + 1..];
    assert s == s[..n] + [s[n]] + rest;
    assert multiset(s) == multiset(s[..n]) + multiset{s[n]} + multiset(rest);
    forall x | x in s[..n] ensures multiset(s[..n])[x] == 1 && x != s[n] {
      assert x in multiset(s[..n]) && x in s;
    }
  }

  function Bare(bounds: seq<Option<Bounds>>, n: nat): seq<nat>
    requires n <= |bounds|
  {
    if n == 0 then [] else if bounds[n - 1].None? then Bare(bounds, n - 1) + [n - 1] else Bare(bounds, n - 1)
  }

  /** The indices with bounds, by low bound; every index below `n` is there or bare. */
  method SortDecodable(bounds: seq<Option<Bounds>>) returns (sorted: seq<nat>)
    ensures SortedByLow(bounds, sorted)
    ensures multiset(sorted) + multiset(Bare(bounds, |bounds|)) == multiset(Upto(|bounds|))
  {
    sorted := [];
    for n := 0 to |bounds|
      invariant SortedByLow(bounds, sorted)
      invariant multiset(sorted) + multiset(Bare(bounds, n)) == multiset(Upto(n))
    {
      UptoMore(bounds, n);
      Swap(multiset(sorted), multiset(Bare(bounds, n)), multiset{n});
      if bounds[n].Some? {
        sorted := InsertByLow(bounds, sorted, n);
      }
    }
  }

  lemma Swap(a: multiset<nat>, b: multiset<nat>, c: multiset<nat>)
    ensures a + c + b == a + b + c && a + (b + c) == a + b + c
  {
  }

  lemma UptoMore(bounds: seq<Option<Bounds>>, n: nat)
    requires n < |bounds|
    ensures multiset(Upto(n + 1)) == multiset(Upto(n)) + multiset{n}
    ensures multiset(Bare(bounds, n + 1)) ==
              multiset(Bare(bounds, n)) + (if bounds[n].None? then multiset{n} else multiset{})
  {
    assert Upto(n + 1) == Upto(n) + [n];
  }

  lemma {:induction false} UptoOnce(n: nat, x: nat)
    ensures multiset(Upto(n))[x] == if x < n then 1 else 0
  {
    if n > 0 {
      UptoOnce(n - 1, x);
      assert Upto(n) == Upto(n - 1) + [n - 1];
    }
  }

  /** A table that cannot be shown disjoint from any other stays alone. */
  predicate Lone(bounds: seq<Option<Bounds>>, run: seq<nat>) {
    |run| == 1 && run[0] < |bounds| && bounds[run[0]].None?
  }

  method AppendBare(bounds: seq<Option<Bounds>>, colored: seq<seq<nat>>) returns (runs: seq<seq<nat>>)
    ensures |colored| <= |runs| && runs[..|colored|] == colored
    ensures forall r :: |colored| <= r < |runs| ==> Lone(bounds, runs[r])
    ensures multiset(Flatten(runs)) == multiset(Flatten(colored)) + multiset(Bare(bounds, |bounds|))
  {
    runs := colored;
    for n := 0 to |bounds|
      invariant Appending(bounds, colored, runs, n)
    {
      UptoMore(bounds, n);
      if bounds[n].None? {
        BareAppended(bounds, colored, runs, n);
        runs := runs + [[n]];
      }
    }
  }

  /** The undecodable tables before `n` follow the coloured runs, one by one. */
  ghost predicate Appending(bounds: seq<Option<Bounds>>, colored: seq<seq<nat>>, runs: seq<seq<nat>>, n: nat) {
    && n <= |bounds| && |colored| <= |runs| && runs[..|colored|] == colored
    && (forall r :: |colored| <= r < |runs| ==> Lone(bounds, runs[r]))
    && multiset(Flatten(runs)) == multiset(Flatten(colored)) + multiset(Bare(bounds, n))
  }

  lemma BareAppended(bounds: seq<Option<Bounds>>, colored: seq<seq<nat>>, runs: seq<seq<nat>>, n: nat)
    requires n < |bounds| && bounds[n].None? && Appending(bounds, colored, runs, n)
    ensures Appending(bounds, colored, runs + [[n]], n + 1)
  {
    UptoMore(bounds, n);
    BareMore(runs, multiset(Flatten(colored)), multiset(Bare(bounds, n)), n);
    assert (runs + [[n]])[..|colored|] == runs[..|colored|];
  }

  lemma BareMore(runs: seq<seq<nat>>, colored: multiset<nat>, bare: multiset<nat>, n: nat)
    requires multiset(Flatten(runs)) == colored + bare
    ensures multiset(Flatten(runs + [[n]])) == colored + (bare + multiset{n})
  {
    FlattenSnoc(runs, [n]);
    Swap(colored, bare, multiset{n});
  }

  /** The grouping as a whole: every table is in exactly one run, every run is disjoint, and
      no fewer colored runs would do. */
  method GroupRuns(bounds: seq<Option<Bounds>>) returns (runs: seq<seq<nat>>, colored: nat)
    ensures colored <= |runs| && (Ordered(bounds) ==> Crowded(bounds, colored))
    ensures forall r :: 0 <= r < colored ==> Colored(bounds, runs[r])
    ensures forall r :: colored <= r < |runs| ==> Lone(bounds, runs[r])
    ensures multiset(Flatten(runs)) == multiset(Upto(|bounds|))
  {
    var sorted := SortDecodable(bounds);
    forall x | x in sorted ensures multiset(sorted)[x] == 1 {
      UptoOnce(|bounds|, x);
      assert x in multiset(sorted);
    }
    var first := Color(bounds, sorted);
    colored := |first|;
    runs := AppendBare(bounds, first);
    assert forall r :: 0 <= r < colored ==> runs[r] == runs[..colored][r];
  }

  /** Two tables of one run never share a key. */
  lemma {:induction false} RunApart(bounds: seq<Option<Bounds>>, run: seq<nat>, i: nat, j: nat)
    requires Ordered(bounds) && IsRun(bounds, run) && i < j < |run|
    ensures Follows(bounds, run[i], run[j])
    decreases j
  {
    assert Follows(bounds, run[j - 1], run[j]);
    if i < j - 1 {
      RunApart(bounds, run, i, j - 1);
    }
  }

  /** The number of colored runs is the least possible: any grouping into disjoint runs
      needs one run for each table over a common key. */
  lemma {:induction false} CrowdNeedsRuns(bounds: seq<Option<Bounds>>, who: set<nat>, at: DecoratedKey,
        runs: seq<seq<nat>>)
    requires Ordered(bounds) && AllCover(bounds, who, at)
    requires forall r :: 0 <= r < |runs| ==> IsRun(bounds, runs[r])
    requires forall a :: a in who ==> a in Flatten(runs)
    ensures |who| <= |runs|
    decreases |runs|
  {
    if runs != [] && who != {} {
      var here := set a | a in who && a in runs[0];
      forall a, b | a in here && b in here ensures a == b {
        OneCovers(bounds, runs[0], a, b, at);
      }
      AtMostOne(here);
      CrowdNeedsRuns(bounds, who - here, at, runs[1..]);
    }
  }

  lemma OneCovers(bounds: seq<Option<Bounds>>, run: seq<nat>, a: nat, b: nat, at: DecoratedKey)
    requires Ordered(bounds) && IsRun(bounds, run) && a in run && b in run && Covers(bounds, a, at) &&
             Covers(bounds, b, at)
    ensures a == b
  {
    var i :| 0 <= i < |run| && run[i] == a;
    var j :| 0 <= j < |run| && run[j] == b;
    if i < j {
      RunApart(bounds, run, i, j);
    } else if j < i {
      RunApart(bounds, run, j, i);
    }
  }

  lemma AtMostOne(s: set<nat>)
    requires forall a, b :: a in s && b in s ==> a == b
    ensures |s| <= 1
  {
    if s != {} {
      var a :| a in s;
      assert s == {a};
    }
  }

  // ---------------------------------------------------------------- merging

  /** The copies of a partition in a list of entries, and in several lists. */
  function PartAt(s: seq<Entry>, k: DecoratedKey): multiset<Partition> {
    if s == [] then multiset{}
    else (if s[0].key == k then multiset{s[0].part} else multiset{}) + PartAt(s[1..], k)
  }

  function PartsAt(sources: seq<seq<Entry>>, k: DecoratedKey): multiset<Partition> {
    if sources == [] then multiset{} else PartAt(sources[0], k) + PartsAt(sources[1..], k)
  }

  lemma {:induction false} PartAtJoin(a: seq<Entry>, b: seq<Entry>, k: DecoratedKey)
    ensures PartAt(a + b, k) == PartAt(a, k) + PartAt(b, k)
    decreases |a|
  {
    if a == [] {
      assert a + b == b;
    } else {
      assert (a + b)[1..] == a[1..] + b;
      PartAtJoin(a[1..], b, k);
    }
  }

  lemma {:induction false} NoPartAt(s: seq<Entry>, k: DecoratedKey)
    ensures PartAt(s, k) == multiset{} <==> forall i :: 0 <= i < |s| ==> s[i].key != k
    decreases |s|
  {
    if s != [] {
      NoPartAt(s[1..], k);
      assert forall i :: 0 < i < |s| ==> s[i] == s[1..][i - 1];
      if PartAt(s, k) == multiset{} {
        assert s[0].part !in PartAt(s, k);
        forall i | 0 <= i < |s| ensures s[i].key != k {
          assert i > 0 ==> s[1..][i - 1].key != k;
        }
      }
    }
  }

  lemma {:induction false} NoPartsAt(sources: seq<seq<Entry>>, k: DecoratedKey)
    ensures PartsAt(sources, k) == multiset{} <==>
              forall n :: 0 <= n < |sources| ==> PartAt(sources[n], k) == multiset{}
    decreases |sources|
  {
    if sources != [] {
      NoPartsAt(sources[1..], k);
      assert forall n :: 0 < n < |sources| ==> sources[n] == sources[1..][n - 1];
      if PartsAt(sources, k) == multiset{} {
        assert |PartAt(sources[0], k)| + |PartsAt(sources[1..], k)| == 0;
        forall n | 0 <= n < |sources| ensures PartAt(sources[n], k) == multiset{} {
          assert n > 0 ==> PartAt(sources[1..][n - 1], k) == multiset{};
        }
      }
    }
  }

  lemma {:induction false} PartsUpdate(sources: seq<seq<Entry>>, n: nat, s: seq<Entry>, k: DecoratedKey)
    requires n < |sources|
    ensures PartsAt(sources[n := s], k) + PartAt(sources[n], k) == PartsAt(sources, k) + PartAt(s, k)
    decreases |sources|
  {
    var updated := sources[n := s];
    if n == 0 {
      assert updated[1..] == sources[1..];
    } else {
      var rest := sources[1..];
      assert updated[1..] == rest[n - 1 := s] && rest[n - 1] == sources[n];
      PartsUpdate(rest, n - 1, s, k);
      var first := PartAt(sources[0], k);
      assert PartsAt(updated, k) == first + PartsAt(rest[n - 1 := s], k);
      assert first + PartsAt(rest[n - 1 := s], k) + PartAt(sources[n], k) == first + (PartsAt(rest, k) + PartAt(s, k));
    }
  }

  lemma PartsSame(sources: seq<seq<Entry>>, n: nat, s: seq<Entry>, k: DecoratedKey)
    requires n < |sources| && PartAt(s, k) == PartAt(sources[n], k)
    ensures PartsAt(sources[n := s], k) == PartsAt(sources, k)
  {
    PartsUpdate(sources, n, s, k);
    Cancel(PartsAt(sources[n := s], k), PartsAt(sources, k), PartAt(s, k));
  }

  lemma Cancel<T>(a: multiset<T>, b: multiset<T>, c: multiset<T>)
    requires a + c == b + c
    ensures a == b
  {
    forall p ensures a[p] == b[p] {
      assert (a + c)[p] == (b + c)[p];
    }
  }

  /** Taking the head off one source takes exactly that copy away. */
  lemma TakeHead(sources: seq<seq<Entry>>, n: nat)
    requires n < |sources| && sources[n] != []
    ensures var taken := sources[n := sources[n][1..]];
            && (forall k :: k != sources[n][0].key ==> PartsAt(taken, k) == PartsAt(sources, k))
            && PartsAt(taken, sources[n][0].key) + multiset{sources[n][0].part} == PartsAt(sources, sources[n][0].key)
            && Total(taken) + 1 == Total(sources)
  {
    var rest, key, part := sources[n][1..], sources[n][0].key, sources[n][0].part;
    forall k | k != key ensures PartsAt(sources[n := rest], k) == PartsAt(sources, k) {
      PartsSame(sources, n, rest, k);
    }
    PartsUpdate(sources, n, rest, key);
    var taken := sources[n := rest];
    assert PartsAt(taken, key) + (multiset{part} + PartAt(rest, key)) == PartsAt(sources, key) + PartAt(rest, key);
    Cancel(PartsAt(taken, key) + multiset{part}, PartsAt(sources, key), PartAt(rest, key));
    TotalUpdate(sources, n, rest);
  }

  datatype Merged = Merged(key: DecoratedKey, part: Partition)

  /** `part` is what folding these copies, in some order, and suppressing what is deleted
      comes to. */
  ghost predicate Combines(copies: multiset<Partition>, part: Partition) {
    exists parts: seq<Partition> :: parts != [] && multiset(parts) == copies && part == SuppressAll(MergeAll(parts))
  }

  predicate Wanted(start: Option<DecoratedKey>, end: Option<DecoratedKey>, k: DecoratedKey) {
    (start.Some? ==> start.value <= k) && (end.Some? ==> k <= end.value)
  }

  /** The copies of the partitions a scan is asked for. */
  function Copies(sources: seq<seq<Entry>>, start: Option<DecoratedKey>,
                  end: Option<DecoratedKey>): DecoratedKey -> multiset<Partition>
  {
    k => if Wanted(start, end, k) then PartsAt(sources, k) else multiset{}
  }

  predicate Lists(out: seq<Merged>, k: DecoratedKey) { exists i :: 0 <= i < |out| && out[i].key == k }

  predicate Rising(out: seq<Merged>) { forall i, j :: 0 <= i < j < |out| ==> out[i].key < out[j].key }

  /** `out` lists, in key order, each key that has copies, once, with all its copies merged. */
  ghost predicate Enumerates(copies: DecoratedKey -> multiset<Partition>, out: seq<Merged>) {
    && Rising(out)
    && (forall i :: 0 <= i < |out| ==> Combines(copies(out[i].key), out[i].part))
    && (forall k :: copies(k) != multiset{} ==> Lists(out, k))
  }

  /** The same keys, and partitions no read can tell apart. */
  ghost predicate Agree(x: seq<Merged>, y: seq<Merged>) {
    |x| == |y| && forall i :: 0 <= i < |x| ==> x[i].key == y[i].key && SamePartition(x[i].part, y[i].part)
  }

  lemma CombinesOnce(copies: multiset<Partition>, p: Partition, q: Partition)
    requires Combines(copies, p) && Combines(copies, q)
    ensures SamePartition(p, q)
  {
    var xs: seq<Partition> :| xs != [] && multiset(xs) == copies && p == SuppressAll(MergeAll(xs));
    var ys: seq<Partition> :| ys != [] && multiset(ys) == copies && q == SuppressAll(MergeAll(ys));
    ReadAnyOrder(xs, ys);
  }

  lemma CombinesSome(copies: multiset<Partition>, p: Partition)
    requires Combines(copies, p)
    ensures copies != multiset{}
  {
    var xs: seq<Partition> :| xs != [] && multiset(xs) == copies && p == SuppressAll(MergeAll(xs));
    assert xs[0] in multiset(xs);
  }

  /** That leaves one possible output, as far as a read can tell. */
  lemma EnumeratesOnce(copies: DecoratedKey -> multiset<Partition>, x: seq<Merged>, y: seq<Merged>)
    requires Enumerates(copies, x) && Enumerates(copies, y)
    ensures Agree(x, y)
  {
    forall k ensures Lists(x, k) <==> Lists(y, k) {
      ListedHeld(copies, x, k);
      ListedHeld(copies, y, k);
    }
    SameKeys(x, y, Min(|x|, |y|));
    SameLength(x, y);
    SameLength(y, x);
    forall i | 0 <= i < |x| ensures SamePartition(x[i].part, y[i].part) {
      CombinesOnce(copies(x[i].key), x[i].part, y[i].part);
    }
  }

  lemma ListedHeld(copies: DecoratedKey -> multiset<Partition>, out: seq<Merged>, k: DecoratedKey)
    requires Enumerates(copies, out)
    ensures Lists(out, k) <==> copies(k) != multiset{}
  {
    if Lists(out, k) {
      var i :| 0 <= i < |out| && out[i].key == k;
      CombinesSome(copies(k), out[i].part);
    }
  }

  predicate KeysAgree(x: seq<Merged>, y: seq<Merged>, n: nat) {
    n <= |x| && n <= |y| && forall i :: 0 <= i < n ==> x[i].key == y[i].key
  }

  /** Two rising lists of the same keys are the same list of keys. */
  lemma {:induction false} SameKeys(x: seq<Merged>, y: seq<Merged>, n: nat)
    requires Rising(x) && Rising(y) && (forall k :: Lists(x, k) <==> Lists(y, k)) && n <= |x| && n <= |y|
    ensures KeysAgree(x, y, n)
  {
    if n > 0 {
      var m := n - 1;
      SameKeys(x, y, m);
      assert Lists(x, x[m].key) && Lists(y, y[m].key);
      NotEarlier(x, y, m);
      NotEarlier(y, x, m);
    }
  }

  lemma NotEarlier(x: seq<Merged>, y: seq<Merged>, m: nat)
    requires Rising(x) && Rising(y) && m < |x| && m < |y| && KeysAgree(x, y, m) && Lists(y, x[m].key)
    ensures y[m].key <= x[m].key
  {
  }

  lemma SameLength(x: seq<Merged>, y: seq<Merged>)
    requires Rising(y) && (forall k :: Lists(x, k) <==> Lists(y, k)) && KeysAgree(x, y, Min(|x|, |y|))
    ensures |y| <= |x|
  {
    assert |x| < |y| ==> Lists(y, y[|x|].key);
  }

  /** The rows a COUNT over the output counts. */
  function Count(out: seq<Merged>): nat {
    if out == [] then 0 else Count(out[..|out| - 1]) + |out[|out| - 1].part.rows|
  }

  lemma {:induction false} CountsAgree(x: seq<Merged>, y: seq<Merged>)
    requires Agree(x, y)
    ensures Count(x) == Count(y)
    decreases |x|
  {
    if x != [] {
      var m := |x| - 1;
      assert Agree(x[..m], y[..m]);
      CountsAgree(x[..m], y[..m]);
      assert SamePartition(x[m].part, y[m].part);
      assert |x[m].part.rows| == |x[m].part.rows.Keys| == |y[m].part.rows.Keys| == |y[m].part.rows|;
    }
  }

  /** The merge over whatever sources it is given, one per table or one per run. */
  class RangeMerger {
    var sources: seq<seq<Entry>>
    var exhausted: bool
    const start: Option<DecoratedKey>
    const end: Option<DecoratedKey>

    ghost predicate Valid()
      reads this
    {
      && (forall n :: 0 <= n < |sources| ==> Ascending(sources[n]))
      && (forall n :: 0 <= n < |sources| ==> AtOrAfter(sources[n], start))
      && (exhausted ==> forall k :: Wanted(start, end, k) ==> PartsAt(sources, k) == multiset{})
    }

    constructor (given: seq<seq<Entry>>, start: Option<DecoratedKey>, end: Option<DecoratedKey>)
      requires forall n :: 0 <= n < |given| ==> Ascending(given[n])
      ensures Valid() && this.start == start && this.end == end
      ensures forall k :: Wanted(start, end, k) ==> PartsAt(sources, k) == PartsAt(given, k)
    {
      var skipped := SkipAll(given, start);
      this.start, this.end, this.exhausted, this.sources := start, end, false, skipped;
    }

    /** The least key at the head of a source. */
    method PeekLeast() returns (least: Option<DecoratedKey>)
      ensures least.None? ==> forall n :: 0 <= n < |sources| ==> sources[n] == []
      ensures least.Some? ==>
                && (exists n :: 0 <= n < |sources| && sources[n] != [] && sources[n][0].key == least.value)
                && (forall n :: 0 <= n < |sources| && sources[n] != [] ==> least.value <= sources[n][0].key)
    {
      least := None;
      for n := 0 to |sources|
        invariant least.None? ==> forall j :: 0 <= j < n ==> sources[j] == []
        invariant least.Some? ==>
                    && (exists j :: 0 <= j < n && sources[j] != [] && sources[j][0].key == least.value)
                    && (forall j :: 0 <= j < n && sources[j] != [] ==> least.value <= sources[j][0].key)
      {
        if sources[n] != [] && (least.None? || sources[n][0].key < least.value) {
          least := Some(sources[n][0].key);
        }
      }
    }

    /** The next partition of the scan: the least wanted key left, with all its copies merged. */
    method Next() returns (r: Option<Merged>)
      requires Valid()
      modifies this
      ensures Valid()
      ensures r.None? ==> sources == old(sources)
      ensures r.None? ==> forall k :: Wanted(start, end, k) ==> PartsAt(sources, k) == multiset{}
      ensures r.Some? ==>
                && Wanted(start, end, r.value.key) && Combines(PartsAt(old(sources), r.value.key), r.value.part)
                && (forall k :: k < r.value.key ==> PartsAt(old(sources), k) == multiset{})
                && PartsAt(sources, r.value.key) == multiset{}
                && (forall k :: k != r.value.key ==> PartsAt(sources, k) == PartsAt(old(sources), k))
                && Total(sources) < Total(old(sources))
    {
      if exhausted {
        return None;
      }
      var least := PeekLeast();
      if least.None? {
        NothingAnywhere(sources);
        return None;
      }
      var key := least.value;
      AllFrom(sources, key);
      if end.Some? && key > end.value {
        exhausted := true;
        return None;
      }
      var now, group := TakeGroup(sources, key);
      LeastHeld(sources, key);
      NothingLeft(now, key);
      AtOrAfterStays(now, key, start);
      sources := now;
      GroupHeld(old(sources), now, key, group);
      var merged := MergeSources(group);
      r := Some(Merged(key, SuppressAll(merged)));
    }

    method Drain() returns (out: seq<Merged>)
      requires Valid()
      modifies this
      ensures Enumerates(Copies(old(sources), start, end), out)
    {
      out := [];
      ghost var given := Copies(sources, start, end);
      var more := true;
      while more
        invariant Valid() && Drained(given, Copies(sources, start, end), out)
        invariant !more ==> forall k :: Wanted(start, end, k) ==> PartsAt(sources, k) == multiset{}
        decreases more, Total(sources)
      {
        ghost var before := Copies(sources, start, end);
        var next := Next();
        if next.Some? {
          DrainedMore(given, before, Copies(sources, start, end), out, next.value);
          out := out + [next.value];
        } else {
          more := false;
        }
      }
      DrainedAll(given, Copies(sources, start, end), out);
    }
  }

  /** How far a scan has come: everything up to the last key is listed and taken. */
  ghost predicate Drained(given: DecoratedKey -> multiset<Partition>, now: DecoratedKey -> multiset<Partition>,
        out: seq<Merged>) {
    && Rising(out)
    && (forall i :: 0 <= i < |out| ==> Combines(given(out[i].key), out[i].part))
    && (forall k :: if out != [] && k <= out[|out| - 1].key
                    then now(k) == multiset{} && (given(k) != multiset{} ==> Lists(out, k))
                    else now(k) == given(k))
  }

  lemma DrainedMore(given: DecoratedKey -> multiset<Partition>, before: DecoratedKey -> multiset<Partition>,
                    now: DecoratedKey -> multiset<Partition>, out: seq<Merged>, next: Merged)
    requires Drained(given, before, out) && Combines(before(next.key), next.part)
    requires (forall k :: k < next.key ==> before(k) == multiset{}) && now(next.key) == multiset{}
    requires forall k :: k != next.key ==> now(k) == before(k)
    ensures Drained(given, now, out + [next])
  {
    var longer := out + [next];
    CombinesSome(before(next.key), next.part);
    assert out != [] ==> out[|out| - 1].key < next.key;
    forall k
      ensures if k <= next.key then now(k) == multiset{} && (given(k) != multiset{} ==> Lists(longer, k))
              else now(k) == given(k)
    {
      ListsMore(out, next, k);
    }
  }

  lemma ListsMore(out: seq<Merged>, next: Merged, k: DecoratedKey)
    ensures Lists(out + [next], k) <==> Lists(out, k) || k == next.key
  {
    var longer := out + [next];
    assert longer[|out|] == next;
    if Lists(out, k) {
      var i :| 0 <= i < |out| && out[i].key == k;
      assert longer[i].key == k;
    }
  }

  lemma DrainedAll(given: DecoratedKey -> multiset<Partition>, now: DecoratedKey -> multiset<Partition>,
        out: seq<Merged>)
    requires Drained(given, now, out) && forall k :: now(k) == multiset{}
    ensures Enumerates(given, out)
  {
    forall k | given(k) != multiset{} ensures Lists(out, k) {
      assert now(k) == multiset{};
    }
  }

  lemma NothingAnywhere(sources: seq<seq<Entry>>)
    requires forall n :: 0 <= n < |sources| ==> sources[n] == []
    ensures forall k :: PartsAt(sources, k) == multiset{}
  {
    forall k ensures PartsAt(sources, k) == multiset{} {
      NoPartsAt(sources, k);
    }
  }

  lemma AllFrom(sources: seq<seq<Entry>>, key: DecoratedKey)
    requires forall n :: 0 <= n < |sources| ==> Ascending(sources[n])
    requires forall n :: 0 <= n < |sources| && sources[n] != [] ==> key <= sources[n][0].key
    ensures forall n :: 0 <= n < |sources| ==> From(sources[n], key)
    ensures forall k :: k < key ==> PartsAt(sources, k) == multiset{}
  {
    forall n | 0 <= n < |sources| ensures From(sources[n], key) {
      assert forall i :: 0 < i < |sources[n]| ==> sources[n][0].key < sources[n][i].key;
    }
    forall k | k < key ensures PartsAt(sources, k) == multiset{} {
      forall n | 0 <= n < |sources| ensures PartAt(sources[n], k) == multiset{} {
        NoPartAt(sources[n], k);
      }
      NoPartsAt(sources, k);
    }
  }

  lemma LeastHeld(sources: seq<seq<Entry>>, key: DecoratedKey)
    requires exists n :: 0 <= n < |sources| && sources[n] != [] && sources[n][0].key == key
    ensures PartsAt(sources, key) != multiset{}
  {
    var n :| 0 <= n < |sources| && sources[n] != [] && sources[n][0].key == key;
    NoPartAt(sources[n], key);
    NoPartsAt(sources, key);
  }

  lemma AtOrAfterStays(now: seq<seq<Entry>>, key: DecoratedKey, start: Option<DecoratedKey>)
    requires (start.Some? ==> start.value <= key) && forall n :: 0 <= n < |now| ==> From(now[n], key + 1)
    ensures forall n :: 0 <= n < |now| ==> Ascending(now[n]) && AtOrAfter(now[n], start)
  {
  }

  /** Take the partition `key` off every source that holds it. */
  method TakeGroup(sources: seq<seq<Entry>>, key: DecoratedKey) returns (now: seq<seq<Entry>>, group: seq<Partition>)
    requires forall n :: 0 <= n < |sources| ==> From(sources[n], key)
    ensures Taken(sources, now, key, multiset(group)) && |now| == |sources|
    ensures forall n :: 0 <= n < |now| ==> From(now[n], key + 1)
  {
    now, group := sources, [];
    for n := 0 to |sources|
      invariant Taking(sources, now, key, group, n)
    {
      now, group := TakeNext(sources, now, key, group, n);
    }
  }

  /** The sources before `n` have given up `key`, the others are untouched. */
  ghost predicate Taking(sources: seq<seq<Entry>>, now: seq<seq<Entry>>, key: DecoratedKey, group: seq<Partition>,
        n: nat) {
    && |now| == |sources| && n <= |now| && Taken(sources, now, key, multiset(group))
    && (forall j :: 0 <= j < n ==> From(now[j], key + 1))
    && (forall j :: n <= j < |now| ==> now[j] == sources[j])
  }

  method TakeNext(sources: seq<seq<Entry>>, now: seq<seq<Entry>>, key: DecoratedKey, group: seq<Partition>, n: nat)
    returns (after: seq<seq<Entry>>, more: seq<Partition>)
    requires Taking(sources, now, key, group, n) && n < |now| && From(sources[n], key)
    ensures Taking(sources, after, key, more, n + 1)
  {
    var source := now[n];
    assert From(source, key);
    if source == [] || source[0].key != key {
      NotThere(source, key);
      return now, group;
    }
    TakeMore(sources, now, key, multiset(group), n);
    PastHead(source, key);
    assert multiset(group + [source[0].part]) == multiset(group) + multiset{source[0].part};
    return now[n := source[1..]], group + [source[0].part];
  }

  lemma NotThere(s: seq<Entry>, key: DecoratedKey)
    requires From(s, key) && (s == [] || s[0].key != key)
    ensures From(s, key + 1)
  {
    assert s != [] ==> forall i :: 0 < i < |s| ==> s[0].key < s[i].key;
  }

  /** The copies taken are all there were. */
  lemma GroupHeld(before: seq<seq<Entry>>, now: seq<seq<Entry>>, key: DecoratedKey, group: seq<Partition>)
    requires Taken(before, now, key, multiset(group)) && PartsAt(now, key) == multiset{} &&
             PartsAt(before, key) != multiset{}
    ensures group != [] && multiset(group) == PartsAt(before, key)
    ensures Combines(PartsAt(before, key), SuppressAll(MergeAll(group)))
  {
    assert multiset{} + multiset(group) == multiset(group);
    assert group == [] ==> multiset(group) == multiset{};
  }

  lemma PastHead(s: seq<Entry>, key: DecoratedKey)
    requires From(s, key) && s != [] && s[0].key == key
    ensures From(s[1..], key + 1)
  {
  }

  /** In key order, and nothing below `key`. */
  predicate From(s: seq<Entry>, key: DecoratedKey) { Ascending(s) && AtOrAfter(s, Some(key)) }

  /** `group` went from `before` to `after`, all of it filed under `key`. */
  ghost predicate Taken(before: seq<seq<Entry>>, after: seq<seq<Entry>>, key: DecoratedKey,
        group: multiset<Partition>) {
    && PartsAt(after, key) + group == PartsAt(before, key)
    && (forall k :: k != key ==> PartsAt(after, k) == PartsAt(before, k))
    && Total(after) + |group| == Total(before)
  }

  lemma TakeMore(before: seq<seq<Entry>>, now: seq<seq<Entry>>, key: DecoratedKey, group: multiset<Partition>, n: nat)
    requires Taken(before, now, key, group) && n < |now| && now[n] != [] && now[n][0].key == key
    ensures Taken(before, now[n := now[n][1..]], key, group + multiset{now[n][0].part})
  {
    TakeHead(now, n);
    var part := now[n][0].part;
    var taken := now[n := now[n][1..]];
    assert PartsAt(taken, key) + (group + multiset{part}) == PartsAt(taken, key) + multiset{part} + group;
  }

  lemma NothingLeft(sources: seq<seq<Entry>>, key: DecoratedKey)
    requires forall n :: 0 <= n < |sources| ==> From(sources[n], key + 1)
    ensures PartsAt(sources, key) == multiset{}
  {
    forall n | 0 <= n < |sources| ensures PartAt(sources[n], key) == multiset{} {
      NoPartAt(sources[n], key);
    }
    NoPartsAt(sources, key);
  }

  function Total(sources: seq<seq<Entry>>): nat { if sources == [] then 0 else |sources[0]| + Total(sources[1..]) }

  lemma {:induction false} TotalUpdate(sources: seq<seq<Entry>>, n: nat, s: seq<Entry>)
    requires n < |sources|
    ensures Total(sources[n := s]) + |sources[n]| == Total(sources) + |s|
    decreases |sources|
  {
    if n == 0 {
      assert sources[n := s][1..] == sources[1..];
    } else {
      assert sources[n := s][1..] == sources[1..][n - 1 := s];
      TotalUpdate(sources[1..], n - 1, s);
    }
  }

  predicate AtOrAfter(s: seq<Entry>, start: Option<DecoratedKey>) {
    start.Some? ==> forall i :: 0 <= i < |s| ==> start.value <= s[i].key
  }

  /** Open every source at the start of the range. */
  method SkipAll(given: seq<seq<Entry>>, start: Option<DecoratedKey>) returns (sources: seq<seq<Entry>>)
    requires forall n :: 0 <= n < |given| ==> Ascending(given[n])
    ensures |sources| == |given|
    ensures forall n :: 0 <= n < |sources| ==> Ascending(sources[n]) && AtOrAfter(sources[n], start)
    ensures forall k :: (start.Some? ==> start.value <= k) ==> PartsAt(sources, k) == PartsAt(given, k)
  {
    sources := given;
    for n := 0 to |given|
      invariant |sources| == |given| && forall j :: n <= j < |given| ==> sources[j] == given[j]
      invariant forall j :: 0 <= j < n ==> Ascending(sources[j]) && AtOrAfter(sources[j], start)
      invariant forall k :: (start.Some? ==> start.value <= k) ==> PartsAt(sources, k) == PartsAt(given, k)
    {
      var rest := SkipBelow(given[n], start);
      SkippedSame(sources, n, rest, start);
      sources := sources[n := rest];
    }
  }

  lemma SkippedSame(sources: seq<seq<Entry>>, n: nat, rest: seq<Entry>, start: Option<DecoratedKey>)
    requires n < |sources|
    requires forall k :: (start.Some? ==> start.value <= k) ==> PartAt(rest, k) == PartAt(sources[n], k)
    ensures forall k :: (start.Some? ==> start.value <= k) ==> PartsAt(sources[n := rest], k) == PartsAt(sources, k)
  {
    forall k | start.Some? ==> start.value <= k ensures PartsAt(sources[n := rest], k) == PartsAt(sources, k) {
      PartsSame(sources, n, rest, k);
    }
  }

  method SkipBelow(s: seq<Entry>, start: Option<DecoratedKey>) returns (rest: seq<Entry>)
    requires Ascending(s)
    ensures Ascending(rest) && AtOrAfter(rest, start)
    ensures forall k :: (start.Some? ==> start.value <= k) ==> PartAt(rest, k) == PartAt(s, k)
  {
    rest := s;
    while rest != [] && start.Some? && rest[0].key < start.value
      invariant Ascending(rest)
      invariant forall k :: (start.Some? ==> start.value <= k) ==> PartAt(rest, k) == PartAt(s, k)
      decreases |rest|
    {
      rest := rest[1..];
    }
  }

  // ---------------------------------------------------------------- runs against tables

  predicate Indices(tables: seq<Table>, s: seq<nat>) { forall i :: 0 <= i < |s| ==> s[i] < |tables| }

  /** The entries of a run, table after table. */
  function RunEntries(tables: seq<Table>, run: seq<nat>): seq<Entry>
    requires Indices(tables, run)
  {
    if run == [] then [] else tables[run[0]].entries + RunEntries(tables, run[1..])
  }

  /** All copies of a partition in the listed tables. */
  function CopiesIn(tables: seq<Table>, s: seq<nat>, k: DecoratedKey): multiset<Partition>
    requires Indices(tables, s)
  {
    if s == [] then multiset{} else PartAt(tables[s[0]].entries, k) + CopiesIn(tables, s[1..], k)
  }

  function Sources(tables: seq<Table>): seq<seq<Entry>> {
    seq(|tables|, i requires 0 <= i < |tables| => tables[i].entries)
  }

  function RunSources(tables: seq<Table>, runs: seq<seq<nat>>): seq<seq<Entry>>
    requires forall r :: 0 <= r < |runs| ==> Indices(tables, runs[r])
  {
    seq(|runs|, r requires 0 <= r < |runs| => RunEntries(tables, runs[r]))
  }

  function BoundsOf(tables: seq<Table>): seq<Option<Bounds>> {
    seq(|tables|, i requires 0 <= i < |tables| => tables[i].bounds)
  }

  lemma {:induction false} RunCopies(tables: seq<Table>, run: seq<nat>, k: DecoratedKey)
    requires Indices(tables, run)
    ensures PartAt(RunEntries(tables, run), k) == CopiesIn(tables, run, k)
    decreases |run|
  {
    if run != [] {
      RunCopies(tables, run[1..], k);
      PartAtJoin(tables[run[0]].entries, RunEntries(tables, run[1..]), k);
    }
  }

  lemma {:induction false} CopiesJoin(tables: seq<Table>, a: seq<nat>, b: seq<nat>, k: DecoratedKey)
    requires Indices(tables, a) && Indices(tables, b)
    ensures CopiesIn(tables, a + b, k) == CopiesIn(tables, a, k) + CopiesIn(tables, b, k)
    decreases |a|
  {
    if a == [] {
      assert a + b == b;
    } else {
      assert (a + b)[1..] == a[1..] + b;
      CopiesJoin(tables, a[1..], b, k);
    }
  }

  lemma CopiesMoved(tables: seq<Table>, b: seq<nat>, i: nat, k: DecoratedKey)
    requires Indices(tables, b) && i < |b|
    ensures CopiesIn(tables, b, k) == PartAt(tables[b[i]].entries, k) + CopiesIn(tables, b[..i] + b[i + 1..], k)
  {
    var left, right := b[..i], b[i + 1..];
    assert b == left + ([b[i]] + right) && ([b[i]] + right)[1..] == right;
    CopiesJoin(tables, left, right, k);
    CopiesJoin(tables, left, [b[i]] + right, k);
  }

  lemma Without(a: seq<nat>, b: seq<nat>, i: nat)
    requires a != [] && multiset(a) == multiset(b) && i < |b| && b[i] == a[0]
    ensures multiset(b[..i] + b[i + 1..]) == multiset(a[1..])
  {
    assert b == b[..i] + [b[i]] + b[i + 1..] && a == [a[0]] + a[1..];
    assert multiset(a) == multiset{a[0]} + multiset(a[1..]);
    assert multiset(b) == multiset(b[..i]) + multiset{b[i]} + multiset(b[i + 1..]);
    assert multiset(b[..i] + b[i + 1..]) + multiset{a[0]} == multiset(b[..i]) + multiset{b[i]} + multiset(b[i + 1..]);
    assert multiset(a[1..]) + multiset{a[0]} == multiset{a[0]} + multiset(a[1..]);
    Cancel(multiset(b[..i] + b[i + 1..]), multiset(a[1..]), multiset{a[0]});
  }

  /** Only which tables are listed matters, not their order. */
  lemma {:induction false} CopiesReordered(tables: seq<Table>, a: seq<nat>, b: seq<nat>, k: DecoratedKey)
    requires Indices(tables, a) && Indices(tables, b) && multiset(a) == multiset(b)
    ensures CopiesIn(tables, a, k) == CopiesIn(tables, b, k)
    decreases |a|
  {
    if a != [] {
      var x := a[0];
      assert x in multiset(b);
      var i :| 0 <= i < |b| && b[i] == x;
      Without(a, b, i);
      CopiesReordered(tables, a[1..], b[..i] + b[i + 1..], k);
      CopiesMoved(tables, b, i, k);
    } else {
      assert |multiset(b)| == 0;
    }
  }

  lemma {:induction false} AllRunCopies(tables: seq<Table>, runs: seq<seq<nat>>, k: DecoratedKey)
    requires forall r :: 0 <= r < |runs| ==> Indices(tables, runs[r])
    ensures Indices(tables, Flatten(runs))
    ensures PartsAt(RunSources(tables, runs), k) == CopiesIn(tables, Flatten(runs), k)
    decreases |runs|
  {
    if runs != [] {
      var rest := runs[1..];
      AllRunCopies(tables, rest, k);
      assert RunSources(tables, runs)[1..] == RunSources(tables, rest);
      RunCopies(tables, runs[0], k);
      CopiesJoin(tables, runs[0], Flatten(rest), k);
    }
  }

  lemma {:induction false} AllTableCopies(tables: seq<Table>, n: nat, k: DecoratedKey)
    requires n <= |tables|
    ensures CopiesIn(tables, Upto(n), k) == PartsAt(Sources(tables)[..n], k)
  {
    if n > 0 {
      AllTableCopies(tables, n - 1, k);
      assert Upto(n) == Upto(n - 1) + [n - 1];
      CopiesJoin(tables, Upto(n - 1), [n - 1], k);
      assert [n - 1][1..] == [];
      assert Sources(tables)[..n] == Sources(tables)[..n - 1] + [tables[n - 1].entries];
      PartsJoin(Sources(tables)[..n - 1], tables[n - 1].entries, k);
    }
  }

  lemma {:induction false} PartsJoin(a: seq<seq<Entry>>, s: seq<Entry>, k: DecoratedKey)
    ensures PartsAt(a + [s], k) == PartsAt(a, k) + PartAt(s, k)
    decreases |a|
  {
    if a == [] {
      assert a + [s] == [s] && [s][1..] == [];
    } else {
      assert (a + [s])[1..] == a[1..] + [s];
      PartsJoin(a[1..], s, k);
    }
  }

  /** A grouping that lists every table once loses and duplicates nothing. */
  lemma RunsKeepCopies(tables: seq<Table>, runs: seq<seq<nat>>, k: DecoratedKey)
    requires forall r :: 0 <= r < |runs| ==> Indices(tables, runs[r])
    requires multiset(Flatten(runs)) == multiset(Upto(|tables|))
    ensures PartsAt(RunSources(tables, runs), k) == PartsAt(Sources(tables), k)
  {
    AllRunCopies(tables, runs, k);
    CopiesReordered(tables, Flatten(runs), Upto(|tables|), k);
    AllTableCopies(tables, |tables|, k);
    assert Sources(tables)[..|tables|] == Sources(tables);
  }

  /** A run reads as one sorted table: no key of it can repeat. */
  lemma {:induction false} RunAscends(tables: seq<Table>, run: seq<nat>)
    requires (forall t :: t in tables ==> Truthful(t)) && IsRun(BoundsOf(tables), run)
    ensures Indices(tables, run) && Ascending(RunEntries(tables, run))
    ensures tables[run[0]].bounds.Some? ==>
              forall e :: e in RunEntries(tables, run) ==> tables[run[0]].bounds.value.low <= e.key
    decreases |run|
  {
    var first := tables[run[0]];
    assert first in tables;
    if |run| == 1 {
      assert RunEntries(tables, run) == first.entries + [];
    } else {
      var bounds, rest := BoundsOf(tables), run[1..];
      assert Follows(bounds, run[0], run[1]);
      assert IsRun(bounds, rest) by {
        forall i | 0 <= i < |rest| - 1 ensures Follows(bounds, rest[i], rest[i + 1]) {
          assert Follows(bounds, run[i + 1], run[i + 2]);
        }
      }
      RunAscends(tables, rest);
      assert tables[run[1]] in tables;
      AscendingJoin(first, RunEntries(tables, rest), tables[run[1]].bounds.value.low);
    }
  }

  lemma AscendingJoin(t: Table, rest: seq<Entry>, low: DecoratedKey)
    requires Truthful(t) && t.bounds.Some? && t.bounds.value.high < low && Ascending(rest)
    requires forall e :: e in rest ==> low <= e.key
    ensures Ascending(t.entries + rest) && forall e :: e in t.entries + rest ==> t.bounds.value.low <= e.key
  {
    var all := t.entries + rest;
    assert forall j :: |t.entries| <= j < |all| ==> all[j] in rest;
  }

  /** Scanning tables grouped into runs. */
  method ScanRuns(tables: seq<Table>, start: Option<DecoratedKey>, end: Option<DecoratedKey>) returns (out: seq<Merged>)
    requires forall t :: t in tables ==> Truthful(t)
    ensures Enumerates(Copies(Sources(tables), start, end), out)
  {
    var runs, colored := GroupRuns(BoundsOf(tables));
    forall r | 0 <= r < |runs| ensures Indices(tables, runs[r]) && Ascending(RunEntries(tables, runs[r])) {
      assert IsRun(BoundsOf(tables), runs[r]) by {
        assert if r < colored then Colored(BoundsOf(tables), runs[r]) else Lone(BoundsOf(tables), runs[r]);
      }
      RunAscends(tables, runs[r]);
    }
    out := ScanSources(RunSources(tables, runs), start, end);
    forall k ensures PartsAt(RunSources(tables, runs), k) == PartsAt(Sources(tables), k) {
      RunsKeepCopies(tables, runs, k);
    }
    EnumeratesAlike(Copies(RunSources(tables, runs), start, end), Copies(Sources(tables), start, end), out);
  }

  lemma EnumeratesAlike(f: DecoratedKey -> multiset<Partition>, g: DecoratedKey -> multiset<Partition>,
        out: seq<Merged>)
    requires Enumerates(f, out) && forall k :: f(k) == g(k)
    ensures Enumerates(g, out)
  {
    forall k | g(k) != multiset{} ensures Lists(out, k) {
      assert f(k) != multiset{};
    }
  }

  method ScanSources(sources: seq<seq<Entry>>, start: Option<DecoratedKey>, end: Option<DecoratedKey>)
    returns (out: seq<Merged>)
    requires forall n :: 0 <= n < |sources| ==> Ascending(sources[n])
    ensures Enumerates(Copies(sources, start, end), out)
  {
    var merger := new RangeMerger(sources, start, end);
    ghost var primed := Copies(merger.sources, start, end);
    out := merger.Drain();
    EnumeratesAlike(primed, Copies(sources, start, end), out);
  }

  /** So grouping changes nothing: the scan over runs returns the partitions the scan over
      single tables returns, key by key and row by row, though it folds the copies of a
      partition in another order; and both count the same rows. */
  method ScanBothWays(tables: seq<Table>, start: Option<DecoratedKey>, end: Option<DecoratedKey>)
    returns (grouped: seq<Merged>, single: seq<Merged>)
    requires forall t :: t in tables ==> Truthful(t)
    ensures Enumerates(Copies(Sources(tables), start, end), grouped)
    ensures Enumerates(Copies(Sources(tables), start, end), single)
    ensures Agree(grouped, single) && Count(grouped) == Count(single)
  {
    grouped := ScanRuns(tables, start, end);
    assert forall n :: 0 <= n < |tables| ==> tables[n] in tables;
    single := ScanSources(Sources(tables), start, end);
    EnumeratesOnce(Copies(Sources(tables), start, end), grouped, single);
    CountsAgree(grouped, single);
  }
}
