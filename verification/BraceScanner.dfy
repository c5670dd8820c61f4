/**
 The one-pass detector of `#[cfg(test)] mod tests { ... }`
 (`in_cfg_test_module` in scripts/check-unbounded-reads.py). A line is given by the tokens
 the scan looks at: whether it starts with the attribute, whether it names the module, and
 its brace counts.
 */
module BraceScanner {
  datatype Line = Line(attribute: bool, modTests: bool, opens: nat, closes: nat)

  /** Brace depth before line `n`; unbalanced text can make it negative. */
  function Depth(lines: seq<Line>, n: nat): int
    requires n <= |lines|
  {
    if n == 0 then 0 else Depth(lines, n - 1) + lines[n - 1].opens - lines[n - 1].closes
  }

  // ---------------------------------------------------------------- what the answer means

  /** A line that could open the module if the attribute is in force. */
  predicate Candidate(line: Line) { line.modTests && line.opens > 0 }

  /** The attribute on line `j` is still waiting for its module before line `n`. */
  predicate Armed(lines: seq<Line>, j: nat, n: nat) {
    j < |lines| && n <= |lines| && lines[j].attribute && forall k :: j <= k < n ==> !Candidate(lines[k])
  }

  /** Line `n` opens a test module: the attribute stands on it or above it, with no other
      such opening in between. */
  ghost predicate OpensTests(lines: seq<Line>, n: nat) {
    n < |lines| && Candidate(lines[n]) && exists j: nat :: j <= n && Armed(lines, j, n)
  }

  function OpenedAt(lines: seq<Line>, n: nat): int
    requires n < |lines|
  {
    Depth(lines, n) + lines[n].opens
  }

  /** Line `n` opens a test module that is still open after the first `upto` lines. */
  ghost predicate Open(lines: seq<Line>, n: nat, upto: nat) {
    && n < upto <= |lines| && OpensTests(lines, n)
    && forall m :: n < m <= upto ==> Depth(lines, m) >= OpenedAt(lines, n)
  }

  ghost predicate InTests(lines: seq<Line>, idx: int) { idx > 0 && exists n :: Open(lines, n, idx) }

  // ---------------------------------------------------------------- the scan

  function AtLeast(depths: seq<int>, depth: int): (r: seq<int>)
    ensures forall d :: d in r <==> d in depths && depth >= d
  {
    if depths == [] then [] else (if depth >= depths[0] then [depths[0]] else []) + AtLeast(depths[1..], depth)
  }

  /** The attribute is waiting for its module after `n` lines. */
  ghost predicate Waiting(lines: seq<Line>, n: nat) { exists j: nat :: j < n && Armed(lines, j, n) }

  lemma WaitingStep(lines: seq<Line>, n: nat)
    requires n < |lines|
    ensures OpensTests(lines, n) <==> (Waiting(lines, n) || lines[n].attribute) && Candidate(lines[n])
    ensures Waiting(lines, n + 1) <==> (Waiting(lines, n) || lines[n].attribute) && !Candidate(lines[n])
  {
    forall j: nat | j <= n ensures Armed(lines, j, n + 1) <==> Armed(lines, j, n) && !Candidate(lines[n]) {
      assert forall k :: j <= k < n + 1 ==> k < n || lines[k] == lines[n];
    }
    assert Armed(lines, n, n) <==> lines[n].attribute;
    if Waiting(lines, n) {
      var j: nat :| j < n && Armed(lines, j, n);
      assert j <= n && (!Candidate(lines[n]) ==> Armed(lines, j, n + 1));
    }
    if lines[n].attribute && !Candidate(lines[n]) {
      assert Armed(lines, n, n + 1);
    }
    if Waiting(lines, n + 1) {
      var j: nat :| j < n + 1 && Armed(lines, j, n + 1);
      assert Armed(lines, j, n);
    }
  }

  lemma OpenStep(lines: seq<Line>, m: nat, n: nat)
    requires m <= n < |lines|
    ensures m < n ==> (Open(lines, m, n + 1) <==> Open(lines, m, n) && Depth(lines, n + 1) >= OpenedAt(lines, m))
    ensures Open(lines, n, n + 1) <==> OpensTests(lines, n) && Depth(lines, n + 1) >= OpenedAt(lines, n)
  {
  }

  /** The depths on the scanner's list are those of the modules still open. */
  ghost predicate Tracked(lines: seq<Line>, n: nat, depths: seq<int>) {
    && (forall i :: 0 <= i < |depths| ==> Stems(lines, n, depths[i]))
    && (forall m :: Open(lines, m, n) ==> OpenedAt(lines, m) in depths)
  }

  ghost predicate Stems(lines: seq<Line>, n: nat, d: int) { exists m :: Open(lines, m, n) && OpenedAt(lines, m) == d }

  function Grown(depths: seq<int>, hit: bool, d: int): seq<int> { if hit then depths + [d] else depths }

  lemma StemsStep(lines: seq<Line>, n: nat, depths: seq<int>, hit: bool, d: int)
    requires n < |lines| && Tracked(lines, n, depths) && (hit <==> OpensTests(lines, n))
    requires d in Grown(depths, hit, OpenedAt(lines, n)) && Depth(lines, n + 1) >= d
    ensures Stems(lines, n + 1, d)
  {
    OpenStep(lines, n, n);
    if d in depths {
      assert Stems(lines, n, d);
      var m :| Open(lines, m, n) && OpenedAt(lines, m) == d;
      OpenStep(lines, m, n);
      assert Open(lines, m, n + 1);
    } else {
      assert Open(lines, n, n + 1) && OpenedAt(lines, n) == d;
    }
  }

  lemma StillListed(lines: seq<Line>, n: nat, depths: seq<int>, hit: bool, m: nat)
    requires n < |lines| && Tracked(lines, n, depths) && (hit <==> OpensTests(lines, n)) && Open(lines, m, n + 1)
    ensures OpenedAt(lines, m) in AtLeast(Grown(depths, hit, OpenedAt(lines, n)), Depth(lines, n + 1))
  {
    OpenStep(lines, m, n);
    GrownHas(depths, hit, OpenedAt(lines, n));
    if m < n {
      assert OpenedAt(lines, m) in depths;
    }
  }

  lemma GrownHas(depths: seq<int>, hit: bool, top: int)
    ensures forall d :: d in Grown(depths, hit, top) <==> d in depths || (hit && d == top)
  {
  }

  lemma TrackedStep(lines: seq<Line>, n: nat, depths: seq<int>, hit: bool, d: int, depth: int)
    requires n < |lines| && Tracked(lines, n, depths) && (hit <==> OpensTests(lines, n))
    requires d == OpenedAt(lines, n) && depth == Depth(lines, n + 1)
    ensures Tracked(lines, n + 1, AtLeast(Grown(depths, hit, d), depth))
  {
    var after := AtLeast(Grown(depths, hit, d), depth);
    forall i | 0 <= i < |after| ensures Stems(lines, n + 1, after[i]) {
      assert after[i] in after;
      StemsStep(lines, n, depths, hit, after[i]);
    }
    forall m | Open(lines, m, n + 1) ensures OpenedAt(lines, m) in after {
      StillListed(lines, n, depths, hit, m);
    }
  }

  /** The scanner's variables, and what one line does to them. */
  datatype Scanner = Scanner(depth: int, testDepths: seq<int>, pending: bool)

  function ScanLine(s: Scanner, line: Line): Scanner {
    var hit := (s.pending || line.attribute) && Candidate(line);
    var depth := s.depth + line.opens - line.closes;
    Scanner(depth, AtLeast(Grown(s.testDepths, hit, s.depth + line.opens), depth),
            (s.pending || line.attribute) && !hit)
  }

  ghost predicate Scanned(lines: seq<Line>, n: nat, s: Scanner) {
    n <= |lines| && s.depth == Depth(lines, n) && (s.pending <==> Waiting(lines, n)) && Tracked(lines, n, s.testDepths)
  }

  lemma ScanStep(lines: seq<Line>, n: nat, s: Scanner)
    requires n < |lines| && Scanned(lines, n, s)
    ensures Scanned(lines, n + 1, ScanLine(s, lines[n]))
  {
    var line := lines[n];
    var hit := (s.pending || line.attribute) && Candidate(line);
    var after := ScanLine(s, line);
    assert after.depth == Depth(lines, n + 1);
    assert after.pending <==> Waiting(lines, n + 1) by {
      WaitingStep(lines, n);
    }
    assert Tracked(lines, n + 1, after.testDepths) by {
      WaitingStep(lines, n);
      TrackedStep(lines, n, s.testDepths, hit, s.depth + line.opens, after.depth);
    }
  }

  /** The scan answers the declarative question, for every line number it may be asked. */
  method InCfgTestModule(lines: seq<Line>, idx: int) returns (inside: bool)
    ensures inside <==> InTests(lines, idx)
  {
    var depth, testDepths, pending := 0, [], false;
    for n := 0 to |lines|
      invariant Scanned(lines, n, Scanner(depth, testDepths, pending)) && !(0 < idx <= n)
    {
      var line := lines[n];
      ghost var before := Scanner(depth, testDepths, pending);
      ScanStep(lines, n, before);
      if line.attribute {
        pending := true;
      }
      if pending && Candidate(line) {
        testDepths := testDepths + [depth + line.opens];
        pending := false;
      }
      depth := depth + line.opens - line.closes;
      testDepths := AtLeast(testDepths, depth);
      assert Scanner(depth, testDepths, pending) == ScanLine(before, line);
      if n + 1 == idx {
        AnyTracked(lines, idx, testDepths);
        return testDepths != [];
      }
    }
    return false;
  }

  lemma AnyTracked(lines: seq<Line>, idx: nat, depths: seq<int>)
    requires 0 < idx && Tracked(lines, idx, depths)
    ensures depths != [] <==> InTests(lines, idx)
  {
    if depths != [] {
      assert Stems(lines, idx, depths[0]);
    }
  }

  // ---------------------------------------------------------------- no look-ahead

  lemma {:induction false} DepthPrefix(a: seq<Line>, b: seq<Line>, n: nat)
    requires n <= |a| && n <= |b| && a[..n] == b[..n]
    ensures Depth(a, n) == Depth(b, n)
  {
    if n > 0 {
      assert a[n - 1] == a[..n][n - 1] && b[n - 1] == b[..n][n - 1];
      assert a[..n - 1] == a[..n][..n - 1] && b[..n - 1] == b[..n][..n - 1];
      DepthPrefix(a, b, n - 1);
    }
  }

  /** Lines after the queried one cannot change the answer. */
  lemma LaterLinesIrrelevant(lines: seq<Line>, other: seq<Line>, idx: nat)
    requires idx <= |lines| && idx <= |other| && lines[..idx] == other[..idx]
    ensures InTests(lines, idx) <==> InTests(other, idx)
  {
    forall n ensures Open(lines, n, idx) <==> Open(other, n, idx) {
      if Open(lines, n, idx) {
        OpenPrefix(lines, other, n, idx);
      }
      if Open(other, n, idx) {
        OpenPrefix(other, lines, n, idx);
      }
    }
  }

  lemma OpenPrefix(a: seq<Line>, b: seq<Line>, n: nat, idx: nat)
    requires idx <= |a| && idx <= |b| && a[..idx] == b[..idx] && Open(a, n, idx)
    ensures Open(b, n, idx)
  {
    assert forall k :: 0 <= k < idx ==> a[k] == a[..idx][k] == b[..idx][k] == b[k];
    forall m | 0 <= m <= idx ensures Depth(a, m) == Depth(b, m) {
      assert a[..m] == a[..idx][..m] && b[..m] == b[..idx][..m];
      DepthPrefix(a, b, m);
    }
    var j: nat :| j <= n && Armed(a, j, n);
    assert Armed(b, j, n);
  }
}
