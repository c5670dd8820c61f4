/**
 The `cfg(...)` evaluator of the measurement inventory (`_split_top_level`, `cfg_value` and
 `declared_modules` in scripts/lean_gap_inventory.py): text is split at top-level commas
 and evaluated in three-valued logic, where absent means "cannot be told".
 */
module CfgExpr {
  import opened Base

  type Features = set<string>

  // ---------------------------------------------------------------- trimming

  predicate Blank(c: char) { c in {' ', '\t', '\n', '\r', '\U{0B}', '\U{0C}'} }

  function TrimLeft(s: string): (r: string)
    ensures |r| <= |s|
  {
    if s != [] && Blank(s[0]) then TrimLeft(s[1..]) else s
  }

  function TrimRight(s: string): (r: string)
    ensures |r| <= |s|
  {
    if s != [] && Blank(s[|s| - 1]) then TrimRight(s[..|s| - 1]) else s
  }

  function Trim(s: string): (r: string)
    ensures |r| <= |s|
  {
    TrimRight(TrimLeft(s))
  }

  predicate Tight(s: string) { s == [] || (!Blank(s[0]) && !Blank(s[|s| - 1])) }

  lemma {:induction false} TrimRightKeepsHead(s: string)
    ensures TrimRight(s) == [] || TrimRight(s)[0] == s[0]
    ensures TrimRight(s) == [] || !Blank(TrimRight(s)[|TrimRight(s)| - 1])
    decreases |s|
  {
    if s != [] && Blank(s[|s| - 1]) {
      TrimRightKeepsHead(s[..|s| - 1]);
    }
  }

  lemma {:induction false} TrimLeftHead(s: string)
    ensures TrimLeft(s) == [] || !Blank(TrimLeft(s)[0])
    decreases |s|
  {
    if s != [] && Blank(s[0]) {
      TrimLeftHead(s[1..]);
    }
  }

  lemma TrimIsTight(s: string)
    ensures Tight(Trim(s)) && (Tight(s) ==> Trim(s) == s)
  {
    TrimLeftHead(s);
    TrimRightKeepsHead(TrimLeft(s));
  }

  // ---------------------------------------------------------------- splitting

  function DepthStep(c: char): int { if c == '(' then 1 else if c == ')' then -1 else 0 }

  /** The pieces still to come, given the depth and the piece being read. */
  function Cut(s: string, depth: int, current: string): seq<string>
    decreases |s|
  {
    if s == [] then if Trim(current) != [] then [current] else []
    else if s[0] == ',' && depth == 0 then [current] + Cut(s[1..], 0, [])
    else Cut(s[1..], depth + DepthStep(s[0]), current + [s[0]])
  }

  function TrimAll(parts: seq<string>): (r: seq<string>)
    ensures |r| == |parts| && forall i :: 0 <= i < |r| ==> r[i] == Trim(parts[i])
  {
    seq(|parts|, i requires 0 <= i < |parts| => Trim(parts[i]))
  }

  function Split(s: string): seq<string> { TrimAll(Cut(s, 0, [])) }

  method SplitTopLevel(s: string) returns (parts: seq<string>)
    ensures parts == Split(s)
  {
    var pieces: seq<string>, depth, current: string := [], 0, [];
    for n := 0 to |s|
      invariant pieces + Cut(s[n..], depth, current) == Cut(s, 0, [])
    {
      assert s[n..][1..] == s[n + 1..];
      if s[n] == ',' && depth == 0 {
        pieces, current := pieces + [current], [];
      } else {
        depth := depth + DepthStep(s[n]);
        current := current + [s[n]];
      }
    }
    if Trim(current) != [] {
      pieces := pieces + [current];
    }
    parts := [];
    for n := 0 to |pieces|
      invariant |parts| == n && forall i :: 0 <= i < n ==> parts[i] == Trim(pieces[i])
    {
      parts := parts + [Trim(pieces[n])];
    }
    assert parts == TrimAll(pieces);
  }

  lemma {:induction false} CutShort(s: string, depth: int, current: string, i: nat)
    requires i < |Cut(s, depth, current)|
    ensures |Cut(s, depth, current)[i]| <= |s| + |current|
    decreases |s|
  {
    if s != [] {
      if s[0] == ',' && depth == 0 {
        if i > 0 {
          CutShort(s[1..], 0, [], i - 1);
        }
      } else {
        CutShort(s[1..], depth + DepthStep(s[0]), current + [s[0]], i);
      }
    }
  }

  // ---------------------------------------------------------------- evaluating text

  datatype Operator = AnyOf | AllOf | Not

  function Name(op: Operator): string {
    match op
    case AnyOf => "any"
    case AllOf => "all"
    case Not => "not"
  }

  predicate StartsWith(s: string, prefix: string) { |prefix| <= |s| && s[..|prefix|] == prefix }

  /** `op ( inner )`, with blanks allowed before the parenthesis. */
  function CallBody(s: string, op: Operator): (r: Option<string>)
    ensures r.Some? ==> |r.value| < |s|
  {
    if !StartsWith(s, Name(op)) then None
    else
      var rest := TrimLeft(s[|Name(op)|..]);
      if |rest| >= 2 && rest[0] == '(' && rest[|rest| - 1] == ')' then Some(rest[1..|rest| - 1]) else None
  }

  function Call(s: string): (r: Option<(Operator, string)>)
    ensures r.Some? ==> |r.value.1| < |s|
  {
    if CallBody(s, AnyOf).Some? then Some((AnyOf, CallBody(s, AnyOf).value))
    else if CallBody(s, AllOf).Some? then Some((AllOf, CallBody(s, AllOf).value))
    else if CallBody(s, Not).Some? then Some((Not, CallBody(s, Not).value))
    else None
  }

  /** `feature = "name"`, on one line. */
  function FeatureName(s: string): Option<string> {
    if !StartsWith(s, "feature") then None
    else
      var rest := TrimLeft(s[7..]);
      if rest == [] || rest[0] != '=' then None
      else
        var quoted := TrimLeft(rest[1..]);
        if |quoted| >= 2 && quoted[0] == '"' && quoted[|quoted| - 1] == '"' && '\n' !in quoted[1..|quoted| - 1]
        then Some(quoted[1..|quoted| - 1]) else None
  }

  /** What this build knows of a leaf: features on by default, and that `test` is off. */
  function LeafValue(s: string, features: Features): Option<bool> {
    if FeatureName(s).Some? then Some(FeatureName(s).value in features)
    else if s == "test" then Some(false)
    else None
  }

  function Combine(op: Operator, values: seq<Option<bool>>): Option<bool> {
    match op
    case Not => if values == [] || values[0].None? then None else Some(!values[0].value)
    case AnyOf => if Some(true) in values then Some(true) else if None in values then None else Some(false)
    case AllOf => if Some(false) in values then Some(false) else if None in values then None else Some(true)
  }

  function CfgValue(expr: string, features: Features): Option<bool>
    decreases 2 * |expr| + 1, 0
  {
    var s := Trim(expr);
    var call := Call(s);
    if call.Some? then
      SplitShort(call.value.1);
      Combine(call.value.0, CfgValues(Split(call.value.1), features, |s|))
    else LeafValue(s, features)
  }

  function CfgValues(parts: seq<string>, features: Features, bound: nat): (r: seq<Option<bool>>)
    requires forall i :: 0 <= i < |parts| ==> |parts[i]| < bound
    ensures |r| == |parts|
    decreases 2 * bound, |parts|
  {
    if parts == [] then [] else [CfgValue(parts[0], features)] + CfgValues(parts[1..], features, bound)
  }

  lemma SplitShort(s: string)
    ensures forall i :: 0 <= i < |Split(s)| ==> |Split(s)[i]| <= |s|
  {
    forall i | 0 <= i < |Split(s)| ensures |Split(s)[i]| <= |s| {
      CutShort(s, 0, [], i);
    }
  }

  // ---------------------------------------------------------------- trees

  datatype Cfg = Leaf(text: string) | Node(op: Operator, args: seq<Cfg>)

  /** Leaves carry no comma or parenthesis and are not blank. */
  predicate Proper(e: Cfg) {
    match e
    case Leaf(text) => Trim(text) != [] && forall c :: c in text ==> c !in {',', '(', ')'}
    case Node(_, args) => forall i :: 0 <= i < |args| ==> Proper(args[i])
  }

  function Eval(e: Cfg, features: Features): Option<bool> {
    match e
    case Leaf(text) => LeafValue(Trim(text), features)
    case Node(op, args) => Combine(op, EvalAll(args, features))
  }

  function EvalAll(args: seq<Cfg>, features: Features): (r: seq<Option<bool>>)
    ensures |r| == |args| && forall i :: 0 <= i < |r| ==> r[i] == Eval(args[i], features)
  {
    if args == [] then [] else [Eval(args[0], features)] + EvalAll(args[1..], features)
  }

  function Print(e: Cfg): string {
    match e
    case Leaf(text) => text
    case Node(op, args) => Name(op) + "(" + PrintAll(args) + ")"
  }

  function PrintAll(args: seq<Cfg>): string {
    if args == [] then []
    else if |args| == 1 then Print(args[0])
    else Print(args[0]) + "," + (" " + PrintAll(args[1..]))
  }

  // ---------------------------------------------------------------- printed text nests

  function Net(s: string): int
    decreases |s|
  {
    if s == [] then 0 else DepthStep(s[0]) + Net(s[1..])
  }

  /** Read from depth `d`, the text never dips below `d` and meets a comma only above `low`. */
  predicate Stays(s: string, d: int, low: int)
    decreases |s|
  {
    s == [] || ((s[0] == ',' ==> d > low) && d + DepthStep(s[0]) >= 0 && Stays(s[1..], d + DepthStep(s[0]), low))
  }

  lemma {:induction false} NetJoin(a: string, b: string)
    ensures Net(a + b) == Net(a) + Net(b)
    decreases |a|
  {
    if a == [] {
      assert a + b == b;
    } else {
      assert (a + b)[1..] == a[1..] + b;
      NetJoin(a[1..], b);
    }
  }

  lemma {:induction false} StaysJoin(a: string, b: string, d: int, low: int)
    requires Stays(a, d, low) && Stays(b, d + Net(a), low)
    ensures Stays(a + b, d, low)
    decreases |a|
  {
    if a == [] {
      assert a + b == b;
    } else {
      assert (a + b)[1..] == a[1..] + b;
      StaysJoin(a[1..], b, d + DepthStep(a[0]), low);
    }
  }

  lemma {:induction false} StaysDeeper(s: string, d: int, low: int, more: nat)
    requires Stays(s, d, low)
    ensures Stays(s, d + more, low + more) && Stays(s, d, low - more)
    decreases |s|
  {
    if s != [] {
      StaysDeeper(s[1..], d + DepthStep(s[0]), low, more);
    }
  }

  lemma {:induction false} PlainStays(s: string, d: nat, low: int)
    requires forall c :: c in s ==> c !in {',', '(', ')'}
    ensures Stays(s, d, low) && Net(s) == 0
    decreases |s|
  {
    if s != [] {
      assert s[0] in s && forall c :: c in s[1..] ==> c in s;
      PlainStays(s[1..], d, low);
    }
  }

  /** Printed text opens and closes its own parentheses, with every comma inside them. */
  lemma {:induction false} PrintStays(e: Cfg)
    requires Proper(e)
    ensures Net(Print(e)) == 0 && Stays(Print(e), 0, 0)
    decreases e
  {
    match e
    case Leaf(text) => PlainStays(text, 0, 0);
    case Node(op, args) =>
      PrintAllStays(args);
      PlainStays(Name(op), 0, 0);
      CallStays(Name(op), PrintAll(args));
  }

  lemma CallStays(name: string, body: string)
    requires Net(name) == 0 && Stays(name, 0, 0) && Net(body) == 0 && Stays(body, 0, -1)
    ensures Net(name + "(" + body + ")") == 0 && Stays(name + "(" + body + ")", 0, 0)
  {
    var inner := body + ")";
    StaysDeeper(body, 0, -1, 1);
    NetJoin(body, ")");
    assert ")"[1..] == [] && Net(")") == -1 && Stays(")", 1, 0);
    StaysJoin(body, ")", 1, 0);
    assert ("(" + inner)[1..] == inner && Net("(" + inner) == 0 && Stays("(" + inner, 0, 0);
    NetJoin(name, "(" + inner);
    StaysJoin(name, "(" + inner, 0, 0);
    assert name + "(" + body + ")" == name + ("(" + inner);
  }

  lemma JoinStays(first: string, rest: string)
    requires Net(first) == 0 && Stays(first, 0, -1) && Net(rest) == 0 && Stays(rest, 0, -1)
    ensures Net(first + "," + (" " + rest)) == 0 && Stays(first + "," + (" " + rest), 0, -1)
  {
    var tail := "," + (" " + rest);
    assert (" " + rest)[1..] == rest && tail[1..] == " " + rest;
    assert Net(" " + rest) == 0 && Stays(" " + rest, 0, -1);
    assert Net(tail) == 0 && Stays(tail, 0, -1);
    NetJoin(first, tail);
    StaysJoin(first, tail, 0, -1);
    assert first + "," + (" " + rest) == first + tail;
  }

  lemma {:induction false} PrintAllStays(args: seq<Cfg>)
    requires forall i :: 0 <= i < |args| ==> Proper(args[i])
    ensures Net(PrintAll(args)) == 0 && Stays(PrintAll(args), 0, -1)
    decreases args
  {
    if args != [] {
      PrintStays(args[0]);
      StaysDeeper(Print(args[0]), 0, 0, 1);
      if |args| > 1 {
        PrintAllStays(args[1..]);
        JoinStays(Print(args[0]), PrintAll(args[1..]));
      }
    }
  }

  // ---------------------------------------------------------------- so it splits where it was joined

  lemma {:induction false} CutThrough(s: string, rest: string, d: int, current: string)
    requires d >= 0 && Stays(s, d, 0)
    ensures Cut(s + rest, d, current) == Cut(rest, d + Net(s), current + s)
    decreases |s|
  {
    if s == [] {
      assert s + rest == rest && current + s == current;
    } else {
      assert (s + rest)[1..] == s[1..] + rest;
      CutThrough(s[1..], rest, d + DepthStep(s[0]), current + [s[0]]);
      assert current + [s[0]] + s[1..] == current + s;
    }
  }

  /** The pieces of a printed argument list; all but the first keep the joining blank. */
  function Pieces(args: seq<Cfg>, lead: string): seq<string> {
    if args == [] then [] else [lead + Print(args[0])] + Pieces(args[1..], " ")
  }

  predicate Blanks(s: string) { forall i :: 0 <= i < |s| ==> Blank(s[i]) }

  lemma {:induction false} TrimLead(lead: string, s: string)
    requires Blanks(lead)
    ensures Trim(lead + s) == Trim(s)
    decreases |lead|
  {
    if lead == [] {
      assert lead + s == s;
    } else {
      assert (lead + s)[1..] == lead[1..] + s;
      TrimLead(lead[1..], s);
    }
  }

  lemma PrintNotBlank(e: Cfg)
    requires Proper(e)
    ensures Trim(Print(e)) != []
  {
    if e.Node? {
      PrintTight(e);
      TrimIsTight(Print(e));
    }
  }

  lemma PrintTight(e: Cfg)
    requires e.Node?
    ensures Tight(Print(e)) && Print(e) != []
  {
    var s := Print(e);
    assert s[0] == Name(e.op)[0] && s[|s| - 1] == ')';
  }

  lemma CutLast(e: Cfg, lead: string)
    requires Proper(e) && Blanks(lead)
    ensures Cut(Print(e), 0, lead) == [lead + Print(e)]
  {
    PrintStays(e);
    PrintNotBlank(e);
    CutWhole(Print(e), lead);
  }

  lemma CutWhole(s: string, lead: string)
    requires Stays(s, 0, 0) && Net(s) == 0 && Trim(s) != [] && Blanks(lead)
    ensures Cut(s, 0, lead) == [lead + s]
  {
    CutThrough(s, [], 0, lead);
    assert s + [] == s;
    TrimLead(lead, s);
  }

  lemma CutFirst(e: Cfg, rest: string, lead: string)
    requires Proper(e)
    ensures Cut(Print(e) + "," + (" " + rest), 0, lead) == [lead + Print(e)] + Cut(rest, 0, " ")
  {
    PrintStays(e);
    var tail := "," + (" " + rest);
    assert Print(e) + "," + (" " + rest) == Print(e) + tail;
    CutThrough(Print(e), tail, 0, lead);
    assert tail[1..] == " " + rest && (" " + rest)[1..] == rest && [] + [' '] == " ";
  }

  lemma {:induction false} CutPrinted(args: seq<Cfg>, lead: string)
    requires (forall i :: 0 <= i < |args| ==> Proper(args[i])) && Blanks(lead) && args != []
    ensures Cut(PrintAll(args), 0, lead) == Pieces(args, lead)
    decreases |args|
  {
    if |args| == 1 {
      CutLast(args[0], lead);
      assert Pieces(args[1..], " ") == [];
    } else {
      CutFirst(args[0], PrintAll(args[1..]), lead);
      CutPrinted(args[1..], " ");
    }
  }

  /** Splitting a printed argument list gives back its arguments, trimmed. */
  lemma {:induction false} SplitPrinted(args: seq<Cfg>)
    requires forall i :: 0 <= i < |args| ==> Proper(args[i])
    ensures |Split(PrintAll(args))| == |args|
    ensures forall i :: 0 <= i < |args| ==> Split(PrintAll(args))[i] == Trim(Print(args[i]))
  {
    if args == [] {
      assert Trim([]) == [];
    } else {
      CutPrinted(args, "");
      PiecesTrim(args, "");
    }
  }

  lemma {:induction false} PiecesTrim(args: seq<Cfg>, lead: string)
    requires Blanks(lead)
    ensures |Pieces(args, lead)| == |args|
    ensures forall i :: 0 <= i < |args| ==> Trim(Pieces(args, lead)[i]) == Trim(Print(args[i]))
    decreases |args|
  {
    if args != [] {
      var rest := Pieces(args[1..], " ");
      PiecesTrim(args[1..], " ");
      TrimLead(lead, Print(args[0]));
      assert forall i :: 0 < i < |args| ==> Pieces(args, lead)[i] == rest[i - 1];
    }
  }

  /** Printing and evaluating the text gives the value of the tree. */
  lemma {:induction false} PrintedValue(e: Cfg, features: Features)
    requires Proper(e)
    ensures CfgValue(Print(e), features) == Eval(e, features)
    decreases e
  {
    match e
    case Leaf(text) => LeafIsNoCall(Trim(text), text);
    case Node(op, args) =>
      PrintTight(e);
      TrimIsTight(Print(e));
      PrintedCall(op, PrintAll(args));
      SplitPrinted(args);
      var parts := Split(PrintAll(args));
      SplitShort(PrintAll(args));
      PrintedValues(args, parts, features, |Print(e)|);
  }

  lemma {:induction false} PrintedValues(args: seq<Cfg>, parts: seq<string>, features: Features, bound: nat)
    requires |parts| == |args| && forall i :: 0 <= i < |args| ==> Proper(args[i]) && parts[i] == Trim(Print(args[i]))
    requires forall i :: 0 <= i < |parts| ==> |parts[i]| < bound
    ensures CfgValues(parts, features, bound) == EvalAll(args, features)
    decreases args
  {
    if args != [] {
      PrintedValue(args[0], features);
      TrimIsTight(Print(args[0]));
      TrimIsTight(parts[0]);
      PrintedValues(args[1..], parts[1..], features, bound);
    }
  }

  lemma PrintedCall(op: Operator, body: string)
    ensures Call(Name(op) + "(" + body + ")") == Some((op, body))
  {
    var s := Name(op) + "(" + body + ")";
    assert s[3..] == "(" + body + ")";
    var rest := s[3..];
    assert TrimLeft(rest) == rest && rest[1..|rest| - 1] == body;
    assert s[..3] == Name(op);
    assert "any"[0] != "all"[1];
    assert Name(AnyOf)[1] == 'n' && Name(AllOf)[1] == 'l' && Name(Not)[1] == 'o';
    assert s[1] == Name(op)[1];
  }

  lemma LeafIsNoCall(s: string, text: string)
    requires s == Trim(text) && forall c :: c in text ==> c !in {',', '(', ')'}
    ensures Call(s).None?
  {
    TrimParts(text);
    PlainNoBody(s, AnyOf);
    PlainNoBody(s, AllOf);
    PlainNoBody(s, Not);
  }

  lemma PlainNoBody(s: string, op: Operator)
    requires '(' !in s
    ensures CallBody(s, op).None?
  {
    if StartsWith(s, Name(op)) {
      var tail := s[|Name(op)|..];
      TrimLeftParts(tail);
      assert forall c :: c in tail ==> c in s;
    }
  }

  lemma {:induction false} TrimLeftParts(s: string)
    ensures forall c :: c in TrimLeft(s) ==> c in s
    decreases |s|
  {
    if s != [] && Blank(s[0]) {
      TrimLeftParts(s[1..]);
    }
  }

  lemma {:induction false} TrimRightParts(s: string)
    ensures forall c :: c in TrimRight(s) ==> c in s
    decreases |s|
  {
    if s != [] && Blank(s[|s| - 1]) {
      TrimRightParts(s[..|s| - 1]);
    }
  }

  lemma TrimParts(s: string)
    ensures forall c :: c in Trim(s) ==> c in s
  {
    TrimLeftParts(s);
    TrimRightParts(TrimLeft(s));
  }

  // ---------------------------------------------------------------- against classical logic

  /** What a build could decide about every leaf, agreeing with what this one knows. */
  ghost predicate Consistent(world: string -> bool, features: Features) {
    forall leaf: string :: LeafValue(leaf, features).Some? ==> world(leaf) == LeafValue(leaf, features).value
  }

  predicate Holds(e: Cfg, world: string -> bool) {
    match e
    case Leaf(text) => world(Trim(text))
    case Node(AnyOf, args) => exists i :: 0 <= i < |args| && Holds(args[i], world)
    case Node(AllOf, args) => forall i :: 0 <= i < |args| ==> Holds(args[i], world)
    case Node(Not, args) => args != [] && !Holds(args[0], world)
  }

  /** A definite answer is the classical truth value in every build that agrees with the
      known leaves. */
  lemma {:induction false} DefiniteIsTrue(e: Cfg, features: Features, world: string -> bool)
    requires Consistent(world, features) && Eval(e, features).Some?
    ensures Holds(e, world) == Eval(e, features).value
    decreases e
  {
    match e
    case Leaf(_) =>
    case Node(op, args) =>
      var values := EvalAll(args, features);
      forall i | 0 <= i < |args| && values[i].Some? ensures Holds(args[i], world) == values[i].value {
        DefiniteIsTrue(args[i], features, world);
      }
      match op
      case AnyOf =>
        if Some(true) in values {
          var i :| 0 <= i < |values| && values[i] == Some(true);
          assert Holds(args[i], world);
        }
      case AllOf =>
        if Some(false) in values {
          var i :| 0 <= i < |values| && values[i] == Some(false);
          assert !Holds(args[i], world);
        }
      case Not =>
  }

  // ---------------------------------------------------------------- modules behind gates

  /** A module declaration with the texts of the `cfg` attributes above it. */
  datatype Declaration = Declaration(name: string, gates: seq<string>)

  predicate Dropped(d: Declaration, features: Features) {
    exists i :: 0 <= i < |d.gates| && CfgValue(d.gates[i], features) == Some(false)
  }

  function Kept(decls: seq<Declaration>, features: Features): seq<string> {
    if decls == [] then []
    else (if Dropped(decls[0], features) then [] else [decls[0].name]) + Kept(decls[1..], features)
  }

  method IsDropped(d: Declaration, features: Features) returns (off: bool)
    ensures off <==> Dropped(d, features)
  {
    off := false;
    for i := 0 to |d.gates|
      invariant off <==> exists j :: 0 <= j < i && CfgValue(d.gates[j], features) == Some(false)
    {
      var value := CfgValue(d.gates[i], features);
      off := off || value == Some(false);
    }
  }

  method DeclaredModules(decls: seq<Declaration>, features: Features) returns (found: seq<string>)
    ensures found == Kept(decls, features)
  {
    found := [];
    for n := 0 to |decls|
      invariant found == Kept(decls[..n], features)
    {
      var off := IsDropped(decls[n], features);
      KeptSnoc(decls[..n], decls[n], features);
      assert decls[..n + 1] == decls[..n] + [decls[n]];
      if !off {
        found := found + [decls[n].name];
      }
    }
    assert decls[..|decls|] == decls;
  }

  lemma {:induction false} KeptSnoc(decls: seq<Declaration>, d: Declaration, features: Features)
    ensures Kept(decls + [d], features) == Kept(decls, features) + (if Dropped(d, features) then [] else [d.name])
    decreases |decls|
  {
    if decls == [] {
      assert decls + [d] == [d] && [d][1..] == [];
    } else {
      assert (decls + [d])[1..] == decls[1..] + [d];
      KeptSnoc(decls[1..], d, features);
    }
  }

  function PrintGates(gates: seq<Cfg>): seq<string> { seq(|gates|, i requires 0 <= i < |gates| => Print(gates[i])) }

  /** A module is dropped exactly when a gate is known to be off, and then its gates hold
      together in no build at all. */
  lemma DropsOnlyDeadModules(name: string, gates: seq<Cfg>, features: Features)
    requires forall i :: 0 <= i < |gates| ==> Proper(gates[i])
    ensures var d := Declaration(name, PrintGates(gates));
            && (Dropped(d, features) <==> exists i :: 0 <= i < |gates| && Eval(gates[i], features) == Some(false))
            && (Dropped(d, features) ==>
                  forall world :: Consistent(world, features) ==>
                    exists i :: 0 <= i < |gates| && !Holds(gates[i], world))
  {
    var d := Declaration(name, PrintGates(gates));
    forall i | 0 <= i < |gates| ensures CfgValue(d.gates[i], features) == Eval(gates[i], features) {
      PrintedValue(gates[i], features);
    }
    if Dropped(d, features) {
      var i :| 0 <= i < |gates| && CfgValue(d.gates[i], features) == Some(false);
      forall world | Consistent(world, features) ensures exists i :: 0 <= i < |gates| && !Holds(gates[i], world) {
        DefiniteIsTrue(gates[i], features, world);
      }
    }
  }
}
