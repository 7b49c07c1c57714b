/**
 The interpreter gives programs their meaning: what it makes of a program within its budget is what the language makes of
 it, and where the budget is large enough the two are one.
 */
module SemanticsTheorem {
  import opened Domain
  import opened Interpreter
  import opened Semantics

  // ----- The answers of both sides -----

  lemma TruthIs(k: Machine, log: seq<Effect>, v: Value)
    ensures IsTrue(Of(k), log, v) <==> Truthy(k, log, v)
  {
  }

  lemma ContentsAre(k: Machine, log: seq<Effect>, v: Value)
    ensures Contents(Of(k), log, v) == ItemsOf(k, log, v)
  {
  }

  lemma SaidIs(k: Machine, reply: Reply, checked: bool)
    ensures Said(Of(k), reply, checked) == if checked then BoundedReply(k, reply) else Replied(reply)
  {
  }

  lemma DoingIs(k: Machine, m: Memory, deed: Deed, checked: bool)
    requires !Spent(k, m)
    ensures Doing(Of(k), m, deed, checked) == Ask(k, m, deed, checked)
  {
    SaidIs(k, k.world.reply(m.log + [Effect(m.steps, deed)]), checked);
  }

  // ----- No premise ends later than its conclusion -----

  lemma SyncInTime(l: Language, c: Claim, ps: seq<Claim>)
    requires c.Evals? && c.sync && Rule(l, c, ps) && AllForward(ps)
    ensures InTime(c, ps)
  {
    hide IsTrue, Said;
  }

  lemma AsyncInTime(l: Language, c: Claim, ps: seq<Claim>)
    requires c.Evals? && !c.sync && Rule(l, c, ps) && AllForward(ps)
    ensures InTime(c, ps)
  {
    hide IsTrue, Said;
    if ps != [] { assert ps[0].m.steps <= End(ps[0]).steps; }
  }

  lemma ListInTime(l: Language, c: Claim, ps: seq<Claim>)
    requires (c.EvalsAll? || c.Decides? || c.AssignsAll?) && Rule(l, c, ps) && AllForward(ps)
    ensures InTime(c, ps)
  {
    hide IsTrue;
  }

  lemma AssignInTime(l: Language, c: Claim, ps: seq<Claim>)
    requires c.Assigns? && Rule(l, c, ps) && AllForward(ps)
    ensures InTime(c, ps)
  {
    hide Said, Contents;
    if ps != [] { assert ps[0].m.steps <= End(ps[0]).steps; }
  }

  lemma VisitInTime(l: Language, c: Claim, ps: seq<Claim>)
    requires (c.Visits? || c.Draws? || c.Admits?) && Rule(l, c, ps) && AllForward(ps)
    ensures InTime(c, ps)
  {
    hide IsTrue, Contents;
  }

  lemma RunInTime(l: Language, c: Claim, ps: seq<Claim>)
    requires (c.Runs? || c.Turns?) && Rule(l, c, ps) && AllForward(ps)
    ensures InTime(c, ps)
  {
  }

  lemma DoInTime(l: Language, c: Claim, ps: seq<Claim>)
    requires c.Does? && Rule(l, c, ps) && AllForward(ps)
    ensures InTime(c, ps)
  {
    hide IsTrue, Contents;
    if c.stmt.Try? { TryInTime(c.stmt, c.m, c.f, ps); }
  }

  lemma TryInTime(stmt: Stmt, m: Memory, f: Run<Flow>, ps: seq<Claim>)
    requires stmt.Try? && TryRule(stmt, m, f, ps) && AllForward(ps)
    ensures InTime(Does(stmt, m, f), ps)
  {
    hide FirstFit;
  }

  lemma RuleInTime(l: Language, c: Claim, ps: seq<Claim>)
    requires Rule(l, c, ps) && AllForward(ps)
    ensures InTime(c, ps)
  {
    hide *;
    match c
    case Evals(sync, _, _, _) => if sync { SyncInTime(l, c, ps); } else { AsyncInTime(l, c, ps); }
    case EvalsAll(_, _, _, _) => ListInTime(l, c, ps);
    case Decides(_, _, _, _, _) => ListInTime(l, c, ps);
    case Assigns(_, _, _, _) => AssignInTime(l, c, ps);
    case AssignsAll(_, _, _, _) => ListInTime(l, c, ps);
    case Visits(_, _, _, _, _) => VisitInTime(l, c, ps);
    case Draws(_, _, _, _, _, _) => VisitInTime(l, c, ps);
    case Admits(_, _, _) => VisitInTime(l, c, ps);
    case Runs(_, _, _) => RunInTime(l, c, ps);
    case Does(_, _, _) => DoInTime(l, c, ps);
    case Turns(_, _, _, _, _) => RunInTime(l, c, ps);
  }

  /** Every claim that holds goes forward in time, and so do its premises. */
  lemma {:induction false} DerivedInTime(l: Language, d: Derivation)
    requires Derives(l, d)
    ensures InTime(d.claim, Claims(d.premises)) && AllForward(Claims(d.premises))
    decreases d
  {
    hide Rule;
    var ps := Claims(d.premises);
    forall i | 0 <= i < |ps| ensures ps[i].m.steps <= End(ps[i]).steps {
      DerivedInTime(l, d.premises[i]);
    }
    RuleInTime(l, d.claim, ps);
  }

  // ----- What is derived is what the interpreter does, if the budget reaches to its end -----

  /** The interpreter comes to the same. */
  ghost predicate Agreed(k: Machine, c: Claim) {
    !Spent(k, c.m) &&
    match c
    case Evals(sync, e, m, v) => v == if sync then SyncEval(k, e, m) else Eval(k, e, m)
    case EvalsAll(sync, es, m, vs) => vs == if sync then SyncAll(k, es, m) else EvalAll(k, es, m)
    case Decides(isAnd, value, rest, m, v) => v == EvalBool(k, isAnd, value, rest, m)
    case Assigns(target, value, m, v) => v == Store(k, target, value, m)
    case AssignsAll(targets, values, m, v) => |targets| == |values| && v == StoreFrom(k, targets, values, m)
    case Visits(generators, elements, output, m, vs) =>
      |output| <= k.maxItems && (generators == [] ==> |output| < k.maxItems) ==> vs == Visit(k, generators, elements, output, m)
    case Draws(generators, items, elements, output, m, vs) =>
      generators != [] && (|output| <= k.maxItems ==> vs == VisitItems(k, generators, items, elements, output, m))
    case Admits(ifs, m, b) => b == Conditions(k, ifs, m)
    case Runs(stmts, m, f) => f == Exec(k, stmts, m)
    case Does(stmt, m, f) => f == Step(k, stmt, m)
    case Turns(loop, items, index, m, f) => loop.For? && f == Each(k, loop, items, index, m)
  }

  ghost predicate AllAgreed(k: Machine, ps: seq<Claim>) { forall i :: 0 <= i < |ps| ==> Agreed(k, ps[i]) }

  /** One value for every target. */
  lemma {:induction false} EachIsFrom(k: Machine, targets: seq<Target>, value: Value, m: Memory)
    requires !Spent(k, m)
    ensures StoreFrom(k, targets, seq(|targets|, _ => value), m) == StoreEach(k, targets, value, m)
    decreases |targets|
  {
    hide Store, Within;
    if targets != [] {
      var values := seq(|targets|, _ => value);
      assert values[1..] == seq(|targets[1..]|, _ => value);
      var r := Store(k, targets[0], value, m);
      if r.result.Ok? { EachIsFrom(k, targets[1..], value, r.memory); }
    }
  }

  /** The conclusion of a rule is reached within the budget, and the interpreter agrees with the premises. */
  ghost predicate Ready(k: Machine, c: Claim, ps: seq<Claim>) {
    Rule(Of(k), c, ps) && AllAgreed(k, ps) && InTime(c, ps) && End(c).steps <= k.maxSteps
  }

  lemma Premises(k: Machine, ps: seq<Claim>)
    requires AllAgreed(k, ps)
    ensures (|ps| > 0 ==> Agreed(k, ps[0])) && (|ps| > 1 ==> Agreed(k, ps[1]))
    ensures (|ps| > 2 ==> Agreed(k, ps[2])) && (|ps| > 3 ==> Agreed(k, ps[3]))
  {
    hide Agreed;
  }

  lemma CallAgrees(k: Machine, sync: bool, f: Expr, args: seq<Expr>, m: Memory, v: Run<Value>, ps: seq<Claim>)
    requires CallRule(Of(k), sync, f, args, m, v, ps) && AllAgreed(k, ps) && !Spent(k, m) && v.memory.steps <= k.maxSteps
    ensures var callee := if sync then SyncEval(k, f, m) else Eval(k, f, m);
            if callee.result.Err? then v == callee
            else
              !Spent(k, callee.memory) &&
              var vs := if sync then SyncAll(k, args, callee.memory) else EvalAll(k, args, callee.memory);
              if vs.result.Err? then v == Fail(vs.result.error, vs.memory)
              else !Spent(k, vs.memory) && v == Ask(k, vs.memory, Invoked(callee.result.value, vs.result.value), true)
  {
    hide Eval, EvalAll, SyncEval, SyncAll, Within, Ask, Doing;
    assert Agreed(k, ps[0]);
    if |ps| == 2 {
      assert Agreed(k, ps[1]);
      if ps[1].vs.result.Ok? { DoingIs(k, ps[1].vs.memory, Invoked(ps[0].v.result.value, ps[1].vs.result.value), true); }
    }
  }

  lemma SyncAgrees(k: Machine, c: Claim, ps: seq<Claim>)
    requires c.Evals? && c.sync && Ready(k, c, ps)
    ensures Agreed(k, c)
  {
    hide SyncAll, Within, Ask, Doing;
    Premises(k, ps);
    match c.e
    case Call(f, args) => CallAgrees(k, true, f, args, Later(c.m), c.v, ps);
    case Binary(op, left, right) => if ps[0].vs.result.Ok? { SaidIs(k, k.world.operate(op, ps[0].vs.result.value), true); }
    case Operation(op, _) => if ps[0].vs.result.Ok? { SaidIs(k, k.world.operate(op, ps[0].vs.result.value), false); }
    case _ =>
  }

  lemma AsyncAgrees(k: Machine, c: Claim, ps: seq<Claim>)
    requires c.Evals? && !c.sync && Ready(k, c, ps)
    ensures Agreed(k, c)
  {
    hide SyncEval, SyncAll, EvalAll, EvalBool, Visit, Within, Ask, Doing, IsTrue, Said;
    Premises(k, ps);
    match c.e
    case Call(f, args) => CallAgrees(k, false, f, args, Later(c.m), c.v, ps);
    case Await(_) => if ps[0].v.result.Ok? { DoingIs(k, ps[0].v.memory, Awaited(ps[0].v.result.value), false); }
    case IfExp(_, _, _) => if ps[0].v.result.Ok? { TruthIs(k, ps[0].v.memory.log, ps[0].v.result.value); }
    case Comprehension(_, _, _, _) => if ps[0].vs.result.Ok? { SaidIs(k, k.world.operate("dict", ps[0].vs.result.value), false); }
    case _ =>
  }

  lemma AllAgrees(k: Machine, c: Claim, ps: seq<Claim>)
    requires c.EvalsAll? && Ready(k, c, ps)
    ensures Agreed(k, c)
  {
    hide Eval, SyncEval, Within;
    Premises(k, ps);
  }

  lemma DecideAgrees(k: Machine, c: Claim, ps: seq<Claim>)
    requires c.Decides? && Ready(k, c, ps)
    ensures Agreed(k, c)
  {
    hide Eval, Within, IsTrue, Truthy;
    Premises(k, ps);
    TruthIs(k, c.m.log, c.value);
  }

  lemma AssignAgrees(k: Machine, c: Claim, ps: seq<Claim>)
    requires c.Assigns? && Ready(k, c, ps)
    ensures Agreed(k, c)
  {
    hide SyncEval, StoreFrom, Within, Contents, ItemsOf, Ask, Doing;
    Premises(k, ps);
    match c.target
    case ToName(_) =>
    case ToTuple(_) => ContentsAre(k, c.m.log, c.value);
    case ToItem(_, _) =>
      if |ps| == 2 && ps[1].v.result.Ok? {
        DoingIs(k, ps[1].v.memory, Stored(ps[0].v.result.value, ps[1].v.result.value, c.value), false);
      }
  }

  lemma AssignAllAgrees(k: Machine, c: Claim, ps: seq<Claim>)
    requires c.AssignsAll? && Ready(k, c, ps)
    ensures Agreed(k, c)
  {
    hide Store, Within;
    Premises(k, ps);
  }

  lemma VisitAgrees(k: Machine, c: Claim, ps: seq<Claim>)
    requires c.Visits? && Ready(k, c, ps)
    ensures Agreed(k, c)
  {
    hide Eval, EvalAll, VisitItems, Within, Contents, ItemsOf;
    Premises(k, ps);
    if c.generators != [] && ps[0].v.result.Ok? { ContentsAre(k, ps[0].v.memory.log, ps[0].v.result.value); }
  }

  lemma DrawAgrees(k: Machine, c: Claim, ps: seq<Claim>)
    requires c.Draws? && Ready(k, c, ps)
    ensures Agreed(k, c)
  {
    hide Store, Conditions, Visit, Within;
    Premises(k, ps);
    if |ps| > 2 { assert ps[2..][0] == ps[2]; }
    if |ps| > 3 { assert ps[2..][1] == ps[3]; }
  }

  lemma AdmitAgrees(k: Machine, c: Claim, ps: seq<Claim>)
    requires c.Admits? && Ready(k, c, ps)
    ensures Agreed(k, c)
  {
    hide Eval, Within, IsTrue, Truthy;
    Premises(k, ps);
    if c.ifs != [] && ps[0].v.result.Ok? { TruthIs(k, ps[0].v.memory.log, ps[0].v.result.value); }
  }

  lemma RunAgrees(k: Machine, c: Claim, ps: seq<Claim>)
    requires c.Runs? && Ready(k, c, ps)
    ensures Agreed(k, c)
  {
    hide Step, Within;
    Premises(k, ps);
  }

  lemma TurnAgrees(k: Machine, c: Claim, ps: seq<Claim>)
    requires c.Turns? && Ready(k, c, ps)
    ensures Agreed(k, c)
  {
    hide Exec, Store, Within;
    Premises(k, ps);
  }

  lemma FitsIs(handler: Handler, graph: bool, m: Memory)
    ensures Fits(handler, graph, m.environment) <==> Catches(handler.catch, graph, m)
  {
  }

  /** The first handler that fits runs. */
  lemma {:induction false} FirstHandles(k: Machine, handlers: seq<Handler>, h: nat, graph: bool, m: Memory)
    requires !Spent(k, m) && FirstFit(handlers, h, graph, m.environment)
    ensures Handle(k, handlers, graph, m) == Exec(k, handlers[h].body, Caught(handlers[h], graph, m))
    decreases |handlers|
  {
    hide Exec, Fair, Fits, Catches;
    FitsIs(handlers[0], graph, m);
    if h > 0 {
      assert handlers[0] == handlers[..h][0];
      FirstHandles(k, handlers[1..], h - 1, graph, m);
    }
  }

  lemma {:induction false} NoneHandles(k: Machine, handlers: seq<Handler>, graph: bool, m: Memory)
    requires !Spent(k, m) && forall h :: 0 <= h < |handlers| ==> !Fits(handlers[h], graph, m.environment)
    ensures Handle(k, handlers, graph, m) == Fail(ToolFailed(graph), m)
    decreases |handlers|
  {
    hide Exec, Fair, Fits, Catches;
    if handlers != [] {
      FitsIs(handlers[0], graph, m);
      NoneHandles(k, handlers[1..], graph, m);
    }
  }

  /** Of the handlers that fit there is a first one. */
  lemma {:induction false} FirstFound(handlers: seq<Handler>, i: nat, graph: bool, environment: map<string, Value>)
    requires i <= |handlers| && forall j :: 0 <= j < i ==> !Fits(handlers[j], graph, environment)
    requires forall h: nat :: !FirstFit(handlers, h, graph, environment)
    ensures forall h :: 0 <= h < |handlers| ==> !Fits(handlers[h], graph, environment)
    decreases |handlers| - i
  {
    hide Fits;
    if i < |handlers| {
      assert !FirstFit(handlers, i, graph, environment);
      FirstFound(handlers, i + 1, graph, environment);
    }
  }

  lemma FinallyAgrees(k: Machine, finalbody: seq<Stmt>, before: Run<Flow>, f: Run<Flow>, ps: seq<Claim>)
    requires FinallyRule(finalbody, before, f, ps) && AllAgreed(k, ps)
    ensures var last := Exec(k, finalbody, before.memory); f == if last.result == Ok(Went) then Run(before.result, last.memory) else last
  {
    hide Exec;
    assert Agreed(k, ps[0]);
  }

  lemma HandledAgrees(k: Machine, stmt: Stmt, graph: bool, failed: Run<Flow>, f: Run<Flow>, ps: seq<Claim>)
    requires stmt.Try? && HandledRule(stmt, graph, failed, f, ps) && AllAgreed(k, ps) && !Spent(k, failed.memory)
    requires failed.result == Err(ToolFailed(graph))
    ensures var tried := Handle(k, stmt.handlers, graph, failed.memory);
            var last := Exec(k, stmt.finalbody, tried.memory);
            f == if last.result == Ok(Went) then Run(tried.result, last.memory) else last
  {
    hide Exec, Handle, Fair, Fits, FinallyRule;
    if exists h: nat :: FirstFit(stmt.handlers, h, graph, failed.memory.environment) {
      var h: nat :| FirstFit(stmt.handlers, h, graph, failed.memory.environment)
        && |ps| == 2 && IsRun(ps[0], stmt.handlers[h].body, Caught(stmt.handlers[h], graph, failed.memory))
        && FinallyRule(stmt.finalbody, ps[0].f, f, ps[1..]);
      FirstHandles(k, stmt.handlers, h, graph, failed.memory);
      assert Agreed(k, ps[0]);
      FinallyAgrees(k, stmt.finalbody, ps[0].f, f, ps[1..]);
    } else {
      FirstFound(stmt.handlers, 0, graph, failed.memory.environment);
      NoneHandles(k, stmt.handlers, graph, failed.memory);
      FinallyAgrees(k, stmt.finalbody, failed, f, ps);
    }
  }

  lemma TryAgrees(k: Machine, stmt: Stmt, m: Memory, f: Run<Flow>, ps: seq<Claim>)
    requires stmt.Try? && TryRule(stmt, m, f, ps) && AllAgreed(k, ps) && InTime(Does(stmt, m, f), ps) && f.memory.steps <= k.maxSteps
    ensures !Spent(k, m) && f == Attempt(k, stmt, m)
  {
    hide Exec, Handle, Within, FinallyRule, HandledRule;
    assert Agreed(k, ps[0]);
    var body := ps[0].f;
    if body.result == Ok(Went) {
      assert Agreed(k, ps[1]);
      FinallyAgrees(k, stmt.finalbody, ps[1].f, f, ps[2..]);
    } else if body.result.Err? && body.result.error.ToolFailed? {
      HandledAgrees(k, stmt, body.result.error.graph, body, f, ps[1..]);
    } else {
      FinallyAgrees(k, stmt.finalbody, body, f, ps[1..]);
    }
  }

  lemma WhileAgrees(k: Machine, loop: Stmt, m: Memory, f: Run<Flow>, ps: seq<Claim>)
    requires loop.While? && !Spent(k, m)
    requires var t := Eval(k, loop.test, m);
             && t.result.Ok? && Truthy(k, t.memory.log, t.result.value) && WhileRule(loop, t.memory, f, ps) && AllAgreed(k, ps)
    ensures f == Repeat(k, loop, m)
  {
    hide Eval, Exec, Within, Truthy;
    assert Agreed(k, ps[0]);
    if |ps| == 2 { assert Agreed(k, ps[1]); }
  }

  lemma LoopAgrees(k: Machine, c: Claim, ps: seq<Claim>)
    requires c.Does? && c.stmt.While? && Ready(k, c, ps)
    ensures !Spent(k, c.m) && c.f == Repeat(k, c.stmt, c.m)
  {
    hide Exec, Eval, Within, IsTrue, Truthy, WhileRule;
    assert Agreed(k, ps[0]);
    var t := ps[0].v;
    if t.result.Ok? {
      TruthIs(k, t.memory.log, t.result.value);
      if Truthy(k, t.memory.log, t.result.value) {
        WhileAgrees(k, c.stmt, c.m, c.f, ps[1..]);
      } else {
        assert Agreed(k, ps[1]);
      }
    }
  }

  lemma DoAgrees(k: Machine, c: Claim, ps: seq<Claim>)
    requires c.Does? && Ready(k, c, ps)
    ensures Agreed(k, c)
  {
    hide Eval, Exec, Store, StoreEach, StoreFrom, Each, Repeat, Attempt, Within, IsTrue, Truthy, Contents, ItemsOf, TryRule, WhileRule;
    Premises(k, ps);
    match c.stmt
    case Assign(targets, _) =>
      if ps[0].v.result.Ok? { EachIsFrom(k, targets, ps[0].v.result.value, ps[0].v.memory); }
    case If(_, _, _) => if ps[0].v.result.Ok? { TruthIs(k, ps[0].v.memory.log, ps[0].v.result.value); }
    case For(_, _, _, _) => if ps[0].v.result.Ok? { ContentsAre(k, ps[0].v.memory.log, ps[0].v.result.value); }
    case While(_, _, _) => LoopAgrees(k, c, ps);
    case Try(_, _, _, _) => TryAgrees(k, c.stmt, c.m, c.f, ps);
    case _ =>
  }

  lemma RuleAgrees(k: Machine, c: Claim, ps: seq<Claim>)
    requires Ready(k, c, ps)
    ensures Agreed(k, c)
  {
    hide *;
    match c
    case Evals(sync, _, _, _) => if sync { SyncAgrees(k, c, ps); } else { AsyncAgrees(k, c, ps); }
    case EvalsAll(_, _, _, _) => AllAgrees(k, c, ps);
    case Decides(_, _, _, _, _) => DecideAgrees(k, c, ps);
    case Assigns(_, _, _, _) => AssignAgrees(k, c, ps);
    case AssignsAll(_, _, _, _) => AssignAllAgrees(k, c, ps);
    case Visits(_, _, _, _, _) => VisitAgrees(k, c, ps);
    case Draws(_, _, _, _, _, _) => DrawAgrees(k, c, ps);
    case Admits(_, _, _) => AdmitAgrees(k, c, ps);
    case Runs(_, _, _) => RunAgrees(k, c, ps);
    case Does(_, _, _) => DoAgrees(k, c, ps);
    case Turns(_, _, _, _, _) => TurnAgrees(k, c, ps);
  }

  /** Whatever is derived and ends within the budget is what the interpreter does. */
  lemma {:induction false} DerivedAgrees(k: Machine, d: Derivation)
    requires Derives(Of(k), d) && End(d.claim).steps <= k.maxSteps
    ensures Agreed(k, d.claim)
    decreases d
  {
    hide Rule, Agreed;
    DerivedInTime(Of(k), d);
    var ps := Claims(d.premises);
    forall i | 0 <= i < |ps| ensures Agreed(k, ps[i]) {
      assert ps[i] == d.premises[i].claim;
      DerivedAgrees(k, d.premises[i]);
    }
    RuleAgrees(k, d.claim, ps);
  }

  // ----- What the interpreter does within its budget is derived -----

  lemma Conclude0(l: Language, c: Claim)
    requires Rule(l, c, [])
    ensures Means(l, c)
  {
    hide Rule;
    Conclude(l, c, []);
  }

  lemma Conclude1(l: Language, c: Claim, p: Claim)
    requires Rule(l, c, [p]) && Means(l, p)
    ensures Means(l, c)
  {
    hide Rule, Means;
    Conclude(l, c, [p]);
  }

  lemma Conclude2(l: Language, c: Claim, p: Claim, q: Claim)
    requires Rule(l, c, [p, q]) && Means(l, p) && Means(l, q)
    ensures Means(l, c)
  {
    hide Rule, Means;
    Conclude(l, c, [p, q]);
  }

  lemma Conclude3(l: Language, c: Claim, p: Claim, q: Claim, r: Claim)
    requires Rule(l, c, [p, q, r]) && Means(l, p) && Means(l, q) && Means(l, r)
    ensures Means(l, c)
  {
    hide Rule, Means;
    Conclude(l, c, [p, q, r]);
  }

  lemma Conclude4(l: Language, c: Claim, p: Claim, q: Claim, r: Claim, s: Claim)
    requires Rule(l, c, [p, q, r, s]) && Means(l, p) && Means(l, q) && Means(l, r) && Means(l, s)
    ensures Means(l, c)
  {
    hide Rule, Means;
    Conclude(l, c, [p, q, r, s]);
  }

  /** The interpreter's own claims. */
  function ByEval(k: Machine, sync: bool, e: Expr, m: Memory): Claim
    requires !Spent(k, m)
  {
    Evals(sync, e, m, if sync then SyncEval(k, e, m) else Eval(k, e, m))
  }

  function ByAll(k: Machine, sync: bool, es: seq<Expr>, m: Memory): Claim
    requires !Spent(k, m)
  {
    EvalsAll(sync, es, m, if sync then SyncAll(k, es, m) else EvalAll(k, es, m))
  }

  /** A call whose parts are derived. */
  lemma CallRuns(k: Machine, sync: bool, f: Expr, args: seq<Expr>, m: Memory)
    requires !Spent(k, m) && !Spent(k, Tick(m)) && !Spent(k, ByEval(k, sync, Call(f, args), m).v.memory)
    requires Means(Of(k), ByEval(k, sync, f, Tick(m)))
    requires var callee := ByEval(k, sync, f, Tick(m)).v;
             callee.result.Ok? ==> !Spent(k, callee.memory) && Means(Of(k), ByAll(k, sync, args, callee.memory))
    ensures Means(Of(k), ByEval(k, sync, Call(f, args), m))
  {
    hide Means, Within, EvalAll, SyncAll, Ask, Doing;
    var l, c, p := Of(k), ByEval(k, sync, Call(f, args), m), ByEval(k, sync, f, Tick(m));
    if p.v.result.Err? {
      Conclude1(l, c, p);
    } else {
      var q := ByAll(k, sync, args, p.v.memory);
      if q.vs.result.Ok? { DoingIs(k, q.vs.memory, Invoked(p.v.result.value, q.vs.result.value), true); }
      Conclude2(l, c, p, q);
    }
  }

  lemma {:induction false} SyncDerived(k: Machine, e: Expr, m: Memory)
    requires !Spent(k, m) && !Spent(k, SyncEval(k, e, m).memory)
    ensures Means(Of(k), ByEval(k, true, e, m))
    decreases Left(k, m), 0
  {
    hide Means, Within, SyncAll, Ask, Doing, Said;
    var l, n, c := Of(k), Tick(m), ByEval(k, true, e, m);
    match e
    case ListOf(items) =>
      if |items| > k.maxItems {
        Conclude0(l, c);
      } else {
        SyncAllDerived(k, items, n);
        Conclude1(l, c, ByAll(k, true, items, n));
      }
    case Binary(op, left, right) =>
      var p := ByAll(k, true, [left, right], n);
      SyncAllDerived(k, [left, right], n);
      if p.vs.result.Ok? { SaidIs(k, k.world.operate(op, p.vs.result.value), true); }
      Conclude1(l, c, p);
    case Operation(op, operands) =>
      var p := ByAll(k, true, operands, n);
      SyncAllDerived(k, operands, n);
      if p.vs.result.Ok? { SaidIs(k, k.world.operate(op, p.vs.result.value), false); }
      Conclude1(l, c, p);
    case Call(f, args) =>
      SyncDerived(k, f, n);
      var callee := SyncEval(k, f, n);
      if callee.result.Ok? { SyncAllDerived(k, args, callee.memory); }
      CallRuns(k, true, f, args, m);
    case _ => Conclude0(l, c);
  }

  lemma {:induction false} SyncAllDerived(k: Machine, es: seq<Expr>, m: Memory)
    requires !Spent(k, m) && !Spent(k, SyncAll(k, es, m).memory)
    ensures Means(Of(k), ByAll(k, true, es, m))
    decreases Left(k, m), 1
  {
    hide Means, Within, SyncEval;
    var l, c := Of(k), ByAll(k, true, es, m);
    if es == [] {
      Conclude0(l, c);
    } else {
      SyncDerived(k, es[0], m);
      var p := ByEval(k, true, es[0], m);
      if p.v.result.Err? {
        Conclude1(l, c, p);
      } else {
        SyncAllDerived(k, es[1..], p.v.memory);
        Conclude2(l, c, p, ByAll(k, true, es[1..], p.v.memory));
      }
    }
  }

  lemma {:induction false} EvalDerived(k: Machine, e: Expr, m: Memory)
    requires !Spent(k, m) && !Spent(k, Eval(k, e, m).memory)
    ensures Means(Of(k), ByEval(k, false, e, m))
    decreases Left(k, m), 0
  {
    hide Means, Within, SyncEval, EvalAll, EvalBool, Visit, Ask, Doing, Said, IsTrue, Truthy;
    var l, n, c := Of(k), Tick(m), ByEval(k, false, e, m);
    match e
    case Await(awaited) =>
      EvalDerived(k, awaited, n);
      var p := ByEval(k, false, awaited, n);
      if p.v.result.Ok? { DoingIs(k, p.v.memory, Awaited(p.v.result.value), false); }
      Conclude1(l, c, p);
    case Call(f, args) =>
      EvalDerived(k, f, n);
      var callee := Eval(k, f, n);
      if callee.result.Ok? { AllDerived(k, args, callee.memory); }
      CallRuns(k, false, f, args, m);
    case ListOf(items) =>
      if |items| > k.maxItems {
        Conclude0(l, c);
      } else {
        AllDerived(k, items, n);
        Conclude1(l, c, ByAll(k, false, items, n));
      }
    case BoolOp(isAnd, first, rest) =>
      EvalDerived(k, first, n);
      var p := ByEval(k, false, first, n);
      if p.v.result.Err? {
        Conclude1(l, c, p);
      } else {
        BoolDerived(k, isAnd, p.v.result.value, rest, p.v.memory);
        Conclude2(l, c, p, Decides(isAnd, p.v.result.value, rest, p.v.memory, c.v));
      }
    case IfExp(test, body, orelse) =>
      EvalDerived(k, test, n);
      var p := ByEval(k, false, test, n);
      if p.v.result.Err? {
        Conclude1(l, c, p);
      } else {
        TruthIs(k, p.v.memory.log, p.v.result.value);
        var branch := if Truthy(k, p.v.memory.log, p.v.result.value) then body else orelse;
        EvalDerived(k, branch, p.v.memory);
        Conclude2(l, c, p, ByEval(k, false, branch, p.v.memory));
      }
    case Comprehension(generator, generators, elements, _) =>
      var vs := Visit(k, [generator] + generators, elements, [], n);
      VisitDerived(k, [generator] + generators, elements, [], n);
      if vs.result.Ok? { SaidIs(k, k.world.operate("dict", vs.result.value), false); }
      Conclude1(l, c, Visits([generator] + generators, elements, [], n, vs));
    case _ =>
      SyncDerived(k, e, n);
      Conclude1(l, c, ByEval(k, true, e, n));
  }

  lemma {:induction false} AllDerived(k: Machine, es: seq<Expr>, m: Memory)
    requires !Spent(k, m) && !Spent(k, EvalAll(k, es, m).memory)
    ensures Means(Of(k), ByAll(k, false, es, m))
    decreases Left(k, m), 1
  {
    hide Means, Within, Eval;
    var l, c := Of(k), ByAll(k, false, es, m);
    if es == [] {
      Conclude0(l, c);
    } else {
      EvalDerived(k, es[0], m);
      var p := ByEval(k, false, es[0], m);
      if p.v.result.Err? {
        Conclude1(l, c, p);
      } else {
        AllDerived(k, es[1..], p.v.memory);
        Conclude2(l, c, p, ByAll(k, false, es[1..], p.v.memory));
      }
    }
  }

  lemma {:induction false} BoolDerived(k: Machine, isAnd: bool, value: Value, rest: seq<Expr>, m: Memory)
    requires !Spent(k, m) && !Spent(k, EvalBool(k, isAnd, value, rest, m).memory)
    ensures Means(Of(k), Decides(isAnd, value, rest, m, EvalBool(k, isAnd, value, rest, m)))
    decreases Left(k, m), 1
  {
    hide Means, Within, Eval, IsTrue, Truthy;
    var l, c := Of(k), Decides(isAnd, value, rest, m, EvalBool(k, isAnd, value, rest, m));
    TruthIs(k, m.log, value);
    if rest == [] || Truthy(k, m.log, value) != isAnd {
      Conclude0(l, c);
    } else {
      EvalDerived(k, rest[0], m);
      var p := ByEval(k, false, rest[0], m);
      if p.v.result.Err? {
        Conclude1(l, c, p);
      } else {
        BoolDerived(k, isAnd, p.v.result.value, rest[1..], p.v.memory);
        Conclude2(l, c, p, Decides(isAnd, p.v.result.value, rest[1..], p.v.memory, c.v));
      }
    }
  }

  lemma {:induction false} StoreDerived(k: Machine, target: Target, value: Value, m: Memory)
    requires !Spent(k, m) && !Spent(k, Store(k, target, value, m).memory)
    ensures Means(Of(k), Assigns(target, value, m, Store(k, target, value, m)))
    decreases Left(k, m), 2, target, 0
  {
    hide Means, Within, SyncEval, StoreFrom, Ask, Doing, ItemsOf, Contents;
    var l, c := Of(k), Assigns(target, value, m, Store(k, target, value, m));
    match target
    case ToName(_) => Conclude0(l, c);
    case ToTuple(elts) =>
      ContentsAre(k, m.log, value);
      var items := ItemsOf(k, m.log, value);
      if items.Some? && |items.value| == |elts| {
        StoreFromDerived(k, elts, items.value, m);
        Conclude1(l, c, AssignsAll(elts, items.value, m, c.v));
      } else {
        Conclude0(l, c);
      }
    case ToItem(container, key) =>
      SyncDerived(k, container, m);
      var p := ByEval(k, true, container, m);
      if p.v.result.Err? {
        Conclude1(l, c, p);
      } else {
        SyncDerived(k, key, p.v.memory);
        var q := ByEval(k, true, key, p.v.memory);
        if q.v.result.Ok? { DoingIs(k, q.v.memory, Stored(p.v.result.value, q.v.result.value, value), false); }
        Conclude2(l, c, p, q);
      }
  }

  lemma {:induction false} StoreFromDerived(k: Machine, elts: seq<Target>, values: seq<Value>, m: Memory)
    requires !Spent(k, m) && |values| == |elts| && !Spent(k, StoreFrom(k, elts, values, m).memory)
    ensures Means(Of(k), AssignsAll(elts, values, m, StoreFrom(k, elts, values, m)))
    decreases Left(k, m), 2, elts, 1
  {
    hide Means, Within, Store;
    var l, c := Of(k), AssignsAll(elts, values, m, StoreFrom(k, elts, values, m));
    if elts == [] {
      Conclude0(l, c);
    } else {
      StoreDerived(k, elts[0], values[0], m);
      var p := Assigns(elts[0], values[0], m, Store(k, elts[0], values[0], m));
      if p.v.result.Err? {
        Conclude1(l, c, p);
      } else {
        StoreFromDerived(k, elts[1..], values[1..], p.v.memory);
        Conclude2(l, c, p, AssignsAll(elts[1..], values[1..], p.v.memory, c.v));
      }
    }
  }

  lemma {:induction false} VisitDerived(k: Machine, generators: seq<Generator>, elements: seq<Expr>, output: seq<Value>, m: Memory)
    requires !Spent(k, m) && |output| <= k.maxItems && (generators == [] ==> |output| < k.maxItems)
    requires !Spent(k, Visit(k, generators, elements, output, m).memory)
    ensures Means(Of(k), Visits(generators, elements, output, m, Visit(k, generators, elements, output, m)))
    decreases Left(k, m), 2
  {
    hide Means, Within, Eval, EvalAll, VisitItems, ItemsOf, Contents;
    var l, c := Of(k), Visits(generators, elements, output, m, Visit(k, generators, elements, output, m));
    if generators == [] {
      AllDerived(k, elements, m);
      Conclude1(l, c, ByAll(k, false, elements, m));
    } else {
      EvalDerived(k, generators[0].iter, m);
      var p := ByEval(k, false, generators[0].iter, m);
      if p.v.result.Ok? {
        ContentsAre(k, p.v.memory.log, p.v.result.value);
        var items := ItemsOf(k, p.v.memory.log, p.v.result.value);
        if items.Some? {
          ItemsDerived(k, generators, items.value, elements, output, p.v.memory);
          Conclude2(l, c, p, Draws(generators, items.value, elements, output, p.v.memory, c.vs));
          return;
        }
      }
      Conclude1(l, c, p);
    }
  }

  lemma {:induction false} ItemsDerived(k: Machine, generators: seq<Generator>, items: seq<Value>, elements: seq<Expr>, output: seq<Value>, m: Memory)
    requires !Spent(k, m) && |output| <= k.maxItems && generators != []
    requires !Spent(k, VisitItems(k, generators, items, elements, output, m).memory)
    ensures Means(Of(k), Draws(generators, items, elements, output, m, VisitItems(k, generators, items, elements, output, m)))
    decreases Left(k, m), 3
  {
    hide Means, Within, Store, Conditions, Visit;
    var l, c, n := Of(k), Draws(generators, items, elements, output, m, VisitItems(k, generators, items, elements, output, m)), Tick(m);
    if items == [] || |output| >= k.maxItems {
      Conclude0(l, c);
    } else {
      var g := generators[0];
      StoreDerived(k, g.target, items[0], n);
      var p := Assigns(g.target, items[0], n, Store(k, g.target, items[0], n));
      if p.v.result.Err? {
        Conclude1(l, c, p);
      } else {
        ConditionsDerived(k, g.ifs, p.v.memory);
        var q := Admits(g.ifs, p.v.memory, Conditions(k, g.ifs, p.v.memory));
        if q.b.result.Err? {
          Conclude2(l, c, p, q);
        } else if !q.b.result.value {
          ItemsDerived(k, generators, items[1..], elements, output, q.b.memory);
          Conclude3(l, c, p, q, Draws(generators, items[1..], elements, output, q.b.memory, c.vs));
        } else {
          VisitDerived(k, generators[1..], elements, output, q.b.memory);
          var r := Visits(generators[1..], elements, output, q.b.memory, Visit(k, generators[1..], elements, output, q.b.memory));
          if r.vs.result.Err? {
            Conclude3(l, c, p, q, r);
          } else {
            ItemsDerived(k, generators, items[1..], elements, r.vs.result.value, r.vs.memory);
            Conclude4(l, c, p, q, r, Draws(generators, items[1..], elements, r.vs.result.value, r.vs.memory, c.vs));
          }
        }
      }
    }
  }

  lemma {:induction false} ConditionsDerived(k: Machine, ifs: seq<Expr>, m: Memory)
    requires !Spent(k, m) && !Spent(k, Conditions(k, ifs, m).memory)
    ensures Means(Of(k), Admits(ifs, m, Conditions(k, ifs, m)))
    decreases Left(k, m), 1
  {
    hide Means, Within, Eval, IsTrue, Truthy;
    var l, c := Of(k), Admits(ifs, m, Conditions(k, ifs, m));
    if ifs == [] {
      Conclude0(l, c);
    } else {
      EvalDerived(k, ifs[0], m);
      var p := ByEval(k, false, ifs[0], m);
      if p.v.result.Ok? {
        TruthIs(k, p.v.memory.log, p.v.result.value);
        if Truthy(k, p.v.memory.log, p.v.result.value) {
          ConditionsDerived(k, ifs[1..], p.v.memory);
          Conclude2(l, c, p, Admits(ifs[1..], p.v.memory, c.b));
          return;
        }
      }
      Conclude1(l, c, p);
    }
  }

  function ByExec(k: Machine, stmts: seq<Stmt>, m: Memory): Claim { Runs(stmts, m, Exec(k, stmts, m)) }

  lemma {:induction false} ExecDerived(k: Machine, stmts: seq<Stmt>, m: Memory)
    requires !Spent(k, m) && !Spent(k, Exec(k, stmts, m).memory)
    ensures Means(Of(k), ByExec(k, stmts, m))
    decreases Left(k, m), 1
  {
    hide Means, Within, Step;
    var l, c, n := Of(k), ByExec(k, stmts, m), Tick(m);
    if stmts == [] {
      Conclude0(l, c);
    } else {
      StepDerived(k, stmts[0], n);
      var p := Does(stmts[0], n, Step(k, stmts[0], n));
      if p.f.result == Ok(Went) {
        ExecDerived(k, stmts[1..], p.f.memory);
        Conclude2(l, c, p, ByExec(k, stmts[1..], p.f.memory));
      } else {
        Conclude1(l, c, p);
      }
    }
  }

  lemma {:induction false} StepDerived(k: Machine, stmt: Stmt, m: Memory)
    requires !Spent(k, m) && !Spent(k, Step(k, stmt, m).memory)
    ensures Means(Of(k), Does(stmt, m, Step(k, stmt, m)))
    decreases Left(k, m), 5
  {
    hide Means, Within, Eval, Exec, Store, StoreEach, StoreFrom, Each, Repeat, Attempt, IsTrue, Truthy, Contents, ItemsOf;
    var l, c := Of(k), Does(stmt, m, Step(k, stmt, m));
    match stmt
    case Assign(targets, value) => AssignDerived(k, stmt, m);
    case Annotated(target, given) =>
      if given.None? {
        Conclude0(l, c);
      } else {
        EvalDerived(k, given.value, m);
        var p := ByEval(k, false, given.value, m);
        if p.v.result.Err? {
          Conclude1(l, c, p);
        } else {
          StoreDerived(k, target, p.v.result.value, p.v.memory);
          Conclude2(l, c, p, Assigns(target, p.v.result.value, p.v.memory, Store(k, target, p.v.result.value, p.v.memory)));
        }
      }
    case Do(value) =>
      EvalDerived(k, value, m);
      Conclude1(l, c, ByEval(k, false, value, m));
    case Return(given) =>
      if given.None? {
        Conclude0(l, c);
      } else {
        EvalDerived(k, given.value, m);
        Conclude1(l, c, ByEval(k, false, given.value, m));
      }
    case If(test, body, orelse) =>
      EvalDerived(k, test, m);
      var p := ByEval(k, false, test, m);
      if p.v.result.Err? {
        Conclude1(l, c, p);
      } else {
        TruthIs(k, p.v.memory.log, p.v.result.value);
        var branch := if Truthy(k, p.v.memory.log, p.v.result.value) then body else orelse;
        ExecDerived(k, branch, p.v.memory);
        Conclude2(l, c, p, ByExec(k, branch, p.v.memory));
      }
    case For(_, iter, _, _) =>
      EvalDerived(k, iter, m);
      var p := ByEval(k, false, iter, m);
      if p.v.result.Ok? {
        ContentsAre(k, p.v.memory.log, p.v.result.value);
        var items := ItemsOf(k, p.v.memory.log, p.v.result.value);
        if items.Some? {
          EachDerived(k, stmt, items.value, 0, p.v.memory);
          Conclude2(l, c, p, Turns(stmt, items.value, 0, p.v.memory, c.f));
          return;
        }
      }
      Conclude1(l, c, p);
    case While(_, _, _) => RepeatDerived(k, stmt, m);
    case Try(_, _, _, _) => AttemptDerived(k, stmt, m);
    case _ => Conclude0(l, c);
  }

  lemma {:induction false} AssignDerived(k: Machine, stmt: Stmt, m: Memory)
    requires stmt.Assign? && !Spent(k, m) && !Spent(k, Step(k, stmt, m).memory)
    ensures Means(Of(k), Does(stmt, m, Step(k, stmt, m)))
    decreases Left(k, m), 4
  {
    hide Means, Within, Eval, Store, StoreEach, StoreFrom;
    var l, c := Of(k), Does(stmt, m, Step(k, stmt, m));
    EvalDerived(k, stmt.value, m);
    var p := ByEval(k, false, stmt.value, m);
    if p.v.result.Err? {
      Conclude1(l, c, p);
    } else {
      var values := seq(|stmt.targets|, _ => p.v.result.value);
      EachIsFrom(k, stmt.targets, p.v.result.value, p.v.memory);
      StoreFromDerived(k, stmt.targets, values, p.v.memory);
      Conclude2(l, c, p, AssignsAll(stmt.targets, values, p.v.memory, StoreFrom(k, stmt.targets, values, p.v.memory)));
    }
  }

  lemma {:induction false} EachDerived(k: Machine, loop: Stmt, items: seq<Value>, index: nat, m: Memory)
    requires !Spent(k, m) && loop.For? && !Spent(k, Each(k, loop, items, index, m).memory)
    ensures Means(Of(k), Turns(loop, items, index, m, Each(k, loop, items, index, m)))
    decreases Left(k, m), 3
  {
    hide Means, Within, Exec, Store;
    var l, c, n := Of(k), Turns(loop, items, index, m, Each(k, loop, items, index, m)), Tick(m);
    if items == [] {
      ExecDerived(k, loop.orelse, m);
      Conclude1(l, c, ByExec(k, loop.orelse, m));
    } else if index >= k.maxItems {
      Conclude0(l, c);
    } else {
      StoreDerived(k, loop.target, items[0], n);
      var p := Assigns(loop.target, items[0], n, Store(k, loop.target, items[0], n));
      if p.v.result.Err? {
        Conclude1(l, c, p);
      } else {
        ExecDerived(k, loop.body, p.v.memory);
        var q := ByExec(k, loop.body, p.v.memory);
        if q.f.result == Ok(Went) || q.f.result == Ok(Continued) {
          EachDerived(k, loop, items[1..], index + 1, q.f.memory);
          Conclude3(l, c, p, q, Turns(loop, items[1..], index + 1, q.f.memory, c.f));
        } else {
          Conclude2(l, c, p, q);
        }
      }
    }
  }

  lemma {:induction false} RepeatDerived(k: Machine, loop: Stmt, m: Memory)
    requires !Spent(k, m) && loop.While? && !Spent(k, Repeat(k, loop, m).memory)
    ensures Means(Of(k), Does(loop, m, Repeat(k, loop, m)))
    decreases Left(k, m), 3
  {
    hide Means, Within, Exec, Eval, IsTrue, Truthy;
    var l, c := Of(k), Does(loop, m, Repeat(k, loop, m));
    EvalDerived(k, loop.test, m);
    var p := ByEval(k, false, loop.test, m);
    if p.v.result.Err? {
      Conclude1(l, c, p);
    } else {
      TruthIs(k, p.v.memory.log, p.v.result.value);
      if !Truthy(k, p.v.memory.log, p.v.result.value) {
        ExecDerived(k, loop.orelse, p.v.memory);
        Conclude2(l, c, p, ByExec(k, loop.orelse, p.v.memory));
      } else {
        var n := Tick(p.v.memory);
        ExecDerived(k, loop.body, n);
        var q := ByExec(k, loop.body, n);
        if q.f.result == Ok(Went) || q.f.result == Ok(Continued) {
          RepeatDerived(k, loop, q.f.memory);
          Conclude3(l, c, p, q, Does(loop, q.f.memory, c.f));
        } else {
          Conclude2(l, c, p, q);
        }
      }
    }
  }

  lemma {:induction false} AttemptDerived(k: Machine, stmt: Stmt, m: Memory)
    requires !Spent(k, m) && stmt.Try? && !Spent(k, Attempt(k, stmt, m).memory)
    ensures Means(Of(k), Does(stmt, m, Attempt(k, stmt, m)))
    decreases Left(k, m), 4
  {
    hide Means, Within, Exec, Guarded, Handle, FirstFit, Fits;
    var l, c := Of(k), Does(stmt, m, Attempt(k, stmt, m));
    GuardedIs(k, stmt, m);
    ExecDerived(k, stmt.body, m);
    var p := ByExec(k, stmt.body, m);
    var tried := Guarded(k, stmt, m);
    var last := ByExec(k, stmt.finalbody, tried.memory);
    ExecDerived(k, stmt.finalbody, tried.memory);
    if p.f.result == Ok(Went) {
      ExecDerived(k, stmt.orelse, p.f.memory);
      Conclude3(l, c, p, ByExec(k, stmt.orelse, p.f.memory), last);
    } else if p.f.result.Err? && p.f.result.error.ToolFailed? {
      var graph := p.f.result.error.graph;
      if exists h: nat :: FirstFit(stmt.handlers, h, graph, p.f.memory.environment) {
        var h: nat :| FirstFit(stmt.handlers, h, graph, p.f.memory.environment);
        FirstHandles(k, stmt.handlers, h, graph, p.f.memory);
        FirstIsOne(stmt.handlers, h, graph, p.f.memory.environment);
        var n := Caught(stmt.handlers[h], graph, p.f.memory);
        ExecDerived(k, stmt.handlers[h].body, n);
        Conclude3(l, c, p, ByExec(k, stmt.handlers[h].body, n), last);
      } else {
        FirstFound(stmt.handlers, 0, graph, p.f.memory.environment);
        NoneHandles(k, stmt.handlers, graph, p.f.memory);
        Conclude2(l, c, p, last);
      }
    } else {
      Conclude2(l, c, p, last);
    }
  }

  lemma FirstIsOne(handlers: seq<Handler>, h: nat, graph: bool, environment: map<string, Value>)
    requires FirstFit(handlers, h, graph, environment)
    ensures h < |handlers|
  {
  }

  lemma GuardedIs(k: Machine, stmt: Stmt, m: Memory)
    requires !Spent(k, m) && stmt.Try?
    ensures var body := Exec(k, stmt.body, m);
            body.result == Ok(Went) ==> Guarded(k, stmt, m) == Exec(k, stmt.orelse, body.memory)
    ensures var body := Exec(k, stmt.body, m);
            body.result.Err? && body.result.error.ToolFailed? ==>
              !Spent(k, body.memory) && Guarded(k, stmt, m) == Handle(k, stmt.handlers, body.result.error.graph, body.memory)
    ensures var body := Exec(k, stmt.body, m);
            body.result != Ok(Went) && !(body.result.Err? && body.result.error.ToolFailed?) ==> Guarded(k, stmt, m) == body
  {
    hide Exec, Handle, Within;
  }

  // ----- The two are one -----

  /**
   For every program and budget: the interpreter ends with this result, effects and steps, and is not cut short, if and
   only if this is what the language makes of the program and the budget reaches to its end.
   */
  lemma MeaningIsRun(k: Machine, program: seq<Stmt>, m: Memory, f: Run<Flow>)
    requires !Spent(k, m)
    ensures Exec(k, program, m) == f && f.result != Err(StepLimit)
            <==> Means(Of(k), Runs(program, m, f)) && f.memory.steps <= k.maxSteps
  {
    hide Exec, Derives, Within;
    if Exec(k, program, m) == f && f.result != Err(StepLimit) { ExecDerived(k, program, m); }
    if Means(Of(k), Runs(program, m, f)) && f.memory.steps <= k.maxSteps {
      var d: Derivation :| d.claim == Runs(program, m, f) && Derives(Of(k), d);
      DerivedAgrees(k, d);
    }
  }

  /** A program has at most one meaning. */
  lemma OneMeaning(l: Language, program: seq<Stmt>, m: Memory, f: Run<Flow>, g: Run<Flow>)
    requires Means(l, Runs(program, m, f)) && Means(l, Runs(program, m, g))
    ensures f == g
  {
    hide Means, Exec;
    var enough := m.steps + f.memory.steps + g.memory.steps;
    var k := Machine(enough, l.maxItems, l.world);
    MeaningIsRun(k, program, m, f);
    MeaningIsRun(k, program, m, g);
  }

  /** How a program ends that comes to this. */
  function Ending(result: Result<Flow, Error>): Ended {
    match result
    case Err(error) => Stopped(error)
    case Ok(flow) => if flow.Returned? then Ended(flow.value) else if flow == Went then Ended(Nothing) else Escaped(flow)
  }

  /** A program that the budget does not cut short ends as it means to, and one that is cut short needs more. */
  lemma ProgramEnds(k: Machine, program: seq<Stmt>, m: Memory)
    requires !Spent(k, m)
    ensures var f := Exec(k, program, m);
            && RunOutcome(k, program, m) == Ending(f.result)
            && (f.memory.steps <= k.maxSteps ==> Means(Of(k), Runs(program, m, f)))
    ensures forall f :: Means(Of(k), Runs(program, m, f)) ==>
              if f.memory.steps <= k.maxSteps then RunOutcome(k, program, m) == Ending(f.result) && Exec(k, program, m).memory == f.memory
              else RunOutcome(k, program, m) == Stopped(StepLimit)
  {
    hide Means, Exec, Within;
    MeaningIsRun(k, program, m, Exec(k, program, m));
    forall f | Means(Of(k), Runs(program, m, f))
      ensures if f.memory.steps <= k.maxSteps then RunOutcome(k, program, m) == Ending(f.result) && Exec(k, program, m).memory == f.memory
              else RunOutcome(k, program, m) == Stopped(StepLimit)
    {
      MeaningIsRun(k, program, m, f);
      if Exec(k, program, m).result != Err(StepLimit) { OneMeaning(Of(k), program, m, f, Exec(k, program, m)); }
    }
  }
}
