/**
 The interpreter in place: an evaluator that counts its steps and changes its environment while it recurses over the
 syntax, with an error for every exception. Each method does exactly what the corresponding function of `Interpreter`
 says, so all that is proved there holds of it.
 */
module Evaluation {
  import opened Domain
  import opened Interpreter
  import Semantics
  import SemanticsTheorem

  /** A list that goes on with values found before. */
  function Prefixed(values: seq<Value>, r: Run<seq<Value>>): Run<seq<Value>> {
    if r.result.Err? then r else Run(Ok(values + r.result.value), r.memory)
  }

  lemma PrefixedByNothing(r: Run<seq<Value>>)
    ensures Prefixed([], r) == r
  {
    if r.result.Ok? { assert [] + r.result.value == r.result.value; }
  }

  lemma PrefixedByOneMore(values: seq<Value>, v: Value, r: Run<seq<Value>>)
    ensures Prefixed(values, Prefixed([v], r)) == Prefixed(values + [v], r)
  {
    if r.result.Ok? { assert values + ([v] + r.result.value) == values + [v] + r.result.value; }
  }

  lemma PrefixedNothing(values: seq<Value>, m: Memory)
    ensures Prefixed(values, Run(Ok([]), m)) == Run(Ok(values), m)
  {
    assert values + [] == values;
  }

  class Evaluator {
    const machine: Machine
    var environment: map<string, Value>
    var log: seq<Effect>
    var steps: nat

    ghost function Now(): Memory
      reads this
    {
      Memory(environment, log, steps)
    }

    constructor (machine: Machine, environment: map<string, Value>)
      ensures Now() == Memory(environment, [], 0) && this.machine == machine
    {
      this.machine, this.environment := machine, environment;
      log, steps := [], 0;
    }

    method TakeStep() returns (ok: bool)
      modifies this
      ensures Now() == Tick(old(Now())) && ok == !Spent(machine, Now())
    {
      steps := steps + 1;
      ok := steps <= machine.maxSteps;
    }

    /** Do something and take the answer of the world. */
    method Perform(deed: Deed, bounded: bool) returns (result: Result<Value, Error>)
      requires !Spent(machine, Now())
      modifies this
      ensures Run(result, Now()) == Ask(machine, old(Now()), deed, bounded)
    {
      log := log + [Effect(steps, deed)];
      var reply := machine.world.reply(log);
      result := if bounded then BoundedReply(machine, reply) else Replied(reply);
    }

    // ----- Expressions -----

    method EvalExpr(e: Expr) returns (result: Result<Value, Error>)
      requires !Spent(machine, Now())
      modifies this
      ensures Run(result, Now()) == Eval(machine, e, old(Now()))
      decreases Left(machine, Now()), 0
    {
      hide EvalAll, EvalBool, SyncEval, Visit, Ask, Within;
      var ok := TakeStep();
      if !ok { return Err(StepLimit); }
      match e
      case Await(awaited) =>
        result := EvalExpr(awaited);
        if result.Ok? { result := Perform(Awaited(result.value), false); }
      case Call(f, args) =>
        result := EvalExpr(f);
        if result.Ok? {
          var values := EvalExprs(args);
          if values.Err? { return Err(values.error); }
          result := Perform(Invoked(result.value, values.value), true);
        }
      case ListOf(items) =>
        if |items| > machine.maxItems { return Err(CollectionLimit); }
        var values := EvalExprs(items);
        return if values.Err? then Err(values.error) else Ok(Items(values.value));
      case BoolOp(isAnd, first, rest) =>
        result := EvalExpr(first);
        if result.Ok? { result := EvalRest(isAnd, result.value, rest); }
      case IfExp(test, body, orelse) =>
        result := EvalExpr(test);
        if result.Ok? { result := EvalExpr(if Truthy(machine, log, result.value) then body else orelse); }
      case Comprehension(generator, generators, elements, dictionary) =>
        var values := VisitAll([generator] + generators, elements, []);
        if values.Err? { return Err(values.error); }
        return if dictionary then Replied(machine.world.operate("dict", values.value)) else Ok(Items(values.value));
      case _ => result := EvalSync(e);
    }

    method EvalExprs(es: seq<Expr>) returns (result: Result<seq<Value>, Error>)
      requires !Spent(machine, Now())
      modifies this
      ensures Run(result, Now()) == EvalAll(machine, es, old(Now()))
      decreases Left(machine, Now()), 1
    {
      hide Eval, Within;
      var values: seq<Value> := [];
      ghost var m := Now();
      assert es[0..] == es;
      PrefixedByNothing(EvalAll(machine, es, m));
      for i := 0 to |es|
        invariant !Spent(machine, Now()) && m.steps <= steps
        invariant EvalAll(machine, es, m) == Prefixed(values, EvalAll(machine, es[i..], Now()))
      {
        assert es[i..][0] == es[i] && es[i..][1..] == es[i + 1..];
        var v := EvalExpr(es[i]);
        if v.Err? { return Err(v.error); }
        PrefixedByOneMore(values, v.value, EvalAll(machine, es[i + 1..], Now()));
        values := values + [v.value];
      }
      PrefixedNothing(values, Now());
      result := Ok(values);
    }

    method EvalRest(isAnd: bool, first: Value, rest: seq<Expr>) returns (result: Result<Value, Error>)
      requires !Spent(machine, Now())
      modifies this
      ensures Run(result, Now()) == EvalBool(machine, isAnd, first, rest, old(Now()))
      decreases Left(machine, Now()), 1
    {
      hide Eval, Within;
      var value := first;
      ghost var m := Now();
      assert rest[0..] == rest;
      for i := 0 to |rest|
        invariant !Spent(machine, Now()) && m.steps <= steps
        invariant EvalBool(machine, isAnd, first, rest, m) == EvalBool(machine, isAnd, value, rest[i..], Now())
      {
        if Truthy(machine, log, value) != isAnd { return Ok(value); }
        assert rest[i..][0] == rest[i] && rest[i..][1..] == rest[i + 1..];
        var v := EvalExpr(rest[i]);
        if v.Err? { return v; }
        value := v.value;
      }
      result := Ok(value);
    }

    method EvalSync(e: Expr) returns (result: Result<Value, Error>)
      requires !Spent(machine, Now())
      modifies this
      ensures Run(result, Now()) == SyncEval(machine, e, old(Now()))
      decreases Left(machine, Now()), 0
    {
      hide SyncAll, Ask, Within, BoundedReply, Replied;
      var ok := TakeStep();
      if !ok { return Err(StepLimit); }
      match e
      case Const(v) => return Ok(v);
      case Name(id) => return if id in environment then Ok(environment[id]) else Err(OtherError);
      case ListOf(items) =>
        if |items| > machine.maxItems { return Err(CollectionLimit); }
        var values := EvalSyncs(items);
        return if values.Err? then Err(values.error) else Ok(Items(values.value));
      case Binary(op, left, right) =>
        var values := EvalSyncs([left, right]);
        return if values.Err? then Err(values.error) else BoundedReply(machine, machine.world.operate(op, values.value));
      case Operation(op, operands) =>
        var values := EvalSyncs(operands);
        return if values.Err? then Err(values.error) else Replied(machine.world.operate(op, values.value));
      case Call(f, args) =>
        result := EvalSync(f);
        if result.Ok? {
          var values := EvalSyncs(args);
          if values.Err? { return Err(values.error); }
          result := Perform(Invoked(result.value, values.value), true);
        }
      case _ => return Err(OtherError);
    }

    method EvalSyncs(es: seq<Expr>) returns (result: Result<seq<Value>, Error>)
      requires !Spent(machine, Now())
      modifies this
      ensures Run(result, Now()) == SyncAll(machine, es, old(Now()))
      decreases Left(machine, Now()), 1
    {
      hide SyncEval, Within;
      var values: seq<Value> := [];
      ghost var m := Now();
      assert es[0..] == es;
      PrefixedByNothing(SyncAll(machine, es, m));
      for i := 0 to |es|
        invariant !Spent(machine, Now()) && m.steps <= steps
        invariant SyncAll(machine, es, m) == Prefixed(values, SyncAll(machine, es[i..], Now()))
      {
        assert es[i..][0] == es[i] && es[i..][1..] == es[i + 1..];
        var v := EvalSync(es[i]);
        if v.Err? { return Err(v.error); }
        PrefixedByOneMore(values, v.value, SyncAll(machine, es[i + 1..], Now()));
        values := values + [v.value];
      }
      PrefixedNothing(values, Now());
      result := Ok(values);
    }

    // ----- Assignment -----

    method AssignTo(target: Target, value: Value) returns (result: Result<Value, Error>)
      requires !Spent(machine, Now())
      modifies this
      ensures Run(result, Now()) == Interpreter.Store(machine, target, value, old(Now()))
      decreases Left(machine, Now()), 2, target, 0
    {
      hide SyncEval, Ask, Within;
      match target
      case ToName(id) =>
        log := log + [Effect(steps, Bound(id, value))];
        environment := environment[id := value];
        return Ok(Nothing);
      case ToTuple(elts) =>
        var items := ItemsOf(machine, log, value);
        if items.None? || |items.value| != |elts| { return Err(OtherError); }
        result := AssignItems(elts, items.value);
      case ToItem(container, key) =>
        result := EvalSync(container);
        if result.Ok? {
          var index := EvalSync(key);
          if index.Err? { return index; }
          result := Perform(Stored(result.value, index.value, value), false);
        }
    }

    method AssignItems(elts: seq<Target>, values: seq<Value>) returns (result: Result<Value, Error>)
      requires !Spent(machine, Now()) && |values| == |elts|
      modifies this
      ensures Run(result, Now()) == StoreFrom(machine, elts, values, old(Now()))
      decreases Left(machine, Now()), 2, elts, 1
    {
      hide Interpreter.Store, Within;
      ghost var m := Now();
      assert elts[0..] == elts && values[0..] == values;
      for i := 0 to |elts|
        invariant !Spent(machine, Now()) && m.steps <= steps
        invariant StoreFrom(machine, elts, values, m) == StoreFrom(machine, elts[i..], values[i..], Now())
      {
        assert elts[i..][0] == elts[i] && elts[i..][1..] == elts[i + 1..];
        assert values[i..][0] == values[i] && values[i..][1..] == values[i + 1..];
        result := AssignTo(elts[i], values[i]);
        if result.Err? { return; }
      }
      result := Ok(Nothing);
    }

    method AssignEach(targets: seq<Target>, value: Value) returns (result: Result<Value, Error>)
      requires !Spent(machine, Now())
      modifies this
      ensures Run(result, Now()) == StoreEach(machine, targets, value, old(Now()))
      decreases Left(machine, Now()), 3, |targets|
    {
      hide Interpreter.Store, Within;
      ghost var m := Now();
      assert targets[0..] == targets;
      for i := 0 to |targets|
        invariant !Spent(machine, Now()) && m.steps <= steps
        invariant StoreEach(machine, targets, value, m) == StoreEach(machine, targets[i..], value, Now())
      {
        assert targets[i..][0] == targets[i] && targets[i..][1..] == targets[i + 1..];
        result := AssignTo(targets[i], value);
        if result.Err? { return; }
      }
      result := Ok(Nothing);
    }

    // ----- Comprehensions -----

    method VisitAll(generators: seq<Generator>, elements: seq<Expr>, output: seq<Value>) returns (result: Result<seq<Value>, Error>)
      requires !Spent(machine, Now()) && |output| <= machine.maxItems && (generators == [] ==> |output| < machine.maxItems)
      modifies this
      ensures Run(result, Now()) == Visit(machine, generators, elements, output, old(Now()))
      decreases Left(machine, Now()), 2
    {
      hide EvalAll, Eval, VisitItems, Within;
      if generators == [] {
        var values := EvalExprs(elements);
        if values.Err? { return values; }
        return Ok(output + [if |values.value| == 1 then values.value[0] else Items(values.value)]);
      }
      var iterable := EvalExpr(generators[0].iter);
      if iterable.Err? { return Err(iterable.error); }
      var items := ItemsOf(machine, log, iterable.value);
      if items.None? { return Err(OtherError); }
      result := VisitEach(generators, items.value, elements, output);
    }

    method VisitEach(generators: seq<Generator>, items: seq<Value>, elements: seq<Expr>, before: seq<Value>)
      returns (result: Result<seq<Value>, Error>)
      requires !Spent(machine, Now()) && |before| <= machine.maxItems && generators != []
      modifies this
      ensures Run(result, Now()) == VisitItems(machine, generators, items, elements, before, old(Now()))
      decreases Left(machine, Now()), 3
    {
      hide Visit, Conditions, Interpreter.Store, Within;
      var output := before;
      ghost var m := Now();
      assert items[0..] == items;
      for i := 0 to |items|
        invariant !Spent(machine, Now()) && m.steps <= steps && |output| <= machine.maxItems
        invariant VisitItems(machine, generators, items, elements, before, m) == VisitItems(machine, generators, items[i..], elements, output, Now())
      {
        assert items[i..][0] == items[i] && items[i..][1..] == items[i + 1..];
        if |output| >= machine.maxItems { return Err(CollectionLimit); }
        var ok := TakeStep();
        if !ok { return Err(StepLimit); }
        var bound := AssignTo(generators[0].target, items[i]);
        if bound.Err? { return Err(bound.error); }
        var holds := Hold(generators[0].ifs);
        if holds.Err? { return Err(holds.error); }
        if holds.value {
          result := VisitAll(generators[1..], elements, output);
          if result.Err? { return; }
          output := result.value;
        }
      }
      result := Ok(output);
    }

    method Hold(ifs: seq<Expr>) returns (result: Result<bool, Error>)
      requires !Spent(machine, Now())
      modifies this
      ensures Run(result, Now()) == Conditions(machine, ifs, old(Now()))
      decreases Left(machine, Now()), 1
    {
      hide Eval, Within;
      ghost var m := Now();
      assert ifs[0..] == ifs;
      for i := 0 to |ifs|
        invariant !Spent(machine, Now()) && m.steps <= steps
        invariant Conditions(machine, ifs, m) == Conditions(machine, ifs[i..], Now())
      {
        assert ifs[i..][0] == ifs[i] && ifs[i..][1..] == ifs[i + 1..];
        var v := EvalExpr(ifs[i]);
        if v.Err? { return Err(v.error); }
        if !Truthy(machine, log, v.value) { return Ok(false); }
      }
      result := Ok(true);
    }

    // ----- Statements -----

    method RunStatements(stmts: seq<Stmt>) returns (result: Result<Flow, Error>)
      modifies this
      ensures Run(result, Now()) == Exec(machine, stmts, old(Now()))
      decreases Left(machine, Now()), 1
    {
      hide Step, Within;
      ghost var m := Now();
      assert stmts[0..] == stmts;
      for i := 0 to |stmts|
        invariant m.steps <= steps && (i > 0 ==> !Spent(machine, Now()))
        invariant Exec(machine, stmts, m) == Exec(machine, stmts[i..], Now())
      {
        assert stmts[i..][0] == stmts[i] && stmts[i..][1..] == stmts[i + 1..];
        var ok := TakeStep();
        if !ok { return Err(StepLimit); }
        result := RunStatement(stmts[i]);
        if result != Ok(Went) { return; }
      }
      result := Ok(Went);
    }

    method RunStatement(stmt: Stmt) returns (result: Result<Flow, Error>)
      requires !Spent(machine, Now())
      modifies this
      ensures Run(result, Now()) == Step(machine, stmt, old(Now()))
      decreases Left(machine, Now()), 5
    {
      hide Eval, Exec, Interpreter.Store, StoreEach, Each, Repeat, Attempt, Within;
      match stmt
      case Assign(targets, value) =>
        var v := EvalExpr(value);
        if v.Ok? { v := AssignEach(targets, v.value); }
        return if v.Err? then Err(v.error) else Ok(Went);
      case Annotated(target, given) =>
        if given.None? { return Ok(Went); }
        var v := EvalExpr(given.value);
        if v.Ok? { v := AssignTo(target, v.value); }
        return if v.Err? then Err(v.error) else Ok(Went);
      case Do(value) =>
        var v := EvalExpr(value);
        return if v.Err? then Err(v.error) else Ok(Went);
      case Return(given) =>
        if given.None? { return Ok(Returned(Nothing)); }
        var v := EvalExpr(given.value);
        return if v.Err? then Err(v.error) else Ok(Returned(v.value));
      case If(test, body, orelse) =>
        var t := EvalExpr(test);
        if t.Err? { return Err(t.error); }
        result := RunStatements(if Truthy(machine, log, t.value) then body else orelse);
      case For(_, iter, _, _) =>
        var iterable := EvalExpr(iter);
        if iterable.Err? { return Err(iterable.error); }
        var items := ItemsOf(machine, log, iterable.value);
        if items.None? { return Err(OtherError); }
        result := RunFor(stmt, items.value);
      case While(_, _, _) => result := RunWhile(stmt);
      case Try(_, _, _, _) => result := RunTry(stmt);
      case Pass => return Ok(Went);
      case Break => return Ok(Broke);
      case Continue => return Ok(Continued);
    }

    method RunFor(loop: Stmt, items: seq<Value>) returns (result: Result<Flow, Error>)
      requires !Spent(machine, Now()) && loop.For?
      modifies this
      ensures Run(result, Now()) == Each(machine, loop, items, 0, old(Now()))
      decreases Left(machine, Now()), 3
    {
      hide Exec, Interpreter.Store, Within;
      ghost var m := Now();
      assert items[0..] == items;
      for i := 0 to |items|
        invariant !Spent(machine, Now()) && m.steps <= steps
        invariant Each(machine, loop, items, 0, m) == Each(machine, loop, items[i..], i, Now())
      {
        assert items[i..][0] == items[i] && items[i..][1..] == items[i + 1..];
        if i >= machine.maxItems { return Err(CollectionLimit); }
        var ok := TakeStep();
        if !ok { return Err(StepLimit); }
        var bound := AssignTo(loop.target, items[i]);
        if bound.Err? { return Err(bound.error); }
        result := RunStatements(loop.body);
        if result == Ok(Broke) { return Ok(Went); }
        if result != Ok(Went) && result != Ok(Continued) { return; }
      }
      result := RunStatements(loop.orelse);
    }

    method RunWhile(loop: Stmt) returns (result: Result<Flow, Error>)
      requires !Spent(machine, Now()) && loop.While?
      modifies this
      ensures Run(result, Now()) == Repeat(machine, loop, old(Now()))
      decreases Left(machine, Now()), 3
    {
      hide Exec, Eval, Within;
      ghost var m := Now();
      while true
        invariant !Spent(machine, Now()) && m.steps <= steps
        invariant Repeat(machine, loop, m) == Repeat(machine, loop, Now())
        decreases Left(machine, Now())
      {
        var t := EvalExpr(loop.test);
        if t.Err? { return Err(t.error); }
        if !Truthy(machine, log, t.value) {
          result := RunStatements(loop.orelse);
          return;
        }
        var ok := TakeStep();
        if !ok { return Err(StepLimit); }
        result := RunStatements(loop.body);
        if result == Ok(Broke) { return Ok(Went); }
        if result != Ok(Went) && result != Ok(Continued) { return; }
      }
    }

    method RunTry(stmt: Stmt) returns (result: Result<Flow, Error>)
      requires !Spent(machine, Now()) && stmt.Try?
      modifies this
      ensures Run(result, Now()) == Attempt(machine, stmt, old(Now()))
      decreases Left(machine, Now()), 4
    {
      hide Exec, Guarded, Within;
      result := RunGuarded(stmt);
      var last := RunStatements(stmt.finalbody);
      if last != Ok(Went) { result := last; }
    }

    method RunGuarded(stmt: Stmt) returns (result: Result<Flow, Error>)
      requires !Spent(machine, Now()) && stmt.Try?
      modifies this
      ensures Run(result, Now()) == Guarded(machine, stmt, old(Now()))
      decreases Left(machine, Now()), 3
    {
      hide Exec, Handle, Within;
      result := RunStatements(stmt.body);
      if result == Ok(Went) {
        result := RunStatements(stmt.orelse);
      } else if result.Err? && result.error.ToolFailed? {
        result := RunHandler(stmt.handlers, result.error.graph);
      }
    }

    method RunHandler(handlers: seq<Handler>, graph: bool) returns (result: Result<Flow, Error>)
      requires !Spent(machine, Now())
      modifies this
      ensures Run(result, Now()) == Handle(machine, handlers, graph, old(Now()))
      decreases Left(machine, Now()), 2
    {
      hide Exec, Within;
      ghost var m := Now();
      assert handlers[0..] == handlers;
      for i := 0 to |handlers|
        invariant Now() == m && Handle(machine, handlers, graph, m) == Handle(machine, handlers[i..], graph, m)
      {
        var handler := handlers[i];
        assert handlers[i..][0] == handler && handlers[i..][1..] == handlers[i + 1..];
        var caught := match handler.catch
          case Everything => true
          case Named(id) => id in environment && environment[id].ErrorClass? && (environment[id].graph ==> graph)
          case Unmatched => false;
        if caught {
          if handler.name.Some? {
            log := log + [Effect(steps, Bound(handler.name.value, ErrorValue(graph)))];
            environment := environment[handler.name.value := ErrorValue(graph)];
          }
          result := RunStatements(handler.body);
          return;
        }
      }
      result := Err(ToolFailed(graph));
    }

    /**
     A whole program. It ends as it means to, with the same effects and in the same memory, if the budget reaches to that
     end, and with the limit error, nothing done beyond the budget, if it does not.
     */
    method RunProgram(program: seq<Stmt>) returns (ended: Ended)
      requires steps == 0 && log == []
      modifies this
      ensures ended == RunOutcome(machine, program, old(Now())) && Now() == Exec(machine, program, old(Now())).memory
      ensures ended != Stopped(StepLimit) ==>
                exists f: Run<Flow> :: f.memory == Now() && SemanticsTheorem.Ending(f.result) == ended
                  && Semantics.Means(Semantics.Of(machine), Semantics.Runs(program, old(Now()), f))
      ensures forall f: Run<Flow> :: Semantics.Means(Semantics.Of(machine), Semantics.Runs(program, old(Now()), f)) ==>
                if f.memory.steps <= machine.maxSteps then ended == SemanticsTheorem.Ending(f.result) && Now() == f.memory
                else ended == Stopped(StepLimit)
      ensures ended == Stopped(StepLimit) <==> steps > machine.maxSteps
      ensures forall i :: 0 <= i < |log| ==> log[i].at <= machine.maxSteps
    {
      assert Within(machine, Now());
      hide Exec, Semantics.Means;
      SemanticsTheorem.ProgramEnds(machine, program, Now());
      var result := RunStatements(program);
      match result
      case Ok(Went) => return Ended(Nothing);
      case Ok(Returned(v)) => return Ended(v);
      case Ok(flow) => return Escaped(flow);
      case Err(error) => return Stopped(error);
    }
  }
}
