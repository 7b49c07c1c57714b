/**
 What Code Mode programs mean, apart from the interpreter and from any budget: a big-step relation with a rule for each
 form of expression and statement. A claim holds when a finite derivation shows it.
 */
module Semantics {
  import opened Domain
  import opened Interpreter

  /** All of a machine but its budget. */
  datatype Language = Language(maxItems: nat, world: World)

  function Of(k: Machine): Language { Language(k.maxItems, k.world) }

  predicate IsTrue(l: Language, log: seq<Effect>, v: Value) {
    v != Nothing && v != Number(0) && v != Items([]) && (v.Foreign? ==> l.world.truth(log, v.id))
  }

  /** What can be taken from a value one by one. */
  function Contents(l: Language, log: seq<Effect>, v: Value): Option<seq<Value>> {
    if v.Items? then Some(v.items) else if v.Foreign? then l.world.iterate(log, v.id) else None
  }

  /** An answer of the world; one that is checked must not be a list over the limit. */
  function Said(l: Language, reply: Reply, checked: bool): Result<Value, Error> {
    match reply
    case Answer(v) => if checked && v.Items? && |v.items| > l.maxItems then Err(CollectionLimit) else Ok(v)
    case Overflow => Err(CollectionLimit)
    case ToolFailure(graph) => Err(ToolFailed(graph))
    case Failure => Err(OtherError)
  }

  function Later(m: Memory): Memory { Memory(m.environment, m.log, m.steps + 1) }

  function Gone<T>(value: T, m: Memory): Run<T> { Run(Ok(value), m) }

  function Raised<T>(error: Error, m: Memory): Run<T> { Run(Err(error), m) }

  function Bind(m: Memory, id: string, v: Value): Memory {
    Memory(m.environment[id := v], m.log + [Effect(m.steps, Bound(id, v))], m.steps)
  }

  /** Do something, and get the answer of a world that knows all that was done. */
  function Doing(l: Language, m: Memory, deed: Deed, checked: bool): Run<Value> {
    var log := m.log + [Effect(m.steps, deed)];
    Run(Said(l, l.world.reply(log), checked), Memory(m.environment, log, m.steps))
  }

  // ----- Claims -----

  /** From this memory, this form comes to that result. */
  datatype Claim =
    | Evals(sync: bool, e: Expr, m: Memory, v: Run<Value>)
    | EvalsAll(sync: bool, es: seq<Expr>, m: Memory, vs: Run<seq<Value>>)
    | Decides(isAnd: bool, value: Value, rest: seq<Expr>, m: Memory, v: Run<Value>)
    | Assigns(target: Target, value: Value, m: Memory, v: Run<Value>)
    | AssignsAll(targets: seq<Target>, values: seq<Value>, m: Memory, v: Run<Value>)
    | Visits(generators: seq<Generator>, elements: seq<Expr>, output: seq<Value>, m: Memory, vs: Run<seq<Value>>)
    | Draws(generators: seq<Generator>, items: seq<Value>, elements: seq<Expr>, output: seq<Value>, m: Memory, vs: Run<seq<Value>>)
    | Admits(ifs: seq<Expr>, m: Memory, b: Run<bool>)
    | Runs(stmts: seq<Stmt>, m: Memory, f: Run<Flow>)
    | Does(stmt: Stmt, m: Memory, f: Run<Flow>)
    | Turns(loop: Stmt, items: seq<Value>, index: nat, m: Memory, f: Run<Flow>)

  function End(c: Claim): Memory {
    match c
    case Evals(_, _, _, v) => v.memory
    case EvalsAll(_, _, _, vs) => vs.memory
    case Decides(_, _, _, _, v) => v.memory
    case Assigns(_, _, _, v) => v.memory
    case AssignsAll(_, _, _, v) => v.memory
    case Visits(_, _, _, _, vs) => vs.memory
    case Draws(_, _, _, _, _, vs) => vs.memory
    case Admits(_, _, b) => b.memory
    case Runs(_, _, f) => f.memory
    case Does(_, _, f) => f.memory
    case Turns(_, _, _, _, f) => f.memory
  }

  predicate IsEval(c: Claim, sync: bool, e: Expr, m: Memory) { c.Evals? && c == Evals(sync, e, m, c.v) }

  predicate IsAll(c: Claim, sync: bool, es: seq<Expr>, m: Memory) { c.EvalsAll? && c == EvalsAll(sync, es, m, c.vs) }

  predicate IsAssign(c: Claim, target: Target, value: Value, m: Memory) { c.Assigns? && c == Assigns(target, value, m, c.v) }

  predicate IsRun(c: Claim, stmts: seq<Stmt>, m: Memory) { c.Runs? && c == Runs(stmts, m, c.f) }

  // ----- Expressions: what they come to after the step that each costs -----

  predicate CallRule(l: Language, sync: bool, f: Expr, args: seq<Expr>, m: Memory, v: Run<Value>, ps: seq<Claim>) {
    && |ps| > 0 && IsEval(ps[0], sync, f, m)
    && match ps[0].v.result
       case Err(error) => |ps| == 1 && v == Raised(error, ps[0].v.memory)
       case Ok(callee) =>
         && |ps| == 2 && IsAll(ps[1], sync, args, ps[0].v.memory)
         && match ps[1].vs.result
            case Err(error) => v == Raised(error, ps[1].vs.memory)
            case Ok(values) => v == Doing(l, ps[1].vs.memory, Invoked(callee, values), true)
  }

  /** A list is as long as it is written, which must be within the limit before anything in it is evaluated. */
  predicate ListRule(l: Language, sync: bool, items: seq<Expr>, m: Memory, v: Run<Value>, ps: seq<Claim>) {
    if |items| > l.maxItems then ps == [] && v == Raised(CollectionLimit, m)
    else
      && |ps| == 1 && IsAll(ps[0], sync, items, m)
      && match ps[0].vs.result
         case Err(error) => v == Raised(error, ps[0].vs.memory)
         case Ok(values) => v == Gone(Items(values), ps[0].vs.memory)
  }

  predicate OperatorRule(l: Language, op: string, operands: seq<Expr>, checked: bool, m: Memory, v: Run<Value>, ps: seq<Claim>) {
    && |ps| == 1 && IsAll(ps[0], true, operands, m)
    && match ps[0].vs.result
       case Err(error) => v == Raised(error, ps[0].vs.memory)
       case Ok(values) => v == Run(Said(l, l.world.operate(op, values), checked), ps[0].vs.memory)
  }

  predicate AwaitRule(l: Language, awaited: Expr, m: Memory, v: Run<Value>, ps: seq<Claim>) {
    && |ps| == 1 && IsEval(ps[0], false, awaited, m)
    && match ps[0].v.result
       case Err(error) => v == Raised(error, ps[0].v.memory)
       case Ok(value) => v == Doing(l, ps[0].v.memory, Awaited(value), false)
  }

  predicate BoolRule(isAnd: bool, first: Expr, rest: seq<Expr>, m: Memory, v: Run<Value>, ps: seq<Claim>) {
    && |ps| > 0 && IsEval(ps[0], false, first, m)
    && match ps[0].v.result
       case Err(error) => |ps| == 1 && v == Raised(error, ps[0].v.memory)
       case Ok(value) => |ps| == 2 && ps[1] == Decides(isAnd, value, rest, ps[0].v.memory, v)
  }

  /** The first operand that decides, false for `and` and true for `or`, is the value; else the last is. */
  predicate DecideRule(l: Language, isAnd: bool, value: Value, rest: seq<Expr>, m: Memory, v: Run<Value>, ps: seq<Claim>) {
    if rest == [] || (isAnd && !IsTrue(l, m.log, value)) || (!isAnd && IsTrue(l, m.log, value)) then ps == [] && v == Gone(value, m)
    else BoolRule(isAnd, rest[0], rest[1..], m, v, ps)
  }

  predicate IfExpRule(l: Language, test: Expr, body: Expr, orelse: Expr, m: Memory, v: Run<Value>, ps: seq<Claim>) {
    && |ps| > 0 && IsEval(ps[0], false, test, m)
    && match ps[0].v.result
       case Err(error) => |ps| == 1 && v == Raised(error, ps[0].v.memory)
       case Ok(t) =>
         if IsTrue(l, ps[0].v.memory.log, t) then |ps| == 2 && ps[1] == Evals(false, body, ps[0].v.memory, v)
         else |ps| == 2 && ps[1] == Evals(false, orelse, ps[0].v.memory, v)
  }

  predicate ComprehensionRule(l: Language, generators: seq<Generator>, elements: seq<Expr>, dictionary: bool, m: Memory,
                              v: Run<Value>, ps: seq<Claim>) {
    && |ps| == 1 && ps[0].Visits? && ps[0] == Visits(generators, elements, [], m, ps[0].vs)
    && match ps[0].vs.result
       case Err(error) => v == Raised(error, ps[0].vs.memory)
       case Ok(values) =>
         v == Run(if dictionary then Said(l, l.world.operate("dict", values), false) else Ok(Items(values)), ps[0].vs.memory)
  }

  /** Where nothing may await, there are constants, names, lists, operators and calls. */
  predicate SyncRule(l: Language, e: Expr, m: Memory, v: Run<Value>, ps: seq<Claim>) {
    match e
    case Const(value) => ps == [] && v == Gone(value, m)
    case Name(id) => ps == [] && v == if id in m.environment then Gone(m.environment[id], m) else Raised(OtherError, m)
    case ListOf(items) => ListRule(l, true, items, m, v, ps)
    case Binary(op, left, right) => OperatorRule(l, op, [left, right], true, m, v, ps)
    case Operation(op, operands) => OperatorRule(l, op, operands, false, m, v, ps)
    case Call(f, args) => CallRule(l, true, f, args, m, v, ps)
    case _ => ps == [] && v == Raised(OtherError, m)
  }

  /** Everything else may await; what is left is evaluated as above, at the cost of another step. */
  predicate AsyncRule(l: Language, e: Expr, m: Memory, v: Run<Value>, ps: seq<Claim>) {
    match e
    case Await(awaited) => AwaitRule(l, awaited, m, v, ps)
    case Call(f, args) => CallRule(l, false, f, args, m, v, ps)
    case ListOf(items) => ListRule(l, false, items, m, v, ps)
    case BoolOp(isAnd, first, rest) => BoolRule(isAnd, first, rest, m, v, ps)
    case IfExp(test, body, orelse) => IfExpRule(l, test, body, orelse, m, v, ps)
    case Comprehension(generator, generators, elements, dictionary) =>
      ComprehensionRule(l, [generator] + generators, elements, dictionary, m, v, ps)
    case _ => ps == [Evals(true, e, m, v)]
  }

  /** One after another, up to the first that raises. */
  predicate AllRule(sync: bool, es: seq<Expr>, m: Memory, vs: Run<seq<Value>>, ps: seq<Claim>) {
    if es == [] then ps == [] && vs == Gone([], m)
    else
      && |ps| > 0 && IsEval(ps[0], sync, es[0], m)
      && match ps[0].v.result
         case Err(error) => |ps| == 1 && vs == Raised(error, ps[0].v.memory)
         case Ok(value) =>
           && |ps| == 2 && IsAll(ps[1], sync, es[1..], ps[0].v.memory)
           && match ps[1].vs.result
              case Err(error) => vs == Raised(error, ps[1].vs.memory)
              case Ok(values) => vs == Gone([value] + values, ps[1].vs.memory)
  }

  // ----- Assignment -----

  /** A name is bound, a tuple takes exactly as many values, and the world stores under a key. */
  predicate AssignRule(l: Language, target: Target, value: Value, m: Memory, v: Run<Value>, ps: seq<Claim>) {
    match target
    case ToName(id) => ps == [] && v == Gone(Nothing, Bind(m, id, value))
    case ToTuple(elts) =>
      var values := Contents(l, m.log, value);
      if values.Some? && |values.value| == |elts| then ps == [AssignsAll(elts, values.value, m, v)]
      else ps == [] && v == Raised(OtherError, m)
    case ToItem(container, key) =>
      && |ps| > 0 && IsEval(ps[0], true, container, m)
      && match ps[0].v.result
         case Err(error) => |ps| == 1 && v == Raised(error, ps[0].v.memory)
         case Ok(c) =>
           && |ps| == 2 && IsEval(ps[1], true, key, ps[0].v.memory)
           && match ps[1].v.result
              case Err(error) => v == Raised(error, ps[1].v.memory)
              case Ok(i) => v == Doing(l, ps[1].v.memory, Stored(c, i, value), false)
  }

  predicate AssignAllRule(targets: seq<Target>, values: seq<Value>, m: Memory, v: Run<Value>, ps: seq<Claim>) {
    && |targets| == |values|
    && if targets == [] then ps == [] && v == Gone(Nothing, m)
       else
         && |ps| > 0 && IsAssign(ps[0], targets[0], values[0], m)
         && match ps[0].v.result
            case Err(error) => |ps| == 1 && v == Raised(error, ps[0].v.memory)
            case Ok(_) => |ps| == 2 && ps[1] == AssignsAll(targets[1..], values[1..], ps[0].v.memory, v)
  }

  // ----- Comprehensions -----

  /** Behind the last generator the elements are one more output; else the first generator is drawn from. */
  predicate VisitRule(l: Language, generators: seq<Generator>, elements: seq<Expr>, output: seq<Value>, m: Memory,
                      vs: Run<seq<Value>>, ps: seq<Claim>) {
    if generators == [] then
      && |ps| == 1 && IsAll(ps[0], false, elements, m)
      && match ps[0].vs.result
         case Err(error) => vs == Raised(error, ps[0].vs.memory)
         case Ok(values) => vs == Gone(output + [if |values| == 1 then values[0] else Items(values)], ps[0].vs.memory)
    else
      && |ps| > 0 && IsEval(ps[0], false, generators[0].iter, m)
      && match ps[0].v.result
         case Err(error) => |ps| == 1 && vs == Raised(error, ps[0].v.memory)
         case Ok(iterable) =>
           match Contents(l, ps[0].v.memory.log, iterable)
           case None => |ps| == 1 && vs == Raised(OtherError, ps[0].v.memory)
           case Some(items) => |ps| == 2 && ps[1] == Draws(generators, items, elements, output, ps[0].v.memory, vs)
  }

  /** Each item costs a step, is bound, and goes on to the next generator if all conditions hold. */
  predicate DrawRule(l: Language, generators: seq<Generator>, items: seq<Value>, elements: seq<Expr>, output: seq<Value>, m: Memory,
                     vs: Run<seq<Value>>, ps: seq<Claim>) {
    && generators != []
    && if items == [] then ps == [] && vs == Gone(output, m)
       else if |output| >= l.maxItems then ps == [] && vs == Raised(CollectionLimit, m)
       else
         && |ps| > 0 && IsAssign(ps[0], generators[0].target, items[0], Later(m))
         && match ps[0].v.result
            case Err(error) => |ps| == 1 && vs == Raised(error, ps[0].v.memory)
            case Ok(_) =>
              && |ps| > 1 && ps[1].Admits? && ps[1] == Admits(generators[0].ifs, ps[0].v.memory, ps[1].b)
              && DrawnRule(generators, items, elements, output, ps[1].b, vs, ps[2..])
  }

  predicate DrawnRule(generators: seq<Generator>, items: seq<Value>, elements: seq<Expr>, output: seq<Value>, b: Run<bool>,
                      vs: Run<seq<Value>>, ps: seq<Claim>)
    requires generators != [] && items != []
  {
    match b.result
    case Err(error) => ps == [] && vs == Raised(error, b.memory)
    case Ok(false) => ps == [Draws(generators, items[1..], elements, output, b.memory, vs)]
    case Ok(true) =>
      && |ps| > 0 && ps[0].Visits? && ps[0] == Visits(generators[1..], elements, output, b.memory, ps[0].vs)
      && match ps[0].vs.result
         case Err(error) => |ps| == 1 && vs == Raised(error, ps[0].vs.memory)
         case Ok(more) => |ps| == 2 && ps[1] == Draws(generators, items[1..], elements, more, ps[0].vs.memory, vs)
  }

  predicate AdmitRule(l: Language, ifs: seq<Expr>, m: Memory, b: Run<bool>, ps: seq<Claim>) {
    if ifs == [] then ps == [] && b == Gone(true, m)
    else
      && |ps| > 0 && IsEval(ps[0], false, ifs[0], m)
      && match ps[0].v.result
         case Err(error) => |ps| == 1 && b == Raised(error, ps[0].v.memory)
         case Ok(value) =>
           if IsTrue(l, ps[0].v.memory.log, value) then |ps| == 2 && ps[1] == Admits(ifs[1..], ps[0].v.memory, b)
           else |ps| == 1 && b == Gone(false, ps[0].v.memory)
  }

  // ----- Statements -----

  /** A statement costs a step; what leaves other than by going on leaves the whole list. */
  predicate RunRule(stmts: seq<Stmt>, m: Memory, f: Run<Flow>, ps: seq<Claim>) {
    if stmts == [] then ps == [] && f == Gone(Went, m)
    else
      && |ps| > 0 && ps[0].Does? && ps[0] == Does(stmts[0], Later(m), ps[0].f)
      && if ps[0].f.result == Ok(Went) then |ps| == 2 && ps[1] == Runs(stmts[1..], ps[0].f.memory, f)
         else |ps| == 1 && f == ps[0].f
  }

  /** What is left of a value that is not used. */
  function Passed(v: Run<Value>): Run<Flow> {
    match v.result
    case Err(error) => Raised(error, v.memory)
    case Ok(_) => Gone(Went, v.memory)
  }

  ghost predicate DoRule(l: Language, stmt: Stmt, m: Memory, f: Run<Flow>, ps: seq<Claim>) {
    match stmt
    case Assign(targets, value) =>
      && |ps| > 0 && IsEval(ps[0], false, value, m)
      && match ps[0].v.result {
         case Err(error) => |ps| == 1 && f == Raised(error, ps[0].v.memory)
         case Ok(x) =>
           && |ps| == 2 && ps[1].AssignsAll? && ps[1] == AssignsAll(targets, seq(|targets|, _ => x), ps[0].v.memory, ps[1].v)
           && f == Passed(ps[1].v) }
    case Annotated(target, None) => ps == [] && f == Gone(Went, m)
    case Annotated(target, Some(value)) =>
      && |ps| > 0 && IsEval(ps[0], false, value, m)
      && match ps[0].v.result {
         case Err(error) => |ps| == 1 && f == Raised(error, ps[0].v.memory)
         case Ok(x) => |ps| == 2 && IsAssign(ps[1], target, x, ps[0].v.memory) && f == Passed(ps[1].v) }
    case Do(value) => |ps| == 1 && IsEval(ps[0], false, value, m) && f == Passed(ps[0].v)
    case Return(None) => ps == [] && f == Gone(Returned(Nothing), m)
    case Return(Some(value)) =>
      && |ps| == 1 && IsEval(ps[0], false, value, m)
      && match ps[0].v.result {
         case Err(error) => f == Raised(error, ps[0].v.memory)
         case Ok(x) => f == Gone(Returned(x), ps[0].v.memory) }
    case If(test, body, orelse) =>
      && |ps| > 0 && IsEval(ps[0], false, test, m)
      && match ps[0].v.result {
         case Err(error) => |ps| == 1 && f == Raised(error, ps[0].v.memory)
         case Ok(t) =>
           if IsTrue(l, ps[0].v.memory.log, t) then |ps| == 2 && ps[1] == Runs(body, ps[0].v.memory, f)
           else |ps| == 2 && ps[1] == Runs(orelse, ps[0].v.memory, f) }
    case For(_, iter, _, _) =>
      && |ps| > 0 && IsEval(ps[0], false, iter, m)
      && match ps[0].v.result {
         case Err(error) => |ps| == 1 && f == Raised(error, ps[0].v.memory)
         case Ok(iterable) =>
           match Contents(l, ps[0].v.memory.log, iterable)
           case None => |ps| == 1 && f == Raised(OtherError, ps[0].v.memory)
           case Some(items) => |ps| == 2 && ps[1] == Turns(stmt, items, 0, ps[0].v.memory, f) }
    case While(test, body, orelse) =>
      && |ps| > 0 && IsEval(ps[0], false, test, m)
      && match ps[0].v.result {
         case Err(error) => |ps| == 1 && f == Raised(error, ps[0].v.memory)
         case Ok(t) =>
           if IsTrue(l, ps[0].v.memory.log, t) then WhileRule(stmt, ps[0].v.memory, f, ps[1..])
           else |ps| == 2 && ps[1] == Runs(orelse, ps[0].v.memory, f) }
    case Try(_, _, _, _) => TryRule(stmt, m, f, ps)
    case Pass => ps == [] && f == Gone(Went, m)
    case Break => ps == [] && f == Gone(Broke, m)
    case Continue => ps == [] && f == Gone(Continued, m)
  }

  /** Another turn of a `while` costs a step; `break` ends the loop, and the next turn begins with the test again. */
  predicate WhileRule(loop: Stmt, m: Memory, f: Run<Flow>, ps: seq<Claim>)
    requires loop.While?
  {
    && |ps| > 0 && IsRun(ps[0], loop.body, Later(m))
    && if ps[0].f.result == Ok(Broke) then |ps| == 1 && f == Gone(Went, ps[0].f.memory)
       else if ps[0].f.result in {Ok(Went), Ok(Continued)} then |ps| == 2 && ps[1] == Does(loop, ps[0].f.memory, f)
       else |ps| == 1 && f == ps[0].f
  }

  /** The turns of a `for` over what is left of its items; only a loop that runs out of them goes on to its `else`. */
  predicate TurnRule(l: Language, loop: Stmt, items: seq<Value>, index: nat, m: Memory, f: Run<Flow>, ps: seq<Claim>) {
    && loop.For?
    && if items == [] then ps == [Runs(loop.orelse, m, f)]
       else if index >= l.maxItems then ps == [] && f == Raised(CollectionLimit, m)
       else
         && |ps| > 0 && IsAssign(ps[0], loop.target, items[0], Later(m))
         && match ps[0].v.result
            case Err(error) => |ps| == 1 && f == Raised(error, ps[0].v.memory)
            case Ok(_) =>
              && |ps| > 1 && IsRun(ps[1], loop.body, ps[0].v.memory)
              && if ps[1].f.result == Ok(Broke) then |ps| == 2 && f == Gone(Went, ps[1].f.memory)
                 else if ps[1].f.result in {Ok(Went), Ok(Continued)}
                 then |ps| == 3 && ps[2] == Turns(loop, items[1..], index + 1, ps[1].f.memory, f)
                 else |ps| == 2 && f == ps[1].f
  }

  /** A handler for everything, or for a class that the error is of: a graph failure is a tool failure, not the reverse. */
  predicate Fits(handler: Handler, graph: bool, environment: map<string, Value>) {
    || handler.catch.Everything?
    || (&& handler.catch.Named? && handler.catch.id in environment
        && (environment[handler.catch.id] == ErrorClass(false) || (graph && environment[handler.catch.id] == ErrorClass(true))))
  }

  predicate FirstFit(handlers: seq<Handler>, h: nat, graph: bool, environment: map<string, Value>) {
    && h < |handlers| && Fits(handlers[h], graph, environment)
    && forall i :: 0 <= i < h ==> !Fits(handlers[i], graph, environment)
  }

  /** The handler knows the error by the name that it gives it. */
  function Caught(handler: Handler, graph: bool, m: Memory): Memory {
    if handler.name.None? then m else Bind(m, handler.name.value, ErrorValue(graph))
  }

  /**
   A body that goes through is followed by the `else`, and one in which a tool failed by the first handler that fits, if any
   does. In any case the `finally` comes last: if it goes through, the way out is the one before it, else its own.
   */
  ghost predicate TryRule(stmt: Stmt, m: Memory, f: Run<Flow>, ps: seq<Claim>)
    requires stmt.Try?
  {
    && |ps| >= 2 && IsRun(ps[0], stmt.body, m)
    && if ps[0].f.result == Ok(Went) then IsRun(ps[1], stmt.orelse, ps[0].f.memory) && FinallyRule(stmt.finalbody, ps[1].f, f, ps[2..])
       else if ps[0].f.result == Err(ToolFailed(true)) then HandledRule(stmt, true, ps[0].f, f, ps[1..])
       else if ps[0].f.result == Err(ToolFailed(false)) then HandledRule(stmt, false, ps[0].f, f, ps[1..])
       else FinallyRule(stmt.finalbody, ps[0].f, f, ps[1..])
  }

  ghost predicate HandledRule(stmt: Stmt, graph: bool, failed: Run<Flow>, f: Run<Flow>, ps: seq<Claim>)
    requires stmt.Try?
  {
    if exists h: nat :: FirstFit(stmt.handlers, h, graph, failed.memory.environment) then
      exists h: nat :: FirstFit(stmt.handlers, h, graph, failed.memory.environment)
        && |ps| == 2 && IsRun(ps[0], stmt.handlers[h].body, Caught(stmt.handlers[h], graph, failed.memory))
        && FinallyRule(stmt.finalbody, ps[0].f, f, ps[1..])
    else FinallyRule(stmt.finalbody, failed, f, ps)
  }

  predicate FinallyRule(finalbody: seq<Stmt>, before: Run<Flow>, f: Run<Flow>, ps: seq<Claim>) {
    && |ps| == 1 && IsRun(ps[0], finalbody, before.memory)
    && f == if ps[0].f.result == Ok(Went) then Run(before.result, ps[0].f.memory) else ps[0].f
  }

  // ----- Derivations -----

  ghost predicate Rule(l: Language, c: Claim, ps: seq<Claim>) {
    match c
    case Evals(sync, e, m, v) => if sync then SyncRule(l, e, Later(m), v, ps) else AsyncRule(l, e, Later(m), v, ps)
    case EvalsAll(sync, es, m, vs) => AllRule(sync, es, m, vs, ps)
    case Decides(isAnd, value, rest, m, v) => DecideRule(l, isAnd, value, rest, m, v, ps)
    case Assigns(target, value, m, v) => AssignRule(l, target, value, m, v, ps)
    case AssignsAll(targets, values, m, v) => AssignAllRule(targets, values, m, v, ps)
    case Visits(generators, elements, output, m, vs) => VisitRule(l, generators, elements, output, m, vs, ps)
    case Draws(generators, items, elements, output, m, vs) => DrawRule(l, generators, items, elements, output, m, vs, ps)
    case Admits(ifs, m, b) => AdmitRule(l, ifs, m, b, ps)
    case Runs(stmts, m, f) => RunRule(stmts, m, f, ps)
    case Does(stmt, m, f) => DoRule(l, stmt, m, f, ps)
    case Turns(loop, items, index, m, f) => TurnRule(l, loop, items, index, m, f, ps)
  }

  datatype Derivation = Derivation(claim: Claim, premises: seq<Derivation>)

  function Claims(ds: seq<Derivation>): seq<Claim> { seq(|ds|, i requires 0 <= i < |ds| => ds[i].claim) }

  ghost predicate Derives(l: Language, d: Derivation)
    decreases d
  {
    Rule(l, d.claim, Claims(d.premises)) && forall i :: 0 <= i < |d.premises| ==> Derives(l, d.premises[i])
  }

  /** What the language makes of it. */
  ghost predicate Means(l: Language, c: Claim) { exists d: Derivation :: d.claim == c && Derives(l, d) }

  lemma {:induction false} PremisesDerive(l: Language, ps: seq<Claim>) returns (ds: seq<Derivation>)
    requires forall i :: 0 <= i < |ps| ==> Means(l, ps[i])
    ensures Claims(ds) == ps && forall i :: 0 <= i < |ds| ==> Derives(l, ds[i])
  {
    hide Derives;
    if ps == [] {
      ds := [];
    } else {
      assert Means(l, ps[0]);
      var d: Derivation :| d.claim == ps[0] && Derives(l, d);
      var rest := PremisesDerive(l, ps[1..]);
      ds := [d] + rest;
    }
  }

  /** A rule whose premises hold gives its conclusion. */
  lemma Conclude(l: Language, c: Claim, ps: seq<Claim>)
    requires Rule(l, c, ps) && forall i :: 0 <= i < |ps| ==> Means(l, ps[i])
    ensures Means(l, c)
  {
    hide Rule;
    var ds := PremisesDerive(l, ps);
    assert Derives(l, Derivation(c, ds));
  }

  // ----- Time goes on -----

  /** No premise ends later than the conclusion, and no claim ends before it begins. */
  ghost predicate InTime(c: Claim, ps: seq<Claim>) {
    c.m.steps <= End(c).steps && forall i :: 0 <= i < |ps| ==> End(ps[i]).steps <= End(c).steps
  }

  ghost predicate AllForward(ps: seq<Claim>) { forall i :: 0 <= i < |ps| ==> ps[i].m.steps <= End(ps[i]).steps }
}
