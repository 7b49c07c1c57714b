/**
 The metered interpreter of Code Mode programs, as a function of the program and the memory it starts in. Calls,
 awaited values and operators are answered by the world, which sees all that was done before.
 */
module Interpreter {
  import opened Domain

  datatype Error = StepLimit | CollectionLimit | ToolFailed(graph: bool) | OtherError

  datatype Value =
    | Nothing
    | Number(n: int)
    | Items(items: seq<Value>)
    | ErrorClass(graph: bool)
    | ErrorValue(graph: bool)
    | Foreign(id: int)

  // ----- Syntax -----

  datatype Expr =
    | Const(value: Value)
    | Name(id: string)
    | ListOf(items: seq<Expr>)
    | Binary(op: string, left: Expr, right: Expr)
    | Operation(op: string, operands: seq<Expr>)
    | Call(function_: Expr, arguments: seq<Expr>)
    | Await(awaited: Expr)
    | BoolOp(isAnd: bool, first: Expr, rest: seq<Expr>)
    | IfExp(test: Expr, body: Expr, orelse: Expr)
    | Comprehension(generator: Generator, generators: seq<Generator>, elements: seq<Expr>, dictionary: bool)

  datatype Generator = Generator(target: Target, iter: Expr, ifs: seq<Expr>)

  datatype Target = ToName(id: string) | ToTuple(elts: seq<Target>) | ToItem(container: Expr, key: Expr)

  datatype Catch = Everything | Named(id: string) | Unmatched

  datatype Handler = Handler(catch: Catch, name: Option<string>, body: seq<Stmt>)

  datatype Stmt =
    | Assign(targets: seq<Target>, value: Expr)
    | Annotated(target: Target, given: Option<Expr>)
    | Do(value: Expr)
    | Return(given: Option<Expr>)
    | If(test: Expr, body: seq<Stmt>, orelse: seq<Stmt>)
    | For(target: Target, iter: Expr, body: seq<Stmt>, orelse: seq<Stmt>)
    | While(test: Expr, body: seq<Stmt>, orelse: seq<Stmt>)
    | Try(body: seq<Stmt>, handlers: seq<Handler>, orelse: seq<Stmt>, finalbody: seq<Stmt>)
    | Pass
    | Break
    | Continue

  // ----- Machine and memory -----

  /** What the program does to its surroundings, with the step at which it does it. */
  datatype Deed =
    | Bound(id: string, value: Value)
    | Stored(container: Value, key: Value, value: Value)
    | Invoked(callee: Value, arguments: seq<Value>)
    | Awaited(value: Value)

  datatype Effect = Effect(at: nat, deed: Deed)

  datatype Reply = Answer(value: Value) | Overflow | ToolFailure(graph: bool) | Failure

  /** Besides its answers, the world says what a value of its own holds and whether it counts as true, at that time. */
  datatype World = World(reply: seq<Effect> -> Reply, operate: (string, seq<Value>) -> Reply,
                         iterate: (seq<Effect>, int) -> Option<seq<Value>>, truth: (seq<Effect>, int) -> bool)

  datatype Machine = Machine(maxSteps: nat, maxItems: nat, world: World)

  datatype Memory = Memory(environment: map<string, Value>, log: seq<Effect>, steps: nat)

  datatype Run<T> = Run(result: Result<T, Error>, memory: Memory)

  /** How a statement leaves, other than by an error. */
  datatype Flow = Went | Returned(value: Value) | Broke | Continued

  predicate Truthy(k: Machine, log: seq<Effect>, v: Value) {
    match v
    case Nothing => false
    case Number(n) => n != 0
    case Items(items) => items != []
    case Foreign(id) => k.world.truth(log, id)
    case _ => true
  }

  /** What iterating a value gives: a list, or a text, dictionary or range of the world; `None` is a `TypeError`. */
  function ItemsOf(k: Machine, log: seq<Effect>, v: Value): Option<seq<Value>> {
    match v
    case Items(items) => Some(items)
    case Foreign(id) => k.world.iterate(log, id)
    case _ => None
  }

  function Tick(m: Memory): Memory { m.(steps := m.steps + 1) }

  predicate Spent(k: Machine, m: Memory) { m.steps > k.maxSteps }

  function Left(k: Machine, m: Memory): nat { if m.steps < k.maxSteps then k.maxSteps - m.steps else 0 }

  function Record(m: Memory, deed: Deed): Memory { m.(log := m.log + [Effect(m.steps, deed)]) }

  /** Everything done was done within the budget. */
  ghost predicate Within(k: Machine, m: Memory) { forall i :: 0 <= i < |m.log| ==> m.log[i].at <= k.maxSteps }

  /** The budget is spent exactly when the run ends in the limit error, and nothing is done beyond it. */
  ghost predicate Fair<T>(k: Machine, m: Memory, r: Run<T>) {
    && m.steps <= r.memory.steps
    && (Spent(k, r.memory) <==> r.result == Err(StepLimit))
    && (Within(k, m) ==> Within(k, r.memory))
  }

  function Fail<T>(error: Error, m: Memory): Run<T> { Run(Err(error), m) }

  function Bounded(k: Machine, v: Value): Result<Value, Error> {
    if v.Items? && |v.items| > k.maxItems then Err(CollectionLimit) else Ok(v)
  }

  function Replied(reply: Reply): (r: Result<Value, Error>)
    ensures r != Err(StepLimit)
  {
    match reply
    case Answer(v) => Ok(v)
    case Overflow => Err(CollectionLimit)
    case ToolFailure(graph) => Err(ToolFailed(graph))
    case Failure => Err(OtherError)
  }

  function BoundedReply(k: Machine, reply: Reply): (r: Result<Value, Error>)
    ensures r != Err(StepLimit)
  {
    if reply.Answer? then Bounded(k, reply.value) else Replied(reply)
  }

  /** Do something and take the answer. */
  function Ask(k: Machine, m: Memory, deed: Deed, bounded: bool): (r: Run<Value>)
    requires !Spent(k, m)
    ensures Fair(k, m, r) && r.memory.steps == m.steps
  {
    var after := Record(m, deed);
    var reply := k.world.reply(after.log);
    Run(if bounded then BoundedReply(k, reply) else Replied(reply), after)
  }

  // ----- Expressions -----

  /** `_expr`: every expression costs a step before anything else happens. */
  function Eval(k: Machine, e: Expr, m: Memory): (r: Run<Value>)
    requires !Spent(k, m)
    ensures Fair(k, m, r) && m.steps < r.memory.steps
    decreases Left(k, m), 0
  {
    var m := Tick(m);
    if Spent(k, m) then Fail(StepLimit, m)
    else
      match e
      case Await(awaited) =>
        var v := Eval(k, awaited, m);
        if v.result.Err? then v else Ask(k, v.memory, Awaited(v.result.value), false)
      case Call(f, args) =>
        var callee := Eval(k, f, m);
        if callee.result.Err? then callee
        else
          var vs := EvalAll(k, args, callee.memory);
          if vs.result.Err? then Fail(vs.result.error, vs.memory)
          else Ask(k, vs.memory, Invoked(callee.result.value, vs.result.value), true)
      case ListOf(items) =>
        if |items| > k.maxItems then Fail(CollectionLimit, m)
        else
          var vs := EvalAll(k, items, m);
          if vs.result.Err? then Fail(vs.result.error, vs.memory) else Run(Ok(Items(vs.result.value)), vs.memory)
      case BoolOp(isAnd, first, rest) =>
        var v := Eval(k, first, m);
        if v.result.Err? then v else EvalBool(k, isAnd, v.result.value, rest, v.memory)
      case IfExp(test, body, orelse) =>
        var t := Eval(k, test, m);
        if t.result.Err? then t else Eval(k, if Truthy(k, t.memory.log, t.result.value) then body else orelse, t.memory)
      case Comprehension(generator, generators, elements, dictionary) =>
        var vs := Visit(k, [generator] + generators, elements, [], m);
        if vs.result.Err? then Fail(vs.result.error, vs.memory)
        else Run(if dictionary then Replied(k.world.operate("dict", vs.result.value)) else Ok(Items(vs.result.value)), vs.memory)
      case _ => SyncEval(k, e, m)
  }

  function EvalAll(k: Machine, es: seq<Expr>, m: Memory): (r: Run<seq<Value>>)
    requires !Spent(k, m)
    ensures Fair(k, m, r) && (r.result.Ok? ==> |r.result.value| == |es|)
    decreases Left(k, m), 1
  {
    if es == [] then Run(Ok([]), m)
    else
      var v := Eval(k, es[0], m);
      if v.result.Err? then Fail(v.result.error, v.memory)
      else
        var vs := EvalAll(k, es[1..], v.memory);
        if vs.result.Err? then vs else Run(Ok([v.result.value] + vs.result.value), vs.memory)
  }

  /** The rest of `and` or `or`, after `value`. */
  function EvalBool(k: Machine, isAnd: bool, value: Value, rest: seq<Expr>, m: Memory): (r: Run<Value>)
    requires !Spent(k, m)
    ensures Fair(k, m, r)
    decreases Left(k, m), 1
  {
    if Truthy(k, m.log, value) != isAnd || rest == [] then Run(Ok(value), m)
    else
      var v := Eval(k, rest[0], m);
      if v.result.Err? then v else EvalBool(k, isAnd, v.result.value, rest[1..], v.memory)
  }

  /** `_sync_expr`, which also costs a step, and knows nothing that may await. */
  function SyncEval(k: Machine, e: Expr, m: Memory): (r: Run<Value>)
    requires !Spent(k, m)
    ensures Fair(k, m, r) && m.steps < r.memory.steps
    decreases Left(k, m), 0
  {
    var m := Tick(m);
    if Spent(k, m) then Fail(StepLimit, m)
    else
      match e
      case Const(v) => Run(Ok(v), m)
      case Name(id) => if id in m.environment then Run(Ok(m.environment[id]), m) else Fail(OtherError, m)
      case ListOf(items) =>
        if |items| > k.maxItems then Fail(CollectionLimit, m)
        else
          var vs := SyncAll(k, items, m);
          if vs.result.Err? then Fail(vs.result.error, vs.memory) else Run(Ok(Items(vs.result.value)), vs.memory)
      case Binary(op, left, right) =>
        var vs := SyncAll(k, [left, right], m);
        if vs.result.Err? then Fail(vs.result.error, vs.memory)
        else Run(BoundedReply(k, k.world.operate(op, vs.result.value)), vs.memory)
      case Operation(op, operands) =>
        var vs := SyncAll(k, operands, m);
        if vs.result.Err? then Fail(vs.result.error, vs.memory)
        else Run(Replied(k.world.operate(op, vs.result.value)), vs.memory)
      case Call(f, args) =>
        var callee := SyncEval(k, f, m);
        if callee.result.Err? then callee
        else
          var vs := SyncAll(k, args, callee.memory);
          if vs.result.Err? then Fail(vs.result.error, vs.memory)
          else Ask(k, vs.memory, Invoked(callee.result.value, vs.result.value), true)
      case _ => Fail(OtherError, m)
  }

  function SyncAll(k: Machine, es: seq<Expr>, m: Memory): (r: Run<seq<Value>>)
    requires !Spent(k, m)
    ensures Fair(k, m, r) && (r.result.Ok? ==> |r.result.value| == |es|)
    decreases Left(k, m), 1
  {
    if es == [] then Run(Ok([]), m)
    else
      var v := SyncEval(k, es[0], m);
      if v.result.Err? then Fail(v.result.error, v.memory)
      else
        var vs := SyncAll(k, es[1..], v.memory);
        if vs.result.Err? then vs else Run(Ok([v.result.value] + vs.result.value), vs.memory)
  }

  // ----- Assignment -----

  /** `_assign` */
  function Store(k: Machine, target: Target, value: Value, m: Memory): (r: Run<Value>)
    requires !Spent(k, m)
    ensures Fair(k, m, r)
    decreases Left(k, m), 2, target, 0
  {
    match target
    case ToName(id) => Run(Ok(Nothing), Record(m, Bound(id, value)).(environment := m.environment[id := value]))
    case ToTuple(elts) =>
      var items := ItemsOf(k, m.log, value);
      if items.None? || |items.value| != |elts| then Fail(OtherError, m) else StoreFrom(k, elts, items.value, m)
    case ToItem(container, key) =>
      var c := SyncEval(k, container, m);
      if c.result.Err? then c
      else
        var i := SyncEval(k, key, c.memory);
        if i.result.Err? then i else Ask(k, i.memory, Stored(c.result.value, i.result.value, value), false)
  }

  function StoreFrom(k: Machine, elts: seq<Target>, values: seq<Value>, m: Memory): (r: Run<Value>)
    requires !Spent(k, m) && |values| == |elts|
    ensures Fair(k, m, r)
    decreases Left(k, m), 2, elts, 1
  {
    if elts == [] then Run(Ok(Nothing), m)
    else
      var r := Store(k, elts[0], values[0], m);
      if r.result.Err? then r else StoreFrom(k, elts[1..], values[1..], r.memory)
  }

  /** One value to every target. */
  function StoreEach(k: Machine, targets: seq<Target>, value: Value, m: Memory): (r: Run<Value>)
    requires !Spent(k, m)
    ensures Fair(k, m, r)
    decreases Left(k, m), 3, |targets|
  {
    if targets == [] then Run(Ok(Nothing), m)
    else
      var r := Store(k, targets[0], value, m);
      if r.result.Err? then r else StoreEach(k, targets[1..], value, r.memory)
  }

  // ----- Comprehensions -----

  /** `visit`: one generator after another, and an output where all have an item. */
  function Visit(k: Machine, generators: seq<Generator>, elements: seq<Expr>, output: seq<Value>, m: Memory): (r: Run<seq<Value>>)
    requires !Spent(k, m) && |output| <= k.maxItems && (generators == [] ==> |output| < k.maxItems)
    ensures Fair(k, m, r) && (r.result.Ok? ==> |r.result.value| <= k.maxItems)
    decreases Left(k, m), 2
  {
    if generators == [] then
      var vs := EvalAll(k, elements, m);
      if vs.result.Err? then vs
      else Run(Ok(output + [if |vs.result.value| == 1 then vs.result.value[0] else Items(vs.result.value)]), vs.memory)
    else
      var iterable := Eval(k, generators[0].iter, m);
      if iterable.result.Err? then Fail(iterable.result.error, iterable.memory)
      else
        var items := ItemsOf(k, iterable.memory.log, iterable.result.value);
        if items.None? then Fail(OtherError, iterable.memory)
        else VisitItems(k, generators, items.value, elements, output, iterable.memory)
  }

  /** The items of one generator; each costs a step, and none is taken when the output is full. */
  function VisitItems(k: Machine, generators: seq<Generator>, items: seq<Value>, elements: seq<Expr>, output: seq<Value>, m: Memory)
    : (r: Run<seq<Value>>)
    requires !Spent(k, m) && |output| <= k.maxItems && generators != []
    ensures Fair(k, m, r) && (r.result.Ok? ==> |r.result.value| <= k.maxItems)
    decreases Left(k, m), 3
  {
    if items == [] then Run(Ok(output), m)
    else if |output| >= k.maxItems then Fail(CollectionLimit, m)
    else
      var m := Tick(m);
      if Spent(k, m) then Fail(StepLimit, m)
      else
        var g := generators[0];
        var bound := Store(k, g.target, items[0], m);
        if bound.result.Err? then Fail(bound.result.error, bound.memory)
        else
          var match_ := Conditions(k, g.ifs, bound.memory);
          if match_.result.Err? then Fail(match_.result.error, match_.memory)
          else if !match_.result.value then VisitItems(k, generators, items[1..], elements, output, match_.memory)
          else
            var vs := Visit(k, generators[1..], elements, output, match_.memory);
            if vs.result.Err? then vs else VisitItems(k, generators, items[1..], elements, vs.result.value, vs.memory)
  }

  function Conditions(k: Machine, ifs: seq<Expr>, m: Memory): (r: Run<bool>)
    requires !Spent(k, m)
    ensures Fair(k, m, r)
    decreases Left(k, m), 1
  {
    if ifs == [] then Run(Ok(true), m)
    else
      var v := Eval(k, ifs[0], m);
      if v.result.Err? then Fail(v.result.error, v.memory)
      else if !Truthy(k, v.memory.log, v.result.value) then Run(Ok(false), v.memory)
      else Conditions(k, ifs[1..], v.memory)
  }

  // ----- Statements -----

  /** `_statements`: every statement costs a step. This may be asked of a memory whose budget is spent: in a `finally`. */
  function Exec(k: Machine, stmts: seq<Stmt>, m: Memory): (r: Run<Flow>)
    ensures !Spent(k, m) ==> Fair(k, m, r)
    ensures Spent(k, m) ==> r.memory.environment == m.environment && r.memory.log == m.log
    ensures Spent(k, m) ==> r.memory.steps >= m.steps && r.result == if stmts == [] then Ok(Went) else Err(StepLimit)
    decreases Left(k, m), 1
  {
    if stmts == [] then Run(Ok(Went), m)
    else
      var m := Tick(m);
      if Spent(k, m) then Fail(StepLimit, m)
      else
        var r := Step(k, stmts[0], m);
        if r.result == Ok(Went) then Exec(k, stmts[1..], r.memory) else r
  }

  function Goes(r: Run<Value>): Run<Flow> {
    Run(if r.result.Err? then Err(r.result.error) else Ok(Went), r.memory)
  }

  /** `_statement` */
  function Step(k: Machine, stmt: Stmt, m: Memory): (r: Run<Flow>)
    requires !Spent(k, m)
    ensures Fair(k, m, r)
    decreases Left(k, m), 5
  {
    match stmt
    case Assign(targets, value) =>
      var v := Eval(k, value, m);
      if v.result.Err? then Goes(v) else Goes(StoreEach(k, targets, v.result.value, v.memory))
    case Annotated(target, given) =>
      if given.None? then Run(Ok(Went), m)
      else
        var v := Eval(k, given.value, m);
        if v.result.Err? then Goes(v) else Goes(Store(k, target, v.result.value, v.memory))
    case Do(value) => Goes(Eval(k, value, m))
    case Return(given) =>
      if given.None? then Run(Ok(Returned(Nothing)), m)
      else
        var v := Eval(k, given.value, m);
        if v.result.Err? then Goes(v) else Run(Ok(Returned(v.result.value)), v.memory)
    case If(test, body, orelse) =>
      var t := Eval(k, test, m);
      if t.result.Err? then Goes(t) else Exec(k, if Truthy(k, t.memory.log, t.result.value) then body else orelse, t.memory)
    case For(_, iter, _, _) =>
      var iterable := Eval(k, iter, m);
      if iterable.result.Err? then Goes(iterable)
      else
        var items := ItemsOf(k, iterable.memory.log, iterable.result.value);
        if items.None? then Fail(OtherError, iterable.memory) else Each(k, stmt, items.value, 0, iterable.memory)
    case While(_, _, _) => Repeat(k, stmt, m)
    case Try(_, _, _, _) => Attempt(k, stmt, m)
    case Pass => Run(Ok(Went), m)
    case Break => Run(Ok(Broke), m)
    case Continue => Run(Ok(Continued), m)
  }

  /** The turns of a `for`; `break` leaves, and only a loop that runs out goes on to its `else`. */
  function Each(k: Machine, loop: Stmt, items: seq<Value>, index: nat, m: Memory): (r: Run<Flow>)
    requires !Spent(k, m) && loop.For?
    ensures Fair(k, m, r)
    decreases Left(k, m), 3
  {
    if items == [] then Exec(k, loop.orelse, m)
    else if index >= k.maxItems then Fail(CollectionLimit, m)
    else
      var m := Tick(m);
      if Spent(k, m) then Fail(StepLimit, m)
      else
        var bound := Store(k, loop.target, items[0], m);
        if bound.result.Err? then Goes(bound)
        else
          var r := Exec(k, loop.body, bound.memory);
          if r.result == Ok(Broke) then Run(Ok(Went), r.memory)
          else if r.result == Ok(Went) || r.result == Ok(Continued) then Each(k, loop, items[1..], index + 1, r.memory)
          else r
  }

  function Repeat(k: Machine, loop: Stmt, m: Memory): (r: Run<Flow>)
    requires !Spent(k, m) && loop.While?
    ensures Fair(k, m, r)
    decreases Left(k, m), 3
  {
    var t := Eval(k, loop.test, m);
    if t.result.Err? then Goes(t)
    else if !Truthy(k, t.memory.log, t.result.value) then Exec(k, loop.orelse, t.memory)
    else
      var m := Tick(t.memory);
      if Spent(k, m) then Fail(StepLimit, m)
      else
        var r := Exec(k, loop.body, m);
        if r.result == Ok(Broke) then Run(Ok(Went), r.memory)
        else if r.result == Ok(Went) || r.result == Ok(Continued) then Repeat(k, loop, r.memory)
        else r
  }

  /** What a `finally` leaves: its own way out, if it has one, and else the way out it interrupted. */
  function Attempt(k: Machine, stmt: Stmt, m: Memory): (r: Run<Flow>)
    requires !Spent(k, m) && stmt.Try?
    ensures Fair(k, m, r)
    decreases Left(k, m), 4
  {
    var tried := Guarded(k, stmt, m);
    var last := Exec(k, stmt.finalbody, tried.memory);
    if last.result == Ok(Went) then Run(tried.result, last.memory) else last
  }

  /** The body, with its `else` when it went through, and with a handler when a tool failed. */
  function Guarded(k: Machine, stmt: Stmt, m: Memory): (r: Run<Flow>)
    requires !Spent(k, m) && stmt.Try?
    ensures Fair(k, m, r)
    decreases Left(k, m), 3
  {
    var body := Exec(k, stmt.body, m);
    if body.result == Ok(Went) then Exec(k, stmt.orelse, body.memory)
    else if body.result.Err? && body.result.error.ToolFailed? then Handle(k, stmt.handlers, body.result.error.graph, body.memory)
    else body
  }

  /** A graph failure is a tool failure too. */
  predicate Catches(catch: Catch, graph: bool, m: Memory) {
    match catch
    case Everything => true
    case Named(id) => id in m.environment && m.environment[id].ErrorClass? && (m.environment[id].graph ==> graph)
    case Unmatched => false
  }

  function Handle(k: Machine, handlers: seq<Handler>, graph: bool, m: Memory): (r: Run<Flow>)
    requires !Spent(k, m)
    ensures Fair(k, m, r)
    decreases Left(k, m), 2, |handlers|
  {
    if handlers == [] then Fail(ToolFailed(graph), m)
    else if !Catches(handlers[0].catch, graph, m) then Handle(k, handlers[1..], graph, m)
    else
      var name := handlers[0].name;
      var m := if name.None? then m
               else Record(m, Bound(name.value, ErrorValue(graph))).(environment := m.environment[name.value := ErrorValue(graph)]);
      Exec(k, handlers[0].body, m)
  }

  datatype Ended = Ended(value: Value) | Escaped(flow: Flow) | Stopped(error: Error)

  /** `run` */
  function RunOutcome(k: Machine, program: seq<Stmt>, m: Memory): Ended {
    match Exec(k, program, m).result
    case Ok(Went) => Ended(Nothing)
    case Ok(Returned(v)) => Ended(v)
    case Ok(flow) => Escaped(flow)
    case Err(error) => Stopped(error)
  }
}
