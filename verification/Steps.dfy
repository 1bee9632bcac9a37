/** Workflow definitions and the meaning of one step (internal/workflow/steps.go, Engine.runStep). */
module Steps {
  import opened Common

  /** A JSON value in a task's context; Tree stands for arrays and objects, by their printed form. */
  datatype Value = Bool(b: bool) | Num(n: int) | Str(s: string) | Tree(repr: string)

  type Ctx = map<string, Value>

  datatype Step =
    | Condition(id: string, field: string, equals: string)
    | UserInput(id: string)
    | HttpRequest(id: string, verb: string, url: string, saveTo: string)
    | TemplateRender(id: string, template: string, target: string)
    | AddNote(id: string, body: string, hidden: bool)
    | AutoAssign(id: string, assignee: Option<int>)
    | Webhook(id: string, event: string)
    | Notify(id: string, message: string)
    | Approval(id: string, role: string)
    | Unknown(id: string, typ: string)

  datatype Reply = NotSent | Refused | Answer(value: Value)

  /** Everything a step asks of code outside the engine. `http` and `writeOk` take the step's index. */
  datatype Env = Env(
    render: (string, Ctx) -> Option<string>,
    http: (nat, string, string) -> Reply,
    writeOk: nat -> bool,
    showNum: int -> string)

  /** What a step does to the world outside its task. */
  datatype Effect =
    | Called(step: nat, verb: string, url: string)
    | NotePosted(step: nat, ticket: int, body: string, hidden: bool)
    | Reassigned(step: nat, ticket: int, assignee: int)
    | Dispatched(step: nat, event: string, payload: Ctx)
    | Notified(step: nat, ticket: int, message: string)
    | Asked(step: nat, ticket: int, approval: int, role: string)

  datatype Outcome = Advance | Jump | Pause | Error(msg: string)

  datatype StepResult = StepResult(outcome: Outcome, ctx: Ctx, effects: seq<Effect>)

  function ResumedKey(id: string): string { "_resumed_" + id }
  function DecisionKey(id: string): string { "_approval_decision_" + id }
  function PendingKey(id: string): string { "_pending_approval_id_" + id }

  /** The three families of reserved keys never collide, and a key determines the step id in it. */
  lemma ReservedKeysApart(x: string, y: string)
    ensures ResumedKey(x) != DecisionKey(y) && ResumedKey(x) != PendingKey(y) && DecisionKey(x) != PendingKey(y)
    ensures DecisionKey(x) == DecisionKey(y) <==> x == y
    ensures PendingKey(x) == PendingKey(y) <==> x == y
    ensures PendingKey(x)[|"_pending_approval_id_"|..] == x
  {
    assert ResumedKey(x)[1] == 'r' && DecisionKey(x)[1] == 'a' && PendingKey(y)[1] == 'p' && DecisionKey(y)[1] == 'a';
    assert DecisionKey(x)[|"_approval_decision_"|..] == x && DecisionKey(y)[|"_approval_decision_"|..] == y;
    assert PendingKey(x)[|"_pending_approval_id_"|..] == x && PendingKey(y)[|"_pending_approval_id_"|..] == y;
  }

  /** `fmt.Sprintf("%v", ctx[field])`, where a missing key prints as nil. */
  function Show(ctx: Ctx, field: string, env: Env): string
  {
    if field !in ctx then "<nil>"
    else match ctx[field]
      case Bool(b) => if b then "true" else "false"
      case Num(n) => env.showNum(n)
      case Str(s) => s
      case Tree(repr) => repr
  }

  /** One step, started with context `ctx`; `newId` is the id the approvals table hands out next. */
  function RunStep(step: Step, k: nat, ticket: Option<int>, ctx: Ctx, newId: int, env: Env): StepResult
  {
    match step
    case Condition(_, field, equals) =>
      StepResult(if Show(ctx, field, env) != equals then Jump else Advance, ctx, [])
    case UserInput(id) =>
      if ResumedKey(id) in ctx then StepResult(Advance, ctx, [])
      else StepResult(Pause, ctx[ResumedKey(id) := Bool(true)], [])
    case HttpRequest(_, verb, url, saveTo) =>
      RunHttp(verb, url, saveTo, k, ctx, env)
    case TemplateRender(id, template, target) =>
      (match env.render(template, ctx)
       case None => StepResult(Error("template"), ctx, [])
       case Some(out) => Deliver(target, out, k, ticket, ctx[id := Str(out)], env))
    case AddNote(_, body, hidden) =>
      if ticket.None? then StepResult(Advance, ctx, [])
      else (match env.render(body, ctx)
            case None => StepResult(Error("template"), ctx, [])
            case Some(out) => Post(out, hidden, k, ticket.value, ctx, env))
    case AutoAssign(_, assignee) =>
      if ticket.None? || assignee.None? then StepResult(Advance, ctx, [])
      else if !env.writeOk(k) then StepResult(Error("write"), ctx, [])
      else StepResult(Advance, ctx, [Reassigned(k, ticket.value, assignee.value)])
    case Webhook(_, event) =>
      StepResult(Advance, ctx, [Dispatched(k, event, ctx)])
    case Notify(_, message) =>
      (match env.render(message, ctx)
       case None => StepResult(Error("template"), ctx, [])
       case Some(out) =>
         StepResult(Advance, ctx, if ticket.Some? then [Notified(k, ticket.value, out)] else []))
    case Approval(id, role) =>
      if DecisionKey(id) in ctx then
        StepResult(if ctx[DecisionKey(id)] == Bool(true) then Advance else Error("rejected by approver"), ctx, [])
      else if ticket.None? then StepResult(Error("approval step requires a ticket"), ctx, [])
      else if !env.writeOk(k) then StepResult(Error("write"), ctx, [])
      else StepResult(Pause, ctx[PendingKey(id) := Num(newId)], [Asked(k, ticket.value, newId, role)])
    case Unknown(_, typ) =>
      StepResult(Error("unknown step type " + typ), ctx, [])
  }

  function RunHttp(verb: string, url: string, saveTo: string, k: nat, ctx: Ctx, env: Env): StepResult
  {
    match env.render(url, ctx)
    case None => StepResult(Error("template"), ctx, [])
    case Some(u) =>
      var verb' := if verb == "" then "GET" else verb;
      match env.http(k, verb', u)
      case NotSent => StepResult(Error("request"), ctx, [])
      case Refused => StepResult(Error("response"), ctx, [Called(k, verb', u)])
      case Answer(v) => StepResult(Advance, if saveTo == "" then ctx else ctx[saveTo := v], [Called(k, verb', u)])
  }

  function Post(body: string, hidden: bool, k: nat, ticket: int, ctx: Ctx, env: Env): StepResult
  {
    if env.writeOk(k) then StepResult(Advance, ctx, [NotePosted(k, ticket, body, hidden)])
    else StepResult(Error("write"), ctx, [])
  }

  function Deliver(target: string, out: string, k: nat, ticket: Option<int>, ctx: Ctx, env: Env): StepResult
  {
    if ticket.None? then StepResult(Advance, ctx, [])
    else if target == "ticket_external_note" then Post(out, false, k, ticket.value, ctx, env)
    else if target == "ticket_internal_note" then Post(out, true, k, ticket.value, ctx, env)
    else StepResult(Advance, ctx, [])
  }

  /** The only ways a step can bring a new value under a key of its context. */
  lemma StepWrites(step: Step, k: nat, ticket: Option<int>, ctx: Ctx, newId: int, env: Env, key: string)
    requires key in RunStep(step, k, ticket, ctx, newId, env).ctx
    requires key in ctx ==> ctx[key] != RunStep(step, k, ticket, ctx, newId, env).ctx[key]
    ensures var r := RunStep(step, k, ticket, ctx, newId, env);
            || (step.UserInput? && r.outcome.Pause? && key == ResumedKey(step.id))
            || (step.HttpRequest? && key == step.saveTo)
            || (step.TemplateRender? && key == step.id && r.ctx[key].Str?)
            || (step.Approval? && r.outcome.Pause? && key == PendingKey(step.id) && r.ctx[key] == Num(newId))
  {
  }
}
