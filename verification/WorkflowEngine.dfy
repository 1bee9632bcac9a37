/** The engine as it is written: mutable tasks and contexts, tables it saves into, and loops over them. */
module WorkflowEngine {
  import opened Common
  import opened Steps
  import opened TaskQueue
  import opened Execution

  /** A task loaded from the table; the engine changes it and saves it back. */
  class Task {
    const id: int
    const ticket: Option<int>
    var status: Status
    var step: nat
    var ctx: Ctx
    var attempts: nat
    var error: string
    var due: int

    constructor (id: int, row: Row)
      ensures this.id == id && AsRow() == row && ticket == row.ticket
    {
      this.id, ticket, status, step := id, row.ticket, row.status, row.step;
      ctx, attempts, error, due := row.ctx, row.attempts, row.error, row.due;
    }

    function AsRow(): Row
      reads this
    {
      Row(ticket, status, step, ctx, attempts, error, due)
    }
  }

  /** The context map a step changes in place. */
  class ContextMap {
    var entries: Ctx

    constructor (entries: Ctx)
      ensures this.entries == entries
    {
      this.entries := entries;
    }
  }

  datatype Workflow = Workflow(trigger: string, active: bool, config: Option<seq<Step>>)

  /** The ids of the active workflows subscribed to a trigger. */
  function Subscribed(workflows: seq<Workflow>, trigger: string): (ids: seq<nat>)
    ensures forall i :: 0 <= i < |ids| ==> ids[i] < |workflows|
  {
    if workflows == [] then []
    else
      var n := |workflows| - 1;
      var before := Subscribed(workflows[..n], trigger);
      if workflows[n].active && workflows[n].trigger == trigger then before + [n] else before
  }

  /** Exactly the subscribed workflows, each once, in table order. */
  lemma {:induction false} SubscribedExactly(workflows: seq<Workflow>, trigger: string)
    ensures var ids := Subscribed(workflows, trigger);
            && (forall w :: w in ids <==> 0 <= w < |workflows| && workflows[w].active && workflows[w].trigger == trigger)
            && (forall i, j :: 0 <= i < j < |ids| ==> ids[i] < ids[j])
  {
    if workflows != [] {
      SubscribedExactly(workflows[..|workflows| - 1], trigger);
    }
  }

  /** `after` has one new task with this row under every id from `first` up to `next`. */
  ghost predicate TasksAdded(before: map<int, Row>, after: map<int, Row>, first: int, next: int, row: Row)
  {
    && (forall t :: t in after <==> t in before || first <= t < next)
    && (forall t :: t in after ==> after[t] == if t in before then before[t] else row)
  }

  /** The ids from `first` on belong to the workflows `made`; older ids keep theirs. */
  ghost predicate Numbered(before: map<int, nat>, after: map<int, nat>, first: int, made: seq<nat>)
  {
    && (forall t :: first <= t < first + |made| ==> t in after && after[t] == made[t - first])
    && (forall t :: t < first ==> (t in after <==> t in before))
    && (forall t :: t < first && t in after ==> after[t] == before[t])
  }

  lemma AddedOnce(before: map<int, Row>, after: map<int, Row>, first: int, next: int, row: Row)
    requires TasksAdded(before, after, first, next, row) && first <= next && forall t :: t in before ==> t < first
    ensures TasksAdded(before, after[next := row], first, next + 1, row)
  {
  }

  lemma NumberedOnce(before: map<int, nat>, after: map<int, nat>, first: int, made: seq<nat>, workflow: nat)
    requires Numbered(before, after, first, made)
    ensures Numbered(before, after[first + |made| := workflow], first, made + [workflow])
  {
  }

  class Engine {
    var workflows: seq<Workflow>
    var workflowOf: map<int, nat>      // task id -> workflow id
    var tasks: map<int, Row>
    var nextTask: int
    var approvals: map<int, int>       // approval id -> ticket
    var nextApproval: int
    var effects: seq<Effect>

    ghost predicate Valid()
      reads this
    {
      && (forall t :: t in tasks ==> t < nextTask)
      && (forall a :: a in approvals ==> a < nextApproval)
      && (forall w :: 0 <= w < |workflows| ==> Fits(workflows[w].config))
    }

    function PlanOf(t: int): Option<seq<Step>>
      reads this
    {
      if t in workflowOf && workflowOf[t] < |workflows| then workflows[workflowOf[t]].config else None
    }

    /** `Engine.Trigger`: one pending task per subscribed workflow, numbered in workflow order. */
    method Trigger(trigger: string, ticket: int, ctx: Ctx, now: int)
      requires Valid()
      modifies this`tasks, this`nextTask, this`workflowOf
      ensures Valid()
      ensures var subs := Subscribed(workflows, trigger);
              && nextTask == old(nextTask) + |subs|
              && TasksAdded(old(tasks), tasks, old(nextTask), nextTask, Row(Some(ticket), Pending, 0, ctx, 0, "", now))
              && (forall i :: 0 <= i < |subs| ==>
                    PlanOf(old(nextTask) + i) == workflows[subs[i]].config)
              && (forall t :: t in old(tasks) ==> PlanOf(t) == old(PlanOf(t)))
    {
      var i := 0;
      ghost var made: seq<nat> := [];
      var row := Row(Some(ticket), Pending, 0, ctx, 0, "", now);
      while i < |workflows|
        invariant 0 <= i <= |workflows| && made == Subscribed(workflows[..i], trigger)
        invariant nextTask == old(nextTask) + |made|
        invariant TasksAdded(old(tasks), tasks, old(nextTask), nextTask, row)
        invariant Numbered(old(workflowOf), workflowOf, old(nextTask), made)
      {
        assert workflows[..i + 1][..i] == workflows[..i];
        if workflows[i].active && workflows[i].trigger == trigger {
          AddedOnce(old(tasks), tasks, old(nextTask), nextTask, row);
          NumberedOnce(old(workflowOf), workflowOf, old(nextTask), made, i);
          tasks := tasks[nextTask := row];
          workflowOf := workflowOf[nextTask := i];
          nextTask := nextTask + 1;
          made := made + [i];
        }
        i := i + 1;
      }
      assert workflows[..i] == workflows;
    }

    ghost function DueIds(now: int): set<int>
      reads this
    {
      set t | t in tasks && IsDue(tasks[t], now)
    }

    /** `WorkflowTaskRepo.ClaimNext`, its SELECT and its guarded UPDATE run back to back. */
    method ClaimNext(now: int) returns (claimed: Option<Task>)
      modifies this`tasks
      ensures claimed.None? ==> tasks == old(tasks) && forall t :: t in tasks && tasks[t].status == Pending ==> tasks[t].due > now
      ensures claimed.Some? ==>
                && (forall t :: t in old(tasks) && old(tasks)[t].status == Pending && old(tasks)[t].due <= now ==> claimed.value.id <= t)
                && fresh(claimed.value)
                && IsLeast(claimed.value.id, old(DueIds(now)))
                && old(tasks)[claimed.value.id].status == Pending && old(tasks)[claimed.value.id].due <= now
                && claimed.value.AsRow() == old(tasks)[claimed.value.id].(status := Processing)
                && tasks == old(tasks)[claimed.value.id := claimed.value.AsRow()]
    {
      var found := SelectDue(now);
      if found.None? {
        return None;
      }
      var task := new Task(found.value, tasks[found.value]);
      assert tasks[found.value].status == Pending;
      var won := GuardedUpdate(task.id);
      if !won {
        return None;
      }
      task.status := Processing;
      claimed := Some(task);
    }

    method SelectDue(now: int) returns (found: Option<int>)
      ensures found.None? ==> forall t :: t in tasks ==> !IsDue(tasks[t], now)
      ensures found.Some? ==> IsLeast(found.value, DueIds(now))
      ensures found.Some? ==> forall t :: t in tasks && tasks[t].status == Pending && tasks[t].due <= now ==> found.value <= t
    {
      if t :| t in tasks && IsDue(tasks[t], now) {
        var ids := set u | u in tasks && IsDue(tasks[u], now);
        LeastExists(ids, t);
        var m :| IsLeast(m, ids);
        forall u | u in tasks && IsDue(tasks[u], now) ensures m <= u {
          assert u in ids;
        }
        found := Some(m);
      } else {
        found := None;
      }
    }

    /** The claim proper; the state machine's Claim step is this update plus the worker's own bookkeeping. */
    method GuardedUpdate(id: int) returns (won: bool)
      modifies this`tasks
      ensures won <==> id in old(tasks) && old(tasks)[id].status == Pending
      ensures tasks == if won then old(tasks)[id := old(tasks)[id].(status := Processing)] else old(tasks)
      ensures forall snap: Row ::
                tasks == ApplyClaim(World(old(tasks), approvals, map[0 := Selected(id, snap)], map[], []), 0).rows
    {
      won := id in tasks && tasks[id].status == Pending;
      if won {
        tasks := tasks[id := tasks[id].(status := Processing)];
      }
    }

    /** `Engine.runStep` */
    method RunStep(task: Task, step: Step, ctxMap: ContextMap, env: Env) returns (paused: bool, err: Option<string>)
      requires Valid()
      modifies task`step, ctxMap, this`effects, this`approvals, this`nextApproval
      ensures Valid()
      ensures var r := Steps.RunStep(step, old(task.step), task.ticket, old(ctxMap.entries), old(nextApproval), env);
              && ctxMap.entries == r.ctx
              && effects == old(effects) + r.effects
              && paused == r.outcome.Pause?
              && err == (if r.outcome.Error? then Some(r.outcome.msg) else None)
              && task.step == (if r.outcome.Jump? then JUMP else old(task.step))
              && nextApproval == old(nextApproval) + (if AskedLast(r.effects) then 1 else 0)
              && approvals == (if AskedLast(r.effects) then old(approvals)[old(nextApproval) := task.ticket.GetOr(0)] else old(approvals))
    {
      paused, err := false, None;
      var k := task.step;
      match step {
        case Condition(_, field, equals) =>
          if Show(ctxMap.entries, field, env) != equals {
            task.step := JUMP;
          }
        case UserInput(id) =>
          if ResumedKey(id) in ctxMap.entries {
            return;
          }
          ctxMap.entries := ctxMap.entries[ResumedKey(id) := Bool(true)];
          paused := true;
        case HttpRequest(_, verb, url, saveTo) =>
          err := RunHttpRequest(k, verb, url, saveTo, ctxMap, env);
        case TemplateRender(id, template, target) =>
          err := RunTemplate(k, task.ticket, id, template, target, ctxMap, env);
        case AddNote(_, body, hidden) =>
          if task.ticket.None? {
            return;
          }
          var out := env.render(body, ctxMap.entries);
          if out.None? {
            return false, Some("template");
          }
          err := CreateNote(k, task.ticket.value, out.value, hidden, env);
        case AutoAssign(_, assignee) =>
          if task.ticket.None? || assignee.None? {
            return;
          }
          if !env.writeOk(k) {
            return false, Some("write");
          }
          effects := effects + [Reassigned(k, task.ticket.value, assignee.value)];
        case Webhook(_, event) =>
          effects := effects + [Dispatched(k, event, ctxMap.entries)];
        case Notify(_, message) =>
          var out := env.render(message, ctxMap.entries);
          if out.None? {
            return false, Some("template");
          }
          if task.ticket.Some? {
            effects := effects + [Notified(k, task.ticket.value, out.value)];
          }
        case Approval(id, role) =>
          paused, err := AskApproval(k, task.ticket, id, role, ctxMap, env);
        case Unknown(_, typ) =>
          err := Some("unknown step type " + typ);
      }
    }

    method RunHttpRequest(k: nat, verb: string, url: string, saveTo: string, ctxMap: ContextMap, env: Env)
      returns (err: Option<string>)
      modifies ctxMap, this`effects
      ensures var r := RunHttp(verb, url, saveTo, k, old(ctxMap.entries), env);
              && ctxMap.entries == r.ctx && effects == old(effects) + r.effects
              && err == (if r.outcome.Error? then Some(r.outcome.msg) else None)
    {
      var u := env.render(url, ctxMap.entries);
      if u.None? {
        return Some("template");
      }
      var verb' := if verb == "" then "GET" else verb;
      var reply := env.http(k, verb', u.value);
      if reply.NotSent? {
        return Some("request");
      }
      effects := effects + [Called(k, verb', u.value)];
      if reply.Refused? {
        return Some("response");
      }
      if saveTo != "" {
        ctxMap.entries := ctxMap.entries[saveTo := reply.value];
      }
      err := None;
    }

    /** The template_render step and `deliverRenderedOutput`. */
    method RunTemplate(k: nat, ticket: Option<int>, id: string, template: string, target: string, ctxMap: ContextMap, env: Env)
      returns (err: Option<string>)
      modifies ctxMap, this`effects
      ensures var r := Steps.RunStep(TemplateRender(id, template, target), k, ticket, old(ctxMap.entries), 0, env);
              && ctxMap.entries == r.ctx && effects == old(effects) + r.effects && !AskedLast(r.effects)
              && err == (if r.outcome.Error? then Some(r.outcome.msg) else None)
    {
      err := None;
      var out := env.render(template, ctxMap.entries);
      if out.None? {
        return Some("template");
      }
      ctxMap.entries := ctxMap.entries[id := Str(out.value)];
      if ticket.Some? && (target == "ticket_external_note" || target == "ticket_internal_note") {
        err := CreateNote(k, ticket.value, out.value, target == "ticket_internal_note", env);
      }
    }

    /** The approval step: a verdict lets the task on or fails it; without one it asks. */
    method AskApproval(k: nat, ticket: Option<int>, id: string, role: string, ctxMap: ContextMap, env: Env)
      returns (paused: bool, err: Option<string>)
      requires Valid()
      modifies ctxMap, this`effects, this`approvals, this`nextApproval
      ensures Valid()
      ensures var r := Steps.RunStep(Approval(id, role), k, ticket, old(ctxMap.entries), old(nextApproval), env);
              && ctxMap.entries == r.ctx && effects == old(effects) + r.effects
              && paused == r.outcome.Pause? && !r.outcome.Jump?
              && err == (if r.outcome.Error? then Some(r.outcome.msg) else None)
              && nextApproval == old(nextApproval) + (if AskedLast(r.effects) then 1 else 0)
              && approvals == (if AskedLast(r.effects) then old(approvals)[old(nextApproval) := ticket.GetOr(0)] else old(approvals))
    {
      paused, err := false, None;
      if DecisionKey(id) in ctxMap.entries {
        if ctxMap.entries[DecisionKey(id)] != Bool(true) {
          err := Some("rejected by approver");
        }
        return;
      }
      if ticket.None? {
        return false, Some("approval step requires a ticket");
      }
      if !env.writeOk(k) {
        return false, Some("write");
      }
      approvals := approvals[nextApproval := ticket.value];
      effects := effects + [Asked(k, ticket.value, nextApproval, role)];
      ctxMap.entries := ctxMap.entries[PendingKey(id) := Num(nextApproval)];
      nextApproval := nextApproval + 1;
      paused := true;
    }

    method CreateNote(k: nat, ticket: int, body: string, hidden: bool, env: Env) returns (err: Option<string>)
      modifies this`effects
      ensures err == if env.writeOk(k) then None else Some("write")
      ensures effects == old(effects) + if env.writeOk(k) then [NotePosted(k, ticket, body, hidden)] else []
    {
      if !env.writeOk(k) {
        return Some("write");
      }
      effects := effects + [NotePosted(k, ticket, body, hidden)];
      err := None;
    }

    method Save(task: Task)
      requires Valid() && task.id in tasks
      modifies this`tasks
      ensures Valid() && tasks == old(tasks)[task.id := task.AsRow()]
    {
      tasks := tasks[task.id := task.AsRow()];
    }

    /** The loop body of `Engine.execute`; `stop` says that the claim has been saved and is over. */
    method ExecuteStep(task: Task, steps: seq<Step>, ctxMap: ContextMap, env: Env, now: int) returns (stop: bool)
      requires Valid() && task.id in tasks && task.step < |steps|
      modifies this`tasks, this`effects, this`approvals, this`nextApproval, task, ctxMap
      ensures Valid() && tasks.Keys == old(tasks.Keys)
      ensures var r := Runner(steps, task.ticket, env)(old(task.step), old(ctxMap.entries), old(nextApproval));
              var turn := Settle(old(task.AsRow()), r, now);
              && effects == old(effects) + r.effects
              && stop == turn.Save?
              && (stop ==> tasks == old(tasks)[task.id := turn.row])
              && (!stop ==> tasks == old(tasks) && !AskedLast(r.effects)
                            && task.AsRow() == turn.row && ctxMap.entries == turn.ctx)
              && nextApproval == old(nextApproval) + (if AskedLast(r.effects) then 1 else 0)
              && approvals == (if AskedLast(r.effects) then old(approvals)[old(nextApproval) := task.ticket.GetOr(0)] else old(approvals))
    {
      AskedPauses(steps[task.step], task.step, task.ticket, ctxMap.entries, nextApproval, env);
      ghost var r := Steps.RunStep(steps[task.step], task.step, task.ticket, ctxMap.entries, nextApproval, env);
      assert r == Runner(steps, task.ticket, env)(task.step, ctxMap.entries, nextApproval);
      var paused, err := RunStep(task, steps[task.step], ctxMap, env);
      if err.Some? {
        task.attempts := task.attempts + 1;
        task.error := err.value;
        if task.attempts >= MAX_STEP_ATTEMPTS {
          task.status := Failed;
          Save(task);
          return true;
        }
        task.status := Pending;
        task.due := now + Backoff(task.attempts);
        Save(task);
        return true;
      }
      if paused {
        task.ctx := ctxMap.entries;
        task.status := WaitingUser;
        Save(task);
        return true;
      }
      assert r.outcome.Advance? || r.outcome.Jump?;
      task.step := task.step + 1;
      task.attempts := 0;
      stop := false;
    }

    /** `Engine.execute`: run the claimed task until it pauses, fails or is done, and save it. */
    method ExecuteTask(task: Task, env: Env, now: int)
      requires Valid() && task.id in tasks && Fits(PlanOf(task.id))
      modifies this`tasks, this`effects, this`approvals, this`nextApproval, task
      ensures Valid()
      ensures var run := Execute(old(PlanOf(task.id)), old(task.AsRow()), old(task.ctx), old(nextApproval), env, now);
              && tasks == old(tasks)[task.id := run.row] && effects == old(effects) + run.effects
              && nextApproval == old(nextApproval) + (if AskedLast(run.effects) then 1 else 0)
              && approvals == (if AskedLast(run.effects) then old(approvals)[old(nextApproval) := task.ticket.GetOr(0)] else old(approvals))
    {
      var plan := PlanOf(task.id);
      if plan.None? {
        task.status, task.error := Failed, "workflow";
        Save(task);
        return;
      }
      var steps := plan.value;
      var ctxMap := new ContextMap(task.ctx);
      ghost var run, n, newId := Runner(steps, task.ticket, env), |steps|, nextApproval;
      ghost var goal := Loop(run, n, task.AsRow(), task.ctx, newId, now);
      ghost var sofar: seq<Effect> := [];
      while task.step < |steps|
        invariant Valid() && tasks == old(tasks) && nextApproval == newId && approvals == old(approvals)
        invariant !AskedLast(sofar)
        invariant effects == old(effects) + sofar
        invariant Continues(goal, sofar, Loop(run, n, task.AsRow(), ctxMap.entries, newId, now))
        decreases |steps| - task.step
      {
        ghost var before, es := sofar, run(task.step, ctxMap.entries, newId).effects;
        LoopFrom(goal, before, run, n, task.AsRow(), ctxMap.entries, newId, now);
        sofar := before + es;
        AskedAppend(before, es);
        Assoc(old(effects), before, es);
        var stop := ExecuteStep(task, steps, ctxMap, env, now);
        if stop {
          return;
        }
      }
      assert goal.effects == sofar + [] == sofar;
      task.ctx := ctxMap.entries;
      task.status := Done;
      Save(task);
    }

    /** `Engine.Resume`, its read and its write run back to back. */
    method Resume(id: int, input: Ctx, now: int) returns (ok: bool)
      requires Valid()
      modifies this`tasks
      ensures Valid()
      ensures ok <==> id in old(tasks) && old(tasks)[id].status == WaitingUser
      ensures tasks == if ok then old(tasks)[id := Resumed(old(tasks)[id], input, now)] else old(tasks)
      ensures ok ==>
                var before, after := old(tasks)[id], tasks[id];
                && after.status == Pending && after.due == now && after.step == before.step
                && after.attempts == before.attempts && after.ticket == before.ticket
                && (forall k :: k in after.ctx <==> k in before.ctx || k in input)
                && (forall k :: k in after.ctx ==> after.ctx[k] == if k in input then input[k] else before.ctx[k])
    {
      if id !in tasks || tasks[id].status != WaitingUser {
        return false;
      }
      var row := tasks[id];
      var merged := row.ctx + input;
      tasks := tasks[id := row.(ctx := merged, status := Pending, due := now)];
      ok := true;
    }

    /** The approval keys of `ctx` under which `approval` is pending, by step id. */
    ghost predicate Awaits(row: Row, approval: int, ticket: int, stepId: string)
    {
      row.status == WaitingUser && row.ticket == Some(ticket)
      && PendingKey(stepId) in row.ctx && row.ctx[PendingKey(stepId)] == Num(approval)
    }

    ghost predicate AwaitsTwice(row: Row, approval: int, ticket: int)
    {
      exists id, id' :: id != id' && Awaits(row, approval, ticket, id) && Awaits(row, approval, ticket, id')
    }

    /** `after` is `before` resumed with the verdict for a step it holds this approval pending for. */
    ghost predicate Granted(before: Row, after: Row, approval: int, verdict: bool, ticket: int, now: int)
    {
      exists id :: Awaits(before, approval, ticket, id)
                && after == Resumed(before, map[DecisionKey(id) := Bool(verdict)], now)
    }

    /**
     `Engine.DecideApproval`: hand the verdict to every waiting task of the approval's ticket that has this
     approval pending. It fails only when one task holds the same approval pending under two keys.
     */
    method DecideApproval(approval: int, verdict: bool, now: int) returns (ok: bool)
      requires Valid()
      modifies this`tasks
      ensures Valid() && tasks.Keys == old(tasks.Keys)
      ensures approval !in approvals ==> !ok && tasks == old(tasks)
      ensures forall t :: t in tasks && tasks[t] != old(tasks)[t] ==>
                approval in approvals && Granted(old(tasks)[t], tasks[t], approval, verdict, approvals[approval], now)
      ensures ok ==> forall t, id :: t in tasks && Awaits(old(tasks)[t], approval, approvals[approval], id) ==>
                tasks[t] == Resumed(old(tasks)[t], map[DecisionKey(id) := Bool(verdict)], now)
      ensures approval in approvals && !ok ==>
                exists t :: t in tasks && AwaitsTwice(old(tasks)[t], approval, approvals[approval])
    {
      if approval !in approvals {
        return false;
      }
      var ticket := approvals[approval];
      var waiting := map t | t in tasks && tasks[t].status == WaitingUser && tasks[t].ticket == Some(ticket) :: tasks[t];
      var todo := waiting.Keys;
      while exists t :: t in todo
        invariant Valid() && todo <= waiting.Keys && tasks.Keys == old(tasks.Keys)
        invariant forall t :: t in tasks && (t in todo || t !in waiting) ==> tasks[t] == old(tasks)[t]
        invariant forall t :: t in waiting && t !in todo ==>
                    Settled(old(tasks)[t], tasks[t], approval, verdict, ticket, now)
        decreases todo
      {
        var t :| t in todo;
        todo := todo - {t};
        var good := DecideTask(t, approval, verdict, ticket, now);
        if !good {
          return false;
        }
      }
      ok := true;
    }

    /** What a decision does to one waiting task that holds the approval under at most one key. */
    ghost predicate Settled(before: Row, after: Row, approval: int, verdict: bool, ticket: int, now: int)
    {
      && (after != before ==> Granted(before, after, approval, verdict, ticket, now))
      && (forall id :: Awaits(before, approval, ticket, id) ==>
            after == Resumed(before, map[DecisionKey(id) := Bool(verdict)], now))
    }

    method DecideTask(t: int, approval: int, verdict: bool, ticket: int, now: int) returns (good: bool)
      requires Valid() && t in tasks && tasks[t].status == WaitingUser && tasks[t].ticket == Some(ticket)
      modifies this`tasks
      ensures Valid() && tasks.Keys == old(tasks.Keys)
      ensures forall u :: u in tasks && u != t ==> tasks[u] == old(tasks)[u]
      ensures good ==> Settled(old(tasks)[t], tasks[t], approval, verdict, ticket, now)
      ensures tasks[t] != old(tasks)[t] ==> Granted(old(tasks)[t], tasks[t], approval, verdict, ticket, now)
      ensures !good ==> AwaitsTwice(old(tasks)[t], approval, ticket)
    {
      var row := tasks[t];
      var keys := row.ctx.Keys;
      var prefix := "_pending_approval_id_";
      ghost var hit: Option<string> := None;
      while exists k :: k in keys
        invariant Valid() && keys <= row.ctx.Keys && tasks.Keys == old(tasks.Keys)
        invariant forall u :: u in tasks && u != t ==> tasks[u] == old(tasks)[u]
        invariant hit.None? ==> tasks[t] == row
        invariant hit.Some? ==> Awaits(row, approval, ticket, hit.value) && PendingKey(hit.value) !in keys
        invariant hit.Some? ==> tasks[t] == Resumed(row, map[DecisionKey(hit.value) := Bool(verdict)], now)
        invariant forall id :: Awaits(row, approval, ticket, id) && PendingKey(id) !in keys ==> hit == Some(id)
        decreases keys
      {
        var k :| k in keys;
        keys := keys - {k};
        if row.ctx[k] == Num(approval) && |k| >= |prefix| && k[..|prefix|] == prefix {
          var stepId := k[|prefix|..];
          assert k == PendingKey(stepId);
          assert Awaits(row, approval, ticket, stepId);
          var resumed := Resume(t, map[DecisionKey(stepId) := Bool(verdict)], now);
          if !resumed {
            assert hit.Some? && hit.value != stepId;
            return false;
          }
          hit := Some(stepId);
          forall id | PendingKey(id) == k ensures id == stepId { ReservedKeysApart(id, stepId); }
        } else {
          forall id | PendingKey(id) == k ensures !Awaits(row, approval, ticket, id) {
            assert k[..|prefix|] == prefix;
          }
        }
      }
      good := true;
    }
  }

  function AskedLast(effects: seq<Effect>): bool
  {
    |effects| > 0 && effects[|effects| - 1].Asked?
  }

  lemma AskedAppend(before: seq<Effect>, es: seq<Effect>)
    ensures !AskedLast(before) ==> (AskedLast(before + es) <==> AskedLast(es))
  {
    if !AskedLast(before) {
      if es == [] { assert before + es == before; }
    }
  }

  lemma AskedPauses(step: Step, k: nat, ticket: Option<int>, ctx: Ctx, newId: int, env: Env)
    ensures var r := Steps.RunStep(step, k, ticket, ctx, newId, env); AskedLast(r.effects) ==> r.outcome.Pause?
  {
  }

  /** The whole claim is what was done so far and then `rest`. */
  ghost predicate Continues(goal: ClaimRun, sofar: seq<Effect>, rest: ClaimRun)
  {
    goal.row == rest.row && goal.effects == sofar + rest.effects
  }

  lemma LoopFrom(goal: ClaimRun, sofar: seq<Effect>, run: Stepper, n: nat, row: Row, ctx: Ctx, newId: int, now: int)
    requires n <= JUMP && row.step < n && Continues(goal, sofar, Loop(run, n, row, ctx, newId, now))
    ensures var r := run(row.step, ctx, newId);
            var turn := Settle(row, r, now);
            && (turn.Save? ==> goal == ClaimRun(turn.row, sofar + r.effects))
            && (turn.Next? ==> turn.row.step > row.step
                               && Continues(goal, sofar + r.effects, Loop(run, n, turn.row, turn.ctx, newId, now)))
  {
    LoopOnce(run, n, row, ctx, newId, now);
    var r := run(row.step, ctx, newId);
    var turn := Settle(row, r, now);
    if turn.Next? {
      Assoc(sofar, r.effects, Loop(run, n, turn.row, turn.ctx, newId, now).effects);
    }
  }

  /** The loop of `execute`, unrolled once. */
  lemma LoopOnce(run: Stepper, n: nat, row: Row, ctx: Ctx, newId: int, now: int)
    requires n <= JUMP && row.step < n
    ensures var r := run(row.step, ctx, newId);
            var turn := Settle(row, r, now);
            var claim := Loop(run, n, row, ctx, newId, now);
            && (turn.Save? ==> claim == ClaimRun(turn.row, r.effects))
            && (turn.Next? ==>
                  var rest := Loop(run, n, turn.row, turn.ctx, newId, now);
                  claim == ClaimRun(rest.row, r.effects + rest.effects))
  {
  }
}
