/**
 What each kind of step means for the claim that stands at it: where the claim goes on, with which context, what it does
 outside, and how it fails or waits (internal/workflow/engine.go:155-332).
 */
module StepMeaning {
  import opened Common
  import opened Steps
  import opened TaskQueue
  import opened Execution

  /** A claimed row that stands at step `step` of its plan. */
  predicate StandsAt(plan: Option<seq<Step>>, row: Row, step: Step)
  {
    plan.Some? && |plan.value| <= JUMP && row.status == Processing && row.step < |plan.value| && plan.value[row.step] == step
  }

  /** The claim does `effects` and is then the claim of the next step, with context `ctx` and all attempts back. */
  ghost predicate GoesOn(claim: ClaimRun, plan: Option<seq<Step>>, row: Row, ctx: Ctx, effects: seq<Effect>, newId: int, env: Env, now: int)
  {
    Fits(plan) &&
    var rest := Execute(plan, row.(step := row.step + 1, attempts := 0), ctx, newId, env, now);
    claim.row == rest.row && claim.effects == effects + rest.effects
  }

  /** The claim ends in an error: two more tries, after two and four seconds, then the task has failed. */
  predicate Fails(claim: ClaimRun, row: Row, effects: seq<Effect>, now: int)
  {
    && claim.effects == effects
    && claim.row.step == row.step && claim.row.ctx == row.ctx && claim.row.ticket == row.ticket
    && claim.row.attempts == row.attempts + 1
    && (row.attempts == 0 ==> claim.row.status == Pending && claim.row.due == now + 2)
    && (row.attempts == 1 ==> claim.row.status == Pending && claim.row.due == now + 4)
    && (row.attempts >= 2 ==> claim.row.status == Failed)
  }

  /** The claim ends and the task waits at this step. */
  predicate Waits(claim: ClaimRun, row: Row, ctx: Ctx, effects: seq<Effect>)
  {
    claim.effects == effects && claim.row == row.(ctx := ctx, status := WaitingUser)
  }

  /** The claim ends and the task is done. */
  predicate Ends(claim: ClaimRun, row: Row, ctx: Ctx)
  {
    && claim.effects == [] && claim.row.status == Done && claim.row.ctx == ctx && claim.row.ticket == row.ticket
  }

  /** One step of a claim, by the outcome it had. */
  lemma Unrolled(plan: Option<seq<Step>>, row: Row, step: Step, ctx: Ctx, newId: int, env: Env, now: int)
    requires StandsAt(plan, row, step)
    ensures var claim, r := Execute(plan, row, ctx, newId, env, now), RunStep(step, row.step, row.ticket, ctx, newId, env);
            && (r.outcome.Advance? ==> GoesOn(claim, plan, row, r.ctx, r.effects, newId, env, now))
            && (r.outcome.Error? ==> Fails(claim, row, r.effects, now))
            && (r.outcome.Pause? ==> Waits(claim, row, r.ctx, r.effects))
            && (r.outcome.Jump? && r.effects == [] ==> Ends(claim, row, r.ctx))
  {
    var r := RunStep(step, row.step, row.ticket, ctx, newId, env);
    assert Backoff(1) == 2 && Backoff(2) == 4;
    if r.outcome.Jump? {
      var row' := row.(step := JUMP + 1, attempts := 0);
      assert Execute(plan, row', r.ctx, newId, env, now) == ClaimRun(row'.(ctx := r.ctx, status := Done), []);
      assert r.effects + [] == r.effects;
    }
  }

  /** The value that a condition compares, as it prints: absent fields print as nil. */
  predicate Prints(ctx: Ctx, field: string, env: Env, text: string)
  {
    if field !in ctx then text == "<nil>"
    else
      var v := ctx[field];
      && (v.Str? ==> text == v.s)
      && (v == Bool(true) ==> text == "true")
      && (v == Bool(false) ==> text == "false")
      && (v.Num? ==> text == env.showNum(v.n))
      && (v.Tree? ==> text == v.repr)
  }

  /**
   MAIN RESULT. A condition whose field prints as expected lets the claim go on with the same context; any other one ends the
   workflow there, with nothing further done.
   */
  lemma ConditionDecides(
      plan: Option<seq<Step>>, row: Row, id: string, field: string, equals: string, text: string, ctx: Ctx, newId: int, env: Env, now: int)
    ensures StandsAt(plan, row, Condition(id, field, equals)) && Prints(ctx, field, env, text) ==>
              var claim := Execute(plan, row, ctx, newId, env, now);
              if text == equals then claim == Execute(plan, row.(step := row.step + 1, attempts := 0), ctx, newId, env, now)
              else Ends(claim, row, ctx)
  {
    if StandsAt(plan, row, Condition(id, field, equals)) && Prints(ctx, field, env, text) {
      Unrolled(plan, row, Condition(id, field, equals), ctx, newId, env, now);
      var rest := Execute(plan, row.(step := row.step + 1, attempts := 0), ctx, newId, env, now);
      assert [] + rest.effects == rest.effects;
    }
  }

  /** A form waits until it has been resumed once. */
  lemma FormWaits(plan: Option<seq<Step>>, row: Row, id: string, ctx: Ctx, newId: int, env: Env, now: int)
    ensures StandsAt(plan, row, UserInput(id)) ==>
              var claim := Execute(plan, row, ctx, newId, env, now);
              if "_resumed_" + id in ctx then GoesOn(claim, plan, row, ctx, [], newId, env, now)
              else Waits(claim, row, ctx["_resumed_" + id := Bool(true)], [])
  {
    if StandsAt(plan, row, UserInput(id)) {
      Unrolled(plan, row, UserInput(id), ctx, newId, env, now);
    }
  }

  /** A request is sent once to the rendered address, with GET as the default; only an answer is saved, and only where asked. */
  lemma RequestIsSent(
      plan: Option<seq<Step>>, row: Row, id: string, verb: string, url: string, saveTo: string, ctx: Ctx, newId: int, env: Env, now: int)
    ensures StandsAt(plan, row, HttpRequest(id, verb, url, saveTo)) ==>
              var claim, target := Execute(plan, row, ctx, newId, env, now), env.render(url, ctx);
              target.None? ==> Fails(claim, row, [], now)
    ensures StandsAt(plan, row, HttpRequest(id, verb, url, saveTo)) ==>
              var claim, target := Execute(plan, row, ctx, newId, env, now), env.render(url, ctx);
              target.Some? ==>
                var verb' := if verb == "" then "GET" else verb;
                var reply, sent := env.http(row.step, verb', target.value), [Called(row.step, verb', target.value)];
                && (reply.NotSent? ==> Fails(claim, row, [], now))
                && (reply.Refused? ==> Fails(claim, row, sent, now))
                && (reply.Answer? && saveTo == "" ==> GoesOn(claim, plan, row, ctx, sent, newId, env, now))
                && (reply.Answer? && saveTo != "" ==> GoesOn(claim, plan, row, ctx[saveTo := reply.value], sent, newId, env, now))
  {
    if StandsAt(plan, row, HttpRequest(id, verb, url, saveTo)) {
      Unrolled(plan, row, HttpRequest(id, verb, url, saveTo), ctx, newId, env, now);
    }
  }

  /** A template's output goes under its step's id, and into a note if that is its target and there is a ticket. */
  lemma TemplateIsKept(
      plan: Option<seq<Step>>, row: Row, id: string, template: string, target: string, ctx: Ctx, newId: int, env: Env, now: int)
    ensures StandsAt(plan, row, TemplateRender(id, template, target)) ==>
              var claim, out := Execute(plan, row, ctx, newId, env, now), env.render(template, ctx);
              out.None? ==> Fails(claim, row, [], now)
    ensures StandsAt(plan, row, TemplateRender(id, template, target)) ==>
              var claim, out := Execute(plan, row, ctx, newId, env, now), env.render(template, ctx);
              out.Some? ==>
                var posts := row.ticket.Some? && (target == "ticket_external_note" || target == "ticket_internal_note");
                && (!posts ==> GoesOn(claim, plan, row, ctx[id := Str(out.value)], [], newId, env, now))
                && (posts && !env.writeOk(row.step) ==> Fails(claim, row, [], now))
                && (posts && env.writeOk(row.step) ==>
                      GoesOn(claim, plan, row, ctx[id := Str(out.value)],
                             [NotePosted(row.step, row.ticket.value, out.value, target == "ticket_internal_note")], newId, env, now))
  {
    if StandsAt(plan, row, TemplateRender(id, template, target)) {
      Unrolled(plan, row, TemplateRender(id, template, target), ctx, newId, env, now);
    }
  }

  /** A note is posted on the task's ticket, internal or not as the step says; without a ticket the step is passed. */
  lemma NoteIsPosted(
      plan: Option<seq<Step>>, row: Row, id: string, body: string, hidden: bool, ctx: Ctx, newId: int, env: Env, now: int)
    ensures StandsAt(plan, row, AddNote(id, body, hidden)) ==>
              var claim, out := Execute(plan, row, ctx, newId, env, now), env.render(body, ctx);
              && (row.ticket.None? ==> GoesOn(claim, plan, row, ctx, [], newId, env, now))
              && (row.ticket.Some? && (out.None? || !env.writeOk(row.step)) ==> Fails(claim, row, [], now))
              && (row.ticket.Some? && out.Some? && env.writeOk(row.step) ==>
                    GoesOn(claim, plan, row, ctx, [NotePosted(row.step, row.ticket.value, out.value, hidden)], newId, env, now))
  {
    if StandsAt(plan, row, AddNote(id, body, hidden)) {
      Unrolled(plan, row, AddNote(id, body, hidden), ctx, newId, env, now);
    }
  }

  lemma AssigneeIsSet(plan: Option<seq<Step>>, row: Row, id: string, assignee: Option<int>, ctx: Ctx, newId: int, env: Env, now: int)
    ensures StandsAt(plan, row, AutoAssign(id, assignee)) ==>
              var claim := Execute(plan, row, ctx, newId, env, now);
              && (row.ticket.None? || assignee.None? ==> GoesOn(claim, plan, row, ctx, [], newId, env, now))
              && (row.ticket.Some? && assignee.Some? && !env.writeOk(row.step) ==> Fails(claim, row, [], now))
              && (row.ticket.Some? && assignee.Some? && env.writeOk(row.step) ==>
                    GoesOn(claim, plan, row, ctx, [Reassigned(row.step, row.ticket.value, assignee.value)], newId, env, now))
  {
    if StandsAt(plan, row, AutoAssign(id, assignee)) {
      Unrolled(plan, row, AutoAssign(id, assignee), ctx, newId, env, now);
    }
  }

  /** A webhook gets the whole context. */
  lemma WebhookIsDispatched(plan: Option<seq<Step>>, row: Row, id: string, event: string, ctx: Ctx, newId: int, env: Env, now: int)
    ensures StandsAt(plan, row, Webhook(id, event)) ==> GoesOn(Execute(plan, row, ctx, newId, env, now), plan, row, ctx, [Dispatched(row.step, event, ctx)], newId, env, now)
  {
    if StandsAt(plan, row, Webhook(id, event)) {
      Unrolled(plan, row, Webhook(id, event), ctx, newId, env, now);
    }
  }

  lemma MessageIsPublished(plan: Option<seq<Step>>, row: Row, id: string, message: string, ctx: Ctx, newId: int, env: Env, now: int)
    ensures StandsAt(plan, row, Notify(id, message)) ==>
              var claim, out := Execute(plan, row, ctx, newId, env, now), env.render(message, ctx);
              && (out.None? ==> Fails(claim, row, [], now))
              && (out.Some? ==>
                    GoesOn(claim, plan, row, ctx, if row.ticket.Some? then [Notified(row.step, row.ticket.value, out.value)] else [], newId, env, now))
  {
    if StandsAt(plan, row, Notify(id, message)) {
      Unrolled(plan, row, Notify(id, message), ctx, newId, env, now);
    }
  }

  /** An approval step asks and waits; a verdict of true lets the claim go on, any other one fails it. */
  lemma ApprovalAsks(plan: Option<seq<Step>>, row: Row, id: string, role: string, ctx: Ctx, newId: int, env: Env, now: int)
    ensures StandsAt(plan, row, Approval(id, role)) ==>
              var claim, verdict := Execute(plan, row, ctx, newId, env, now), "_approval_decision_" + id;
              && (verdict in ctx && ctx[verdict] == Bool(true) ==> GoesOn(claim, plan, row, ctx, [], newId, env, now))
              && (verdict in ctx && ctx[verdict] != Bool(true) ==> Fails(claim, row, [], now))
              && (verdict !in ctx && (row.ticket.None? || !env.writeOk(row.step)) ==> Fails(claim, row, [], now))
              && (verdict !in ctx && row.ticket.Some? && env.writeOk(row.step) ==>
                    Waits(claim, row, ctx["_pending_approval_id_" + id := Num(newId)], [Asked(row.step, row.ticket.value, newId, role)]))
  {
    if StandsAt(plan, row, Approval(id, role)) {
      Unrolled(plan, row, Approval(id, role), ctx, newId, env, now);
    }
  }

  lemma UnknownFails(plan: Option<seq<Step>>, row: Row, id: string, typ: string, ctx: Ctx, newId: int, env: Env, now: int)
    ensures StandsAt(plan, row, Unknown(id, typ)) ==> Fails(Execute(plan, row, ctx, newId, env, now), row, [], now)
  {
    if StandsAt(plan, row, Unknown(id, typ)) {
      Unrolled(plan, row, Unknown(id, typ), ctx, newId, env, now);
    }
  }

  /** Past its last step a task is done and keeps the context it ends with; without a plan it has failed. */
  lemma PlanEnds(plan: Option<seq<Step>>, row: Row, ctx: Ctx, newId: int, env: Env, now: int)
    requires Fits(plan)
    ensures var claim := Execute(plan, row, ctx, newId, env, now);
            && (plan.Some? && row.step >= |plan.value| ==> Ends(claim, row, ctx))
            && (plan.None? ==> claim.effects == [] && claim.row.status == Failed && claim.row.ctx == row.ctx && claim.row.step == row.step)
  {
  }
}
