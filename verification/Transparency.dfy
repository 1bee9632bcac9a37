/**
 Pauses are transparent: any run of the task queue, seen from one task, against an interpreter that never stops. It reads
 its inputs where the engine pauses and knows nothing of rows, statuses, workers or other tasks.
 */
module Transparency {
  import opened Common
  import opened Steps
  import opened TaskQueue
  import opened TaskOrder
  import opened TaskBounds
  import opened Execution

  // ---------------------------------------------------------------- the uninterrupted interpreter

  /** What one execution of a step meets outside: its environment, and the id of the approval it may ask for. */
  datatype Outside = Outside(env: Env, newId: int)

  /** Cut: the script ended at this step. */
  datatype Ending = Finished(ctx: Ctx) | Starved(step: nat, ctx: Ctx) | Broken(step: nat, msg: string) | Cut(step: nat, ctx: Ctx)

  datatype Story = Story(effects: seq<Effect>, ending: Ending)

  function Tell(effects: seq<Effect>, story: Story): Story { story.(effects := effects + story.effects) }

  /**
   Walk the step list once. A form reads one input. An approval asks, reads inputs and asks again until a verdict for it has
   come in. `Starved` means an input was needed and none was left.
   */
  function Interpret(steps: seq<Step>, ticket: Option<int>, k: nat, ctx: Ctx, inputs: seq<Ctx>, script: seq<Outside>): Story
    decreases |inputs| + |script|, |steps| - k
  {
    if k >= |steps| then Story([], Finished(ctx))
    else if steps[k].UserInput? then
      var key := ResumedKey(steps[k].id);
      if key in ctx then Interpret(steps, ticket, k + 1, ctx, inputs, script)
      else if inputs == [] then Story([], Starved(k, ctx[key := Bool(true)]))
      else Interpret(steps, ticket, k + 1, ctx[key := Bool(true)] + inputs[0], inputs[1..], script)
    else if script == [] then Story([], Cut(k, ctx))
    else
      var r := RunStep(steps[k], k, ticket, ctx, script[0].newId, script[0].env);
      match r.outcome
      case Error(msg) => Story(r.effects, Broken(k, msg))
      case Jump => Story(r.effects, Finished(r.ctx))
      case Advance => Tell(r.effects, Interpret(steps, ticket, k + 1, r.ctx, inputs, script[1..]))
      case Pause =>
        if inputs == [] then Story(r.effects, Starved(k, r.ctx))
        else Tell(r.effects, Interpret(steps, ticket, k, r.ctx + inputs[0], inputs[1..], script[1..]))
  }

  /** Where the interpreter goes on when the task stands at `row`. */
  function Rest(steps: seq<Step>, row: Row, inputs: seq<Ctx>, script: seq<Outside>): Story
  {
    match row.status
    case Done => Story([], Finished(row.ctx))
    case Failed => Story([], Broken(row.step, row.error))
    case WaitingUser =>
      if inputs == [] then Story([], Starved(row.step, row.ctx))
      else Interpret(steps, row.ticket, row.step, row.ctx + inputs[0], inputs[1..], script)
    case _ =>
      if row.status == Pending && row.attempts > 0 then Story([], Broken(row.step, row.error))
      else Interpret(steps, row.ticket, row.step, row.ctx, inputs, script)
  }

  // ---------------------------------------------------------------- a run as one task sees it

  /** What a run hands to and takes from one task: its inputs, what its steps met outside, what they did there. */
  datatype Part = Part(inputs: seq<Ctx>, script: seq<Outside>, effects: seq<Effect>)

  const NOTHING := Part([], [], [])

  function TurnPart(steps: seq<Step>, row: Row, ctx: Ctx, newId: int, env: Env): Part
  {
    if row.step >= |steps| then NOTHING
    else Part([], if steps[row.step].UserInput? then [] else [Outside(env, newId)],
              RunStep(steps[row.step], row.step, row.ticket, ctx, newId, env).effects)
  }

  ghost function PartOf(plans: Plans, s: World, l: Label, t: int): Part
  {
    if l.TakeTurn? && RunsTask(s, l.w, t) then
      TurnPart(StepsOf(plans, t), s.workers[l.w].row, s.workers[l.w].ctx, l.newId, l.env)
    else if l.Store? && l.c in s.calls && s.calls[l.c].task == t then Part([s.calls[l.c].input], [], [])
    else NOTHING
  }

  ghost function PartsOf(plans: Plans, s: World, ls: seq<Label>, t: int): Part
    decreases ls
  {
    if ls == [] || !Enabled(plans, s, ls[0]) then NOTHING
    else
      var first, rest := PartOf(plans, s, ls[0], t), PartsOf(plans, Apply(plans, s, ls[0]), ls[1..], t);
      Part(first.inputs + rest.inputs, first.script + rest.script, first.effects + rest.effects)
  }

  /** Where task `t` stands: the running copy, or the stored row. */
  ghost function Standing(s: World, t: int): Row
    requires t in s.rows
  {
    if exists w :: RunsTask(s, w, t) then
      var w :| RunsTask(s, w, t);
      s.workers[w].row.(ctx := s.workers[w].ctx, status := Processing)
    else s.rows[t]
  }

  /**
   For task `t`, the step is one of an undisturbed run: claims and resumes act on the row as it is, no worker crashes on
   the task, and it is not claimed again after an error.
   */
  ghost predicate Smooth(s: World, l: Label, t: int)
  {
    && QuietStore(s, l) && Current(s, l, t)
    && (l.Store? && l.c in s.calls && s.calls[l.c].Fetched? && s.calls[l.c].task == t ==> s.rows[t] == s.calls[l.c].snap)
    && (l.Crash? ==> !RunsTask(s, l.w, t))
    && (l.Claim? && WorkerAt(s, l.w).Selected? && WorkerAt(s, l.w).id == t && Claimable(s, t) ==> s.rows[t].attempts == 0)
  }

  ghost predicate AllSmooth(plans: Plans, s: World, ls: seq<Label>, t: int)
    decreases ls
  {
    ls == [] || (Enabled(plans, s, ls[0]) && Smooth(s, ls[0], t) && AllSmooth(plans, Apply(plans, s, ls[0]), ls[1..], t))
  }

  /** A task that has not met an error before it stopped has all its attempts. */
  ghost predicate Unbroken(s: World, t: int)
  {
    && Exclusive(s) && FetchedWaiting(s) && t in s.rows
    && (s.rows[t].status == WaitingUser ==> s.rows[t].attempts == 0)
    && (forall w :: RunsTask(s, w, t) ==> s.workers[w].row.attempts == 0)
  }

  lemma ShiftTell(a: seq<Effect>, b: seq<Effect>, story: Story)
    ensures Tell(a + b, story) == Tell(a, Tell(b, story))
  {
    Assoc(a, b, story.effects);
  }

  /** One turn of the loop, with the interpreter beside it. */
  ghost predicate Beside(steps: seq<Step>, row: Row, ctx: Ctx, part: Part, turn: Turn, inputs: seq<Ctx>, script: seq<Outside>)
  {
    var after := if turn.Next? then turn.row.(ctx := turn.ctx, status := Processing) else turn.row;
    && Interpret(steps, row.ticket, row.step, ctx, inputs, part.script + script)
       == Tell(part.effects, Rest(steps, after, inputs, script))
    && (turn.Next? || turn.row.status == WaitingUser ==> turn.row.attempts == 0)
    && (turn.Save? ==> turn.row.status != Processing)
  }

  /** A form pauses for one input and, once answered, is passed. */
  lemma FormTells(steps: seq<Step>, row: Row, ctx: Ctx, newId: int, env: Env, now: int, inputs: seq<Ctx>, script: seq<Outside>)
    requires |steps| <= JUMP && row.attempts == 0 && row.step < |steps| && steps[row.step].UserInput?
    ensures Beside(steps, row, ctx, TurnPart(steps, row, ctx, newId, env),
                   Iterate(Some(steps), row, ctx, newId, env, now), inputs, script)
  {
    assert [] + script == script;
    var next := Interpret(steps, row.ticket, row.step + 1, ctx, inputs, script);
    assert [] + next.effects == next.effects;
    if inputs != [] {
      var marked := ctx[ResumedKey(steps[row.step].id) := Bool(true)] + inputs[0];
      var onward := Interpret(steps, row.ticket, row.step + 1, marked, inputs[1..], script);
      assert [] + onward.effects == onward.effects;
    }
  }

  lemma TurnTells(steps: seq<Step>, row: Row, ctx: Ctx, newId: int, env: Env, now: int, inputs: seq<Ctx>, script: seq<Outside>)
    requires |steps| <= JUMP && row.attempts == 0
    ensures Beside(steps, row, ctx, TurnPart(steps, row, ctx, newId, env),
                   Iterate(Some(steps), row, ctx, newId, env, now), inputs, script)
  {
    var part := TurnPart(steps, row, ctx, newId, env);
    assert part.effects + [] == part.effects;
    if row.step >= |steps| {
      assert [] + script == script;
    } else if steps[row.step].UserInput? {
      FormTells(steps, row, ctx, newId, env, now, inputs, script);
    } else {
      assert (part.script + script)[1..] == script;
    }
  }

  lemma StandingIs(s: World, t: int, w: int)
    requires Exclusive(s) && RunsTask(s, w, t)
    ensures Standing(s, t) == s.workers[w].row.(ctx := s.workers[w].ctx, status := Processing)
  {
  }

  lemma OwnTurnTells(plans: Plans, s: World, l: Label, t: int, inputs: seq<Ctx>, script: seq<Outside>)
    requires plans(t).Some? && |plans(t).value| <= JUMP && Unbroken(s, t)
    requires l.TakeTurn? && Enabled(plans, s, l) && RunsTask(s, l.w, t)
    ensures var part, s' := PartOf(plans, s, l, t), Apply(plans, s, l);
            && Unbroken(s', t)
            && Rest(plans(t).value, Standing(s, t), part.inputs + inputs, part.script + script)
               == Tell(part.effects, Rest(plans(t).value, Standing(s', t), inputs, script))
  {
    var s' := Apply(plans, s, l);
    var Running(id, row, ctx) := WorkerAt(s, l.w);
    var turn := Iterate(plans(t), row, ctx, l.newId, l.env, l.now);
    StepKeepsExclusive(plans, s, l);
    StandingIs(s, t, l.w);
    TurnTells(plans(t).value, row, ctx, l.newId, l.env, l.now, inputs, script);
    assert [] + inputs == inputs;
    forall v | RunsTask(s', v, t) ensures v == l.w && turn.Next? {
      assert RunsTask(s, v, t);
    }
    if turn.Next? {
      assert RunsTask(s', l.w, t);
      StandingIs(s', t, l.w);
    }
  }

  lemma OwnClaimTells(plans: Plans, s: World, w: int, t: int)
    requires Unbroken(s, t) && Enabled(plans, s, Claim(w)) && Smooth(s, Claim(w), t)
    requires WorkerAt(s, w).id == t && Claimable(s, t)
    ensures Unbroken(ApplyClaim(s, w), t)
    ensures Standing(s, t) == s.rows[t] && Standing(ApplyClaim(s, w), t) == s.rows[t].(status := Processing)
  {
    var s' := ApplyClaim(s, w);
    StepKeepsExclusive(plans, s, Claim(w));
    assert RunsTask(s', w, t);
    StandingIs(s', t, w);
    forall v | RunsTask(s', v, t) ensures v == w { }
  }

  lemma OwnStoreTells(plans: Plans, s: World, l: Label, t: int)
    requires Unbroken(s, t) && l.Store? && Enabled(plans, s, l) && Smooth(s, l, t) && s.calls[l.c].task == t
    ensures var s' := Apply(plans, s, l);
            && Unbroken(s', t) && Standing(s, t) == s.rows[t] && s.rows[t].status == WaitingUser
            && Standing(s', t) == Resumed(s.rows[t], s.calls[l.c].input, l.now)
  {
    var s' := Apply(plans, s, l);
    StepKeepsExclusive(plans, s, l);
    forall v ensures !RunsTask(s', v, t) {
      assert RunsTask(s', v, t) ==> RunsTask(s, v, t);
    }
  }

  /** Whatever others do, the task stands where it stood. */
  lemma OtherTells(plans: Plans, s: World, l: Label, t: int)
    requires Unbroken(s, t) && Enabled(plans, s, l) && Smooth(s, l, t)
    requires l.TakeTurn? ==> !RunsTask(s, l.w, t)
    requires l.Claim? ==> !(WorkerAt(s, l.w).id == t && Claimable(s, t))
    requires l.Store? ==> s.calls[l.c].task != t
    ensures var s' := Apply(plans, s, l);
            Unbroken(s', t) && Standing(s', t) == Standing(s, t) && PartOf(plans, s, l, t) == NOTHING
  {
    var s' := Apply(plans, s, l);
    StepKeepsExclusive(plans, s, l);
    assert s'.rows[t] == s.rows[t];
    forall v ensures RunsTask(s', v, t) <==> RunsTask(s, v, t)
             ensures RunsTask(s, v, t) ==> s'.workers[v] == s.workers[v] { }
    if w :| RunsTask(s, w, t) {
      StandingIs(s, t, w);
      StandingIs(s', t, w);
    }
  }

  lemma StepTells(plans: Plans, s: World, l: Label, t: int, inputs: seq<Ctx>, script: seq<Outside>)
    requires plans(t).Some? && |plans(t).value| <= JUMP && Unbroken(s, t) && Enabled(plans, s, l) && Smooth(s, l, t)
    ensures var part, s' := PartOf(plans, s, l, t), Apply(plans, s, l);
            && Unbroken(s', t)
            && Rest(plans(t).value, Standing(s, t), part.inputs + inputs, part.script + script)
               == Tell(part.effects, Rest(plans(t).value, Standing(s', t), inputs, script))
  {
    var steps := plans(t).value;
    if l.TakeTurn? && RunsTask(s, l.w, t) {
      OwnTurnTells(plans, s, l, t, inputs, script);
      return;
    }
    var part, s' := PartOf(plans, s, l, t), Apply(plans, s, l);
    assert [] + script == script && [] + inputs == inputs;
    if l.Claim? && WorkerAt(s, l.w).id == t && Claimable(s, t) {
      OwnClaimTells(plans, s, l.w, t);
    } else if l.Store? && s.calls[l.c].task == t {
      OwnStoreTells(plans, s, l, t);
      assert (part.inputs + inputs)[1..] == inputs;
    } else {
      OtherTells(plans, s, l, t);
    }
    var story := Rest(steps, Standing(s', t), inputs, script);
    assert [] + story.effects == story.effects;
  }

  lemma {:induction false} RunTells(plans: Plans, s: World, ls: seq<Label>, t: int)
    requires plans(t).Some? && |plans(t).value| <= JUMP && Unbroken(s, t)
    requires Valid(plans, s, ls) && AllSmooth(plans, s, ls, t)
    ensures var part, s' := PartsOf(plans, s, ls, t), Run(plans, s, ls);
            && Unbroken(s', t)
            && Rest(plans(t).value, Standing(s, t), part.inputs, part.script)
               == Tell(part.effects, Rest(plans(t).value, Standing(s', t), [], []))
    decreases ls
  {
    if ls == [] {
      var story := Rest(plans(t).value, Standing(s, t), [], []);
      assert [] + story.effects == story.effects;
    } else {
      var next := Apply(plans, s, ls[0]);
      var first, rest := PartOf(plans, s, ls[0], t), PartsOf(plans, next, ls[1..], t);
      StepTells(plans, s, ls[0], t, rest.inputs, rest.script);
      RunTells(plans, next, ls[1..], t);
      ShiftTell(first.effects, rest.effects, Rest(plans(t).value, Standing(Run(plans, s, ls), t), [], []));
    }
  }

  /** The story that ends where the stored row says it stopped. */
  predicate EndsAs(row: Row, effects: seq<Effect>, story: Story)
  {
    && story.effects == effects
    && match row.status
       case Done => story.ending == Finished(row.ctx)
       case WaitingUser => story.ending == Starved(row.step, row.ctx)
       case _ => story.ending == Broken(row.step, row.error)
  }

  /** Nobody has the task in hand, and it is done, waiting or has met an error. */
  ghost predicate Stopped(s: World, t: int)
  {
    Quiet(s, t) && t in s.rows && s.rows[t].status != Processing && (s.rows[t].status == Pending ==> s.rows[t].attempts > 0)
  }

  /**
   MAIN RESULT. In every run, with any number of workers, other tasks, forms and approvals in between, a task whose claims and
   resumes act on its row as it is has, up to its first error, the effects of one uninterrupted interpretation fed the same
   inputs, in the same order; and where it has stopped, the interpretation ends with the same context or the same error.
   */
  lemma PausesAreTransparent(plans: Plans, s: World, ls: seq<Label>, t: int)
    requires plans(t).Some? && |plans(t).value| <= JUMP && Exclusive(s) && FetchedWaiting(s)
    requires Quiet(s, t) && t in s.rows && s.rows[t].status == Pending && s.rows[t].attempts == 0
    requires Valid(plans, s, ls) && AllSmooth(plans, s, ls, t)
    ensures var row, part, s' := s.rows[t], PartsOf(plans, s, ls, t), Run(plans, s, ls);
            var story := Interpret(plans(t).value, row.ticket, row.step, row.ctx, part.inputs, part.script);
            && part.effects <= story.effects
            && t in s'.rows
            && (Stopped(s', t) ==> EndsAs(s'.rows[t], part.effects, story))
  {
    RunTells(plans, s, ls, t);
    var part, s' := PartsOf(plans, s, ls, t), Run(plans, s, ls);
    if Stopped(s', t) {
      assert Standing(s', t) == s'.rows[t];
      assert part.effects + [] == part.effects;
    }
  }

  // ---------------------------------------------------------------- where transparency stops

  const LOSSY := [HttpRequest("a", "", "u", "x"), AddNote("b", "n", false)]
  const KEPT: Ctx := map["x" := Str("kept")]

  function Flaky(ok: bool): Env
  {
    Env((t, c) => Some(t), (k, v, u) => Answer(Str("kept")), k => ok, n => "")
  }

  lemma LossySteps(ok: bool)
    ensures var run := Runner(LOSSY, Some(1), Flaky(ok));
            && run(0, map[], 7) == StepResult(Advance, KEPT, [Called(0, "GET", "u")])
            && (forall ctx :: run(1, ctx, 7).outcome == (if ok then Advance else Error("write")) && run(1, ctx, 7).ctx == ctx)
  {
  }

  /**
   After one failed write and a clean retry the task is done, and the response saved before the failure is
   gone from its context, although the interpreter ends with it.
   */
  lemma RetryLosesOutputs(row: Row, now: int)
    requires row == Row(Some(1), Processing, 0, map[], 0, "", 0)
    ensures var first := Execute(Some(LOSSY), row, row.ctx, 7, Flaky(false), now).row;
            var second := Execute(Some(LOSSY), first.(status := Processing), first.ctx, 7, Flaky(true), now).row;
            && first.status == Pending && first.step == 1
            && second.status == Done && second.ctx == map[]
            && Interpret(LOSSY, Some(1), 0, map[], [], [Outside(Flaky(true), 7), Outside(Flaky(true), 7)]).ending == Finished(KEPT)
  {
    LossySteps(false);
    LossySteps(true);
    var bad, good := Runner(LOSSY, Some(1), Flaky(false)), Runner(LOSSY, Some(1), Flaky(true));
    var at1 := row.(step := 1, attempts := 0);
    assert Loop(bad, 2, at1, KEPT, 7, now).row.step == 1;
    var first := Execute(Some(LOSSY), row, row.ctx, 7, Flaky(false), now).row;
    assert first == Loop(bad, 2, at1, KEPT, 7, now).row;
    var again := first.(status := Processing);
    assert Loop(good, 2, again.(step := 2, attempts := 0), map[], 7, now).row.status == Done;
    var outside := [Outside(Flaky(true), 7)];
    assert [Outside(Flaky(true), 7), Outside(Flaky(true), 7)][1..] == outside && outside[1..] == [];
    assert Interpret(LOSSY, Some(1), 2, KEPT, [], []).ending == Finished(KEPT);
    assert Interpret(LOSSY, Some(1), 1, KEPT, [], outside).ending == Finished(KEPT);
  }
}
