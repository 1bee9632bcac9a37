/** When a refused delivery is tried again, over runs in which anything may be late (internal/webhook/dispatcher.go:106-128). */
module OutboxWaits {
  import opened Common
  import opened Outbox

  /** Workers point at rows that exist, and a lease carries a counter from one up. */
  ghost predicate HandsOk(s: World)
  {
    forall w ::
      && (WorkerAt(s, w).Picked? ==> WorkerAt(s, w).id in s.rows)
      && (WorkerAt(s, w).Holding? ==> WorkerAt(s, w).id in s.rows && WorkerAt(s, w).attempts >= 1)
  }

  lemma StepKeepsHands(s: World, l: Label)
    requires HandsOk(s) && Enabled(s, l)
    ensures HandsOk(Apply(s, l))
  {
    var s' := Apply(s, l);
    forall v ensures WorkerAt(s', v).Picked? ==> WorkerAt(s', v).id in s'.rows
             ensures WorkerAt(s', v).Holding? ==> WorkerAt(s', v).id in s'.rows && WorkerAt(s', v).attempts >= 1
    {
      assert WorkerAt(s, v).Picked? ==> WorkerAt(s, v).id in s.rows;
      assert WorkerAt(s, v).Holding? ==> WorkerAt(s, v).id in s.rows && WorkerAt(s, v).attempts >= 1;
    }
  }

  lemma {:induction false} RunKeepsHands(s: World, ls: seq<Label>)
    requires HandsOk(s) && Valid(s, ls)
    ensures HandsOk(Run(s, ls))
    decreases ls
  {
    if ls != [] {
      StepKeepsHands(s, ls[0]);
      RunKeepsHands(Apply(s, ls[0]), ls[1..]);
    }
  }

  /**
   MAIN RESULT. In every run, a mark writes what its attempt came to: accepted is delivered; refused, or without a valid request,
   it is due again two seconds later after the first attempt, four after the second, and has failed after the third or a later
   one; without a hook it has failed at once. Attempts are counted by leases, not by marks.
   */
  lemma MarksSayWhen(now: int, ls: seq<Label>, w: int, verdict: Verdict)
    requires Valid(Start(now), ls) && Enabled(Run(Start(now), ls), Finish(w, verdict))
    ensures var s := Run(Start(now), ls);
            var held := WorkerAt(s, w);
            && held.attempts >= 1 && held.id in s.rows && held.id in Apply(s, Finish(w, verdict)).rows
            && var before, after := s.rows[held.id], Apply(s, Finish(w, verdict)).rows[held.id];
               && after.attempts == before.attempts
               && (verdict == Accepted ==> after.status == Delivered && after.due == before.due)
               && (verdict == NoHook ==> after.status == Failed)
               && (verdict == Refused || verdict == NoRequest ==>
                     && (held.attempts == 1 ==> after.status == Pending && after.due == s.now + 2)
                     && (held.attempts == 2 ==> after.status == Pending && after.due == s.now + 4)
                     && (held.attempts >= 3 ==> after.status == Failed))
  {
    RunKeepsHands(Start(now), ls);
    var s := Run(Start(now), ls);
    assert WorkerAt(s, w).id in s.rows;
    assert Backoff(1) == 2 && Backoff(2) == 4;
  }

  /** So the wait of a retry is twice that of the one before. */
  lemma WaitsDouble(now: int, ls: seq<Label>, w: int, ls': seq<Label>, w': int)
    requires Valid(Start(now), ls) && Enabled(Run(Start(now), ls), Finish(w, Refused))
    requires Valid(Start(now), ls') && Enabled(Run(Start(now), ls'), Finish(w', Refused))
    requires var s, s' := Run(Start(now), ls), Run(Start(now), ls');
             var held, held' := WorkerAt(s, w), WorkerAt(s', w');
             && held'.attempts == held.attempts + 1
             && held.id in Apply(s, Finish(w, Refused)).rows && Apply(s, Finish(w, Refused)).rows[held.id].status == Pending
             && held'.id in Apply(s', Finish(w', Refused)).rows && Apply(s', Finish(w', Refused)).rows[held'.id].status == Pending
    ensures var s, s' := Run(Start(now), ls), Run(Start(now), ls');
            var first, second := Apply(s, Finish(w, Refused)).rows[WorkerAt(s, w).id].due - s.now,
                                 Apply(s', Finish(w', Refused)).rows[WorkerAt(s', w').id].due - s'.now;
            first > 0 && second == 2 * first
  {
    MarksSayWhen(now, ls, w, Refused);
    MarksSayWhen(now, ls', w', Refused);
  }

  /** A worker's UPDATE wins exactly on a pending row due by its clock reading, and leases it for thirty seconds from then. */
  lemma UpdateLeases(s: World, w: int)
    requires Enabled(s, Update(w))
    ensures var Picked(at, id, attempts) := WorkerAt(s, w);
            var s' := Apply(s, Update(w));
            if id in s.rows && s.rows[id].status == Pending && s.rows[id].due <= at then
              && s'.rows == s.rows[id := Delivery(Pending, s.rows[id].attempts + 1, at + 30)]
              && Holds(s', w, id) && WorkerAt(s', w).at == at && WorkerAt(s', w).attempts == attempts + 1 && !WorkerAt(s', w).posted
            else s'.rows == s.rows && WorkerAt(s', w).Idle?
  {
  }

  // ---------------------------------------------------------------- nobody comes early

  ghost predicate NoMark(s: World, ls: seq<Label>, id: int)
    decreases ls
  {
    ls == [] || (Enabled(s, ls[0]) && !(ls[0].Finish? && Holds(s, ls[0].w, id)) && NoMark(Apply(s, ls[0]), ls[1..], id))
  }

  /** Every lease on `id` is one from `before`, or was taken at a clock reading from `due` on. */
  ghost predicate OnlyLater(before: World, s: World, id: int, due: int)
  {
    && id in s.rows && s.rows[id].due >= due
    && forall w :: Holds(s, w, id) ==>
         (Holds(before, w, id) && WorkerAt(s, w).at == WorkerAt(before, w).at) || WorkerAt(s, w).at >= due
  }

  lemma StepKeepsLater(before: World, s: World, l: Label, id: int, due: int)
    requires OnlyLater(before, s, id, due) && Enabled(s, l) && !(l.Finish? && Holds(s, l.w, id))
    ensures OnlyLater(before, Apply(s, l), id, due)
  {
    var s' := Apply(s, l);
    forall w | Holds(s', w, id)
      ensures (Holds(before, w, id) && WorkerAt(s', w).at == WorkerAt(before, w).at) || WorkerAt(s', w).at >= due
    {
      if Holds(s, w, id) && !(l.Update? && l.w == w) {
        assert WorkerAt(s', w).at == WorkerAt(s, w).at;
      }
    }
  }

  lemma {:induction false} RunKeepsLater(before: World, s: World, ls: seq<Label>, id: int, due: int)
    requires OnlyLater(before, s, id, due) && Valid(s, ls) && NoMark(s, ls, id)
    ensures OnlyLater(before, Run(s, ls), id, due)
    decreases ls
  {
    if ls != [] {
      StepKeepsLater(before, s, ls[0], id, due);
      RunKeepsLater(before, Apply(s, ls[0]), ls[1..], id, due);
    }
  }

  /**
   MAIN RESULT. From any state on, until somebody marks the delivery again, whoever comes to hold it has read the clock no earlier
   than the time at which it was due, however late SELECTs and UPDATEs run.
   */
  lemma NobodyComesEarly(s: World, ls: seq<Label>, id: int, w: int)
    requires id in s.rows && Valid(s, ls) && NoMark(s, ls, id) && Holds(Run(s, ls), w, id)
    ensures (Holds(s, w, id) && WorkerAt(Run(s, ls), w).at == WorkerAt(s, w).at) || WorkerAt(Run(s, ls), w).at >= s.rows[id].due
  {
    RunKeepsLater(s, s, ls, id, s.rows[id].due);
  }
}
