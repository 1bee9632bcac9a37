/**
 The webhook outbox: deliveries leased to a pool of workers. Reading the clock, the SELECT, the guarded
 UPDATE, the POST and the mark are separate steps of each worker, and a worker may crash between any two.
 */
module Outbox {
  import opened Common

  const CLAIM_LEASE_SECONDS := 30
  const MAX_ATTEMPTS := 3

  datatype Status = Pending | Delivered | Failed

  datatype Delivery = Delivery(status: Status, attempts: nat, due: int)

  /** How an attempt ends. Without a hook or a valid request nothing is posted. */
  datatype Verdict = Accepted | Refused | NoRequest | NoHook

  function Backoff(attempts: nat): (seconds: nat)
    ensures seconds > 0
  {
    if attempts == 0 then 1 else 2 * Backoff(attempts - 1)
  }

  predicate IsDue(d: Delivery, now: int) { d.status == Pending && d.due <= now }

  function Leased(d: Delivery, at: int): Delivery
  {
    d.(attempts := d.attempts + 1, due := at + CLAIM_LEASE_SECONDS)
  }

  /** MarkDelivered and MarkFailed: they address the row by id and check nothing. */
  function Marked(d: Delivery, verdict: Verdict, attempts: nat, now: int): Delivery
  {
    match verdict
    case Accepted => d.(status := Delivered)
    case NoHook => d.(status := Failed, due := now)
    case _ => d.(status := if attempts >= MAX_ATTEMPTS then Failed else Pending, due := now + Backoff(attempts))
  }

  // ---------------------------------------------------------------- the actors

  datatype Worker =
    | Idle
    | Clocked(at: int)
    | Picked(at: int, id: int, attempts: nat)
    | Holding(at: int, id: int, attempts: nat, posted: bool)

  /** Marks are logged with the counter they carry and whether their lease had run out. */
  datatype Event =
    | Posted(id: int)
    | Crashed(id: int)
    | Retried(id: int, attempt: nat, late: bool)
    | Ended(id: int, late: bool)
    | Leasing(id: int)

  datatype World = World(now: int, rows: map<int, Delivery>, workers: map<int, Worker>, trace: seq<Event>)

  datatype Label =
    | Tick(seconds: nat)
    | Enqueue(id: int)
    | ReadClock(w: int)
    | Select(w: int)
    | Update(w: int)
    | Post(w: int)
    | Finish(w: int, verdict: Verdict)
    | Crash(w: int)

  function WorkerAt(s: World, w: int): Worker { if w in s.workers then s.workers[w] else Idle }

  ghost predicate IsFirstDue(rows: map<int, Delivery>, id: int, at: int)
  {
    id in rows && IsDue(rows[id], at) && forall j :: j in rows && IsDue(rows[j], at) ==> id <= j
  }

  ghost predicate Enabled(s: World, l: Label)
  {
    match l
    case Tick(_) => true
    case Enqueue(id) => id !in s.rows
    case ReadClock(w) => WorkerAt(s, w).Idle?
    case Select(w) => WorkerAt(s, w).Clocked?
    case Update(w) => WorkerAt(s, w).Picked?
    case Post(w) => WorkerAt(s, w).Holding? && !WorkerAt(s, w).posted
    case Finish(w, verdict) => WorkerAt(s, w).Holding? && (WorkerAt(s, w).posted <==> verdict.Accepted? || verdict.Refused?)
    case Crash(w) => true
  }

  ghost function Apply(s: World, l: Label): World
    requires Enabled(s, l)
  {
    match l
    case Tick(seconds) => s.(now := s.now + seconds)
    case Enqueue(id) => s.(rows := s.rows[id := Delivery(Pending, 0, s.now)])
    case ReadClock(w) => s.(workers := s.workers[w := Clocked(s.now)])
    case Select(w) =>
      var at := WorkerAt(s, w).at;
      if exists id :: IsFirstDue(s.rows, id, at) then
        var id :| IsFirstDue(s.rows, id, at);
        s.(workers := s.workers[w := Picked(at, id, s.rows[id].attempts)])
      else s.(workers := s.workers[w := Idle])
    case Update(w) => ApplyUpdate(s, w)
    case Post(w) =>
      var held := WorkerAt(s, w);
      s.(workers := s.workers[w := held.(posted := true)], trace := s.trace + [Posted(held.id)])
    case Finish(w, verdict) => ApplyFinish(s, w, verdict)
    case Crash(w) =>
      var held := WorkerAt(s, w);
      s.(workers := s.workers[w := Idle], trace := if held.Holding? then s.trace + [Crashed(held.id)] else s.trace)
  }

  function ApplyUpdate(s: World, w: int): World
    requires WorkerAt(s, w).Picked?
  {
    var Picked(at, id, attempts) := WorkerAt(s, w);
    if id in s.rows && IsDue(s.rows[id], at) then
      s.(rows := s.rows[id := Leased(s.rows[id], at)],
         workers := s.workers[w := Holding(at, id, attempts + 1, false)],
         trace := s.trace + [Leasing(id)])
    else s.(workers := s.workers[w := Idle])
  }

  function ApplyFinish(s: World, w: int, verdict: Verdict): World
    requires WorkerAt(s, w).Holding?
  {
    var Holding(at, id, attempts, posted) := WorkerAt(s, w);
    if id !in s.rows then s.(workers := s.workers[w := Idle])
    else
      var row, late := Marked(s.rows[id], verdict, attempts, s.now), s.now >= at + CLAIM_LEASE_SECONDS;
      s.(rows := s.rows[id := row],
         workers := s.workers[w := Idle],
         trace := s.trace + [if row.status == Pending then Retried(id, attempts, late) else Ended(id, late)])
  }

  ghost predicate Valid(s: World, ls: seq<Label>)
    decreases ls
  {
    ls == [] || (Enabled(s, ls[0]) && Valid(Apply(s, ls[0]), ls[1..]))
  }

  ghost function Run(s: World, ls: seq<Label>): World
    requires Valid(s, ls)
    decreases ls
  {
    if ls == [] then s else Run(Apply(s, ls[0]), ls[1..])
  }

  function Start(now: int): World { World(now, map[], map[], []) }

  // ---------------------------------------------------------------- leases

  predicate Holds(s: World, w: int, id: int)
  {
    WorkerAt(s, w).Holding? && WorkerAt(s, w).id == id
  }

  /** Worker `w` holds a lease on `id` that has not run out. */
  predicate Leases(s: World, w: int, id: int)
  {
    Holds(s, w, id) && s.now < WorkerAt(s, w).at + CLAIM_LEASE_SECONDS
  }

  /** An UPDATE runs less than one lease after its clock reading. */
  ghost predicate UpdateInTime(s: World, l: Label)
  {
    l.Update? && WorkerAt(s, l.w).Picked? ==> s.now < WorkerAt(s, l.w).at + CLAIM_LEASE_SECONDS
  }

  /** An attempt that marks its row does so before its lease runs out; otherwise it counts as crashed. */
  ghost predicate MarkInTime(s: World, l: Label)
  {
    l.Finish? && WorkerAt(s, l.w).Holding? ==> s.now < WorkerAt(s, l.w).at + CLAIM_LEASE_SECONDS
  }

  ghost predicate InTime(s: World, l: Label) { UpdateInTime(s, l) && MarkInTime(s, l) }

  ghost predicate AllInTime(s: World, ls: seq<Label>)
    decreases ls
  {
    ls == [] || (Enabled(s, ls[0]) && InTime(s, ls[0]) && AllInTime(Apply(s, ls[0]), ls[1..]))
  }

  /** An unexpired lease is the row's own, and carries the row's attempt counter. */
  predicate LeaseBacked(s: World, held: Worker)
  {
    held.Holding? && held.id in s.rows && s.rows[held.id].status == Pending && s.rows[held.id].due == held.at + CLAIM_LEASE_SECONDS
    && s.rows[held.id].attempts == held.attempts
  }

  predicate WorkerOk(s: World, worker: Worker)
  {
    match worker
    case Idle => true
    case Clocked(at) => at <= s.now
    case Picked(at, id, attempts) =>
      at <= s.now && id in s.rows
      && (s.now < at + CLAIM_LEASE_SECONDS && IsDue(s.rows[id], at) ==> s.rows[id].attempts == attempts)
    case Holding(at, id, attempts, _) =>
      at <= s.now && id in s.rows && (s.now < at + CLAIM_LEASE_SECONDS ==> LeaseBacked(s, worker))
  }

  ghost predicate LeaseInv(s: World)
  {
    (forall w :: WorkerOk(s, WorkerAt(s, w)))
    && (forall w, v, id :: Leases(s, w, id) && Leases(s, v, id) ==> w == v)
  }

  /** The guarded UPDATE of worker `w`, if it wins, leaves no row that looks due to a later clock reading still in use. */
  ghost predicate HarmlessUpdate(s: World, w: int)
  {
    WorkerAt(s, w).Picked? ==>
      var Picked(at, id, _) := WorkerAt(s, w);
      id in s.rows && IsDue(s.rows[id], at) ==>
        forall v :: v != w && PicksFreshly(s, v, id) ==> WorkerAt(s, v).at < at + CLAIM_LEASE_SECONDS
  }

  /** Worker `v` has picked `id` at a clock reading less than one lease old. */
  predicate PicksFreshly(s: World, v: int, id: int)
  {
    WorkerAt(s, v).Picked? && WorkerAt(s, v).id == id && s.now < WorkerAt(s, v).at + CLAIM_LEASE_SECONDS
  }

  lemma UpdateKeepsLeases(s: World, w: int)
    requires LeaseInv(s) && Enabled(s, Update(w)) && HarmlessUpdate(s, w)
    ensures LeaseInv(ApplyUpdate(s, w))
  {
    var s' := ApplyUpdate(s, w);
    var Picked(at, id, attempts) := WorkerAt(s, w);
    assert WorkerOk(s, WorkerAt(s, w));
    forall v ensures WorkerOk(s', WorkerAt(s', v)) {
      assert WorkerOk(s, WorkerAt(s, v));
      assert v != w && IsDue(s.rows[id], at) && PicksFreshly(s, v, id) ==> WorkerAt(s, v).at < at + CLAIM_LEASE_SECONDS;
    }
    forall v, u | Leases(s', v, u) && v != w ensures Leases(s, v, u) && (s' != s && u == id ==> !Leases(s', w, id)) {
      assert WorkerOk(s, WorkerAt(s, v));
    }
  }

  /**
   The exact condition for a late UPDATE: the leases stay exclusive and fresh if and only if no other worker has picked the
   row at a reading that is still good and by which the new lease would have run out.
   */
  lemma UpdateKeepsLeasesIff(s: World, w: int)
    requires LeaseInv(s) && Enabled(s, Update(w))
    ensures LeaseInv(ApplyUpdate(s, w)) <==> HarmlessUpdate(s, w)
  {
    var s' := ApplyUpdate(s, w);
    var Picked(at, id, _) := WorkerAt(s, w);
    if HarmlessUpdate(s, w) {
      UpdateKeepsLeases(s, w);
    } else {
      var v :| v != w && PicksFreshly(s, v, id) && WorkerAt(s, v).at >= at + CLAIM_LEASE_SECONDS;
      assert WorkerOk(s, WorkerAt(s, v));
      assert !WorkerOk(s', WorkerAt(s', v));
    }
  }

  /** The mark of worker `w` leaves the status and due time of a row that another worker has an unexpired lease on. */
  ghost predicate HarmlessMark(s: World, w: int, verdict: Verdict)
  {
    WorkerAt(s, w).Holding? ==>
      var Holding(_, id, attempts, _) := WorkerAt(s, w);
      id in s.rows ==>
        forall v :: v != w && Leases(s, v, id) ==>
          var row := Marked(s.rows[id], verdict, attempts, s.now);
          row.status == Pending && row.due == s.rows[id].due
  }

  lemma FinishKeepsLeases(s: World, w: int, verdict: Verdict)
    requires LeaseInv(s) && Enabled(s, Finish(w, verdict)) && HarmlessMark(s, w, verdict)
    ensures LeaseInv(ApplyFinish(s, w, verdict))
  {
    var s' := ApplyFinish(s, w, verdict);
    var held := WorkerAt(s, w);
    assert WorkerOk(s, held);
    forall v ensures WorkerOk(s', WorkerAt(s', v)) {
      assert WorkerOk(s, WorkerAt(s, v));
      if v != w && WorkerAt(s, v).Holding? && WorkerAt(s, v).id == held.id && Leases(s, v, held.id) {
        assert LeaseBacked(s, WorkerAt(s, v));
      }
    }
    forall v, u | Leases(s', v, u) ensures Leases(s, v, u) { }
  }

  /**
   The exact condition for a late mark: the leases stay exclusive and fresh if and only if the row it writes is not leased to
   another worker, or the write happens to leave that worker's status and due time in place.
   */
  lemma FinishKeepsLeasesIff(s: World, w: int, verdict: Verdict)
    requires LeaseInv(s) && Enabled(s, Finish(w, verdict))
    ensures LeaseInv(ApplyFinish(s, w, verdict)) <==> HarmlessMark(s, w, verdict)
  {
    var s' := ApplyFinish(s, w, verdict);
    var id := WorkerAt(s, w).id;
    if HarmlessMark(s, w, verdict) {
      FinishKeepsLeases(s, w, verdict);
    } else {
      var v :| v != w && Leases(s, v, id) && !(s'.rows[id].status == Pending && s'.rows[id].due == s.rows[id].due);
      assert WorkerOk(s, WorkerAt(s, v));
      assert !WorkerOk(s', WorkerAt(s', v));
    }
  }

  /**
   The exact condition for a mark on an ended row, which only a worker past its lease can make: the row keeps its end if and
   only if it was accepted once more, or given up once more.
   */
  lemma LateMarkKeepsEndIff(s: World, w: int, verdict: Verdict)
    requires LeaseInv(s) && Enabled(s, Finish(w, verdict))
    requires WorkerAt(s, w).id in s.rows && s.rows[WorkerAt(s, w).id].status != Pending
    ensures !Leases(s, w, WorkerAt(s, w).id)
    ensures var held := WorkerAt(s, w);
            var before, after := s.rows[held.id].status, ApplyFinish(s, w, verdict).rows[held.id].status;
            after == before <==> if verdict.Accepted? then before == Delivered
                                 else before == Failed && (verdict.NoHook? || held.attempts >= MAX_ATTEMPTS)
  {
    assert WorkerOk(s, WorkerAt(s, w));
  }

  lemma InTimeIsHarmless(s: World, l: Label)
    requires LeaseInv(s) && Enabled(s, l) && InTime(s, l)
    ensures l.Update? ==> HarmlessUpdate(s, l.w)
    ensures l.Finish? ==> HarmlessMark(s, l.w, l.verdict)
  {
    if l.Update? {
      forall v ensures PicksFreshly(s, v, WorkerAt(s, l.w).id) ==> WorkerAt(s, v).at <= s.now {
        assert WorkerOk(s, WorkerAt(s, v));
      }
    } else if l.Finish? {
      assert Leases(s, l.w, WorkerAt(s, l.w).id);
    }
  }

  lemma OtherKeepsLeases(s: World, l: Label)
    requires LeaseInv(s) && Enabled(s, l) && !l.Update? && !l.Finish?
    ensures LeaseInv(Apply(s, l))
  {
    var s' := Apply(s, l);
    forall v ensures WorkerOk(s', WorkerAt(s', v)) {
      assert WorkerOk(s, WorkerAt(s, v));
    }
    forall v, u | Leases(s', v, u) ensures Leases(s, v, u) { }
  }

  lemma StepKeepsLeases(s: World, l: Label)
    requires LeaseInv(s) && Enabled(s, l) && InTime(s, l)
    ensures LeaseInv(Apply(s, l))
  {
    InTimeIsHarmless(s, l);
    match l {
      case Update(w) => UpdateKeepsLeases(s, w);
      case Finish(w, verdict) => FinishKeepsLeases(s, w, verdict);
      case _ => OtherKeepsLeases(s, l);
    }
  }

  /** Every UPDATE and every mark of the run meets its exact condition. */
  ghost predicate Harmless(s: World, l: Label)
  {
    (l.Update? ==> HarmlessUpdate(s, l.w)) && (l.Finish? ==> HarmlessMark(s, l.w, l.verdict))
  }

  ghost predicate AllHarmless(s: World, ls: seq<Label>)
    decreases ls
  {
    ls == [] || (Enabled(s, ls[0]) && Harmless(s, ls[0]) && AllHarmless(Apply(s, ls[0]), ls[1..]))
  }

  lemma {:induction false} RunKeepsLeases(s: World, ls: seq<Label>)
    requires LeaseInv(s) && Valid(s, ls) && AllHarmless(s, ls)
    ensures LeaseInv(Run(s, ls))
    decreases ls
  {
    if ls != [] {
      match ls[0] {
        case Update(w) => UpdateKeepsLeases(s, w);
        case Finish(w, verdict) => FinishKeepsLeases(s, w, verdict);
        case _ => OtherKeepsLeases(s, ls[0]);
      }
      RunKeepsLeases(Apply(s, ls[0]), ls[1..]);
    }
  }

  /** MAIN RESULT. At most one worker holds an unexpired lease on a delivery, and its counter is the stored one. */
  lemma LeasesAreExclusiveAndFresh(now: int, ls: seq<Label>, w: int, v: int, id: int)
    requires Valid(Start(now), ls) && AllHarmless(Start(now), ls)
    requires Leases(Run(Start(now), ls), w, id) && Leases(Run(Start(now), ls), v, id)
    ensures var s := Run(Start(now), ls);
            w == v && id in s.rows && s.rows[id].status == Pending && WorkerAt(s, w).attempts == s.rows[id].attempts
  {
    RunKeepsLeases(Start(now), ls);
    assert WorkerOk(Run(Start(now), ls), WorkerAt(Run(Start(now), ls), w));
  }

  /** In particular when every UPDATE and every mark comes in time. */
  lemma {:induction false} TimelyRunsAreHarmless(s: World, ls: seq<Label>)
    requires LeaseInv(s) && Valid(s, ls) && AllInTime(s, ls)
    ensures AllHarmless(s, ls)
    decreases ls
  {
    if ls != [] {
      InTimeIsHarmless(s, ls[0]);
      StepKeepsLeases(s, ls[0]);
      TimelyRunsAreHarmless(Apply(s, ls[0]), ls[1..]);
    }
  }

  /** Every UPDATE of the run comes in time, when that is asked for; marks may be late. */
  ghost predicate Prompt(s: World, ls: seq<Label>, prompt: bool)
    decreases ls
  {
    ls == [] || (Enabled(s, ls[0]) && (prompt ==> UpdateInTime(s, ls[0])) && Prompt(Apply(s, ls[0]), ls[1..], prompt))
  }

  // ---------------------------------------------------------------- ends

  lemma StepKeepsFinal(s: World, l: Label, id: int)
    requires LeaseInv(s) && Enabled(s, l) && InTime(s, l) && id in s.rows && s.rows[id].status != Pending
    ensures id in Apply(s, l).rows && Apply(s, l).rows[id] == s.rows[id]
  {
    if l.Finish? {
      assert WorkerOk(s, WorkerAt(s, l.w));
    }
  }

  /** MAIN RESULT. Once delivered or failed, a row never changes again, as long as no worker marks past its lease. */
  lemma {:induction false} FinalRowsStay(s: World, ls: seq<Label>, id: int)
    requires LeaseInv(s) && Valid(s, ls) && AllInTime(s, ls) && id in s.rows && s.rows[id].status != Pending
    ensures id in Run(s, ls).rows && Run(s, ls).rows[id] == s.rows[id]
    decreases ls
  {
    if ls != [] {
      StepKeepsFinal(s, ls[0], id);
      StepKeepsLeases(s, ls[0]);
      FinalRowsStay(Apply(s, ls[0]), ls[1..], id);
    }
  }

  /** A row leaves pending only through the mark of a worker that posted, found no request, or found no hook. */
  lemma OnlyMarksEndRows(s: World, l: Label, id: int)
    requires Enabled(s, l) && id in s.rows && s.rows[id].status == Pending && Apply(s, l).rows[id].status != Pending
    ensures l.Finish? && Holds(s, l.w, id)
    ensures Apply(s, l).rows[id].status == Delivered <==> l.verdict == Accepted
    ensures l.verdict == Refused || l.verdict == NoRequest ==> WorkerAt(s, l.w).attempts >= MAX_ATTEMPTS
  {
  }

  // ---------------------------------------------------------------- why the timing conditions are there

  /** Reachable with late marks allowed and, unless `prompt`, late UPDATEs too. */
  ghost predicate Reachable(s: World, prompt: bool)
  {
    exists ls :: Valid(Start(0), ls) && Prompt(Start(0), ls, prompt) && Run(Start(0), ls) == s
  }

  lemma {:induction false} RunSnoc(s: World, ls: seq<Label>, l: Label, prompt: bool)
    requires Valid(s, ls) && Prompt(s, ls, prompt) && Enabled(Run(s, ls), l)
    requires prompt ==> UpdateInTime(Run(s, ls), l)
    ensures Valid(s, ls + [l]) && Prompt(s, ls + [l], prompt) && Run(s, ls + [l]) == Apply(Run(s, ls), l)
    decreases ls
  {
    if ls == [] {
      assert ls + [l] == [l] && [l][1..] == [];
    } else {
      RunSnoc(Apply(s, ls[0]), ls[1..], l, prompt);
      assert (ls + [l])[1..] == ls[1..] + [l];
    }
  }

  lemma Reach(s: World, l: Label, prompt: bool := true)
    requires Reachable(s, prompt) && Enabled(s, l) && (prompt ==> UpdateInTime(s, l))
    ensures Reachable(Apply(s, l), prompt)
  {
    var ls :| Valid(Start(0), ls) && Prompt(Start(0), ls, prompt) && Run(Start(0), ls) == s;
    RunSnoc(Start(0), ls, l, prompt);
  }

  lemma ReachEnqueued(prompt: bool) returns (s: World)
    ensures s == World(0, map[0 := Delivery(Pending, 0, 0)], map[], []) && Reachable(s, prompt)
  {
    assert Valid(Start(0), []) && Prompt(Start(0), [], prompt) && Run(Start(0), []) == Start(0);
    s := Apply(Start(0), Enqueue(0));
    Reach(Start(0), Enqueue(0), prompt);
  }

  /** Idle worker `w` claims and posts the only delivery, without the clock moving. */
  lemma ReachPosted(s: World, w: int) returns (s': World)
    requires Reachable(s, true) && s.rows.Keys == {0} && IsDue(s.rows[0], s.now) && WorkerAt(s, w).Idle?
    ensures Reachable(s', true) && s'.now == s.now && s'.rows == map[0 := Leased(s.rows[0], s.now)]
    ensures s'.workers == s.workers[w := Holding(s.now, 0, s.rows[0].attempts + 1, true)]
  {
    var s1 := Apply(s, ReadClock(w));
    Reach(s, ReadClock(w));
    assert IsFirstDue(s1.rows, 0, s.now);
    var s2 := Apply(s1, Select(w));
    Reach(s1, Select(w));
    assert WorkerAt(s2, w) == Picked(s.now, 0, s.rows[0].attempts);
    var s3 := Apply(s2, Update(w));
    Reach(s2, Update(w));
    s' := Apply(s3, Post(w));
    Reach(s3, Post(w));
  }

  /** Worker 1 holds an expired lease and worker 2 a fresh one on the same delivery, both posted. */
  lemma ReachOverlap() returns (s: World)
    ensures Reachable(s, true) && s.now == 30 && s.rows == map[0 := Delivery(Pending, 2, 60)]
    ensures s.workers == map[1 := Holding(0, 0, 1, true), 2 := Holding(30, 0, 2, true)]
  {
    var s1 := ReachEnqueued(true);
    var s2 := ReachPosted(s1, 1);
    var s3 := Apply(s2, Tick(30));
    Reach(s2, Tick(30));
    s := ReachPosted(s3, 2);
  }

  /** A late failed mark makes the row due again inside another worker's lease: two unexpired leases at once. */
  lemma LateMarkBreaksExclusivity()
    ensures exists s :: Reachable(s, true) && Leases(s, 2, 0) && Leases(s, 3, 0)
  {
    var s1 := ReachOverlap();
    var s2 := Apply(s1, Finish(1, Refused));
    Reach(s1, Finish(1, Refused));
    assert Backoff(1) == 2 && s2.rows == map[0 := Delivery(Pending, 2, 32)];
    var s3 := Apply(s2, Tick(2));
    Reach(s2, Tick(2));
    var s4 := ReachPosted(s3, 3);
    assert Leases(s4, 2, 0) && Leases(s4, 3, 0);
  }

  /** A late failed mark takes a delivered row back to pending. */
  lemma LateMarkUndoesDelivery()
    ensures exists s, l :: Reachable(s, true) && Enabled(s, l) && UpdateInTime(s, l)
              && 0 in s.rows && s.rows[0].status == Delivered
              && 0 in Apply(s, l).rows && Apply(s, l).rows[0].status == Pending
  {
    var s1 := ReachOverlap();
    var s2 := Apply(s1, Finish(2, Accepted));
    Reach(s1, Finish(2, Accepted));
    var l := Finish(1, Refused);
    assert Enabled(s2, l) && Apply(s2, l).rows[0].status == Pending;
  }

  lemma ReachPicked(s: World, w: int) returns (s': World)
    requires Reachable(s, false) && s.rows.Keys == {0} && IsDue(s.rows[0], s.now) && WorkerAt(s, w).Idle?
    ensures Reachable(s', false) && s' == s.(workers := s.workers[w := Picked(s.now, 0, s.rows[0].attempts)])
  {
    var s1 := Apply(s, ReadClock(w));
    Reach(s, ReadClock(w), false);
    assert IsFirstDue(s1.rows, 0, s.now);
    s' := Apply(s1, Select(w));
    Reach(s1, Select(w), false);
  }

  /** A claim whose UPDATE comes a lease too late makes another worker's fresh lease carry an old counter. */
  lemma LateUpdateBreaksFreshness()
    ensures exists s :: Reachable(s, false) && Leases(s, 2, 0) && 0 in s.rows && WorkerAt(s, 2).attempts != s.rows[0].attempts
  {
    var s0 := ReachEnqueued(false);
    var s1 := ReachPicked(s0, 1);
    var s2 := Apply(s1, Tick(40));
    Reach(s1, Tick(40), false);
    var s3 := ReachPicked(s2, 2);
    var s4 := Apply(s3, Update(1));
    Reach(s3, Update(1), false);
    assert s4.rows == map[0 := Delivery(Pending, 1, 30)] && WorkerAt(s4, 2) == Picked(40, 0, 0);
    var s5 := Apply(s4, Update(2));
    Reach(s4, Update(2), false);
    assert WorkerAt(s5, 2).attempts == 1 && s5.rows[0].attempts == 2;
  }

  // ---------------------------------------------------------------- the dispatcher

  /** `WebhookDeliveryRepo` and `Dispatcher` over one table. */
  class Dispatcher {
    var rows: map<int, Delivery>
    var nextId: int
    var posts: seq<int>

    ghost predicate Ready()
      reads this
    {
      forall id :: id in rows ==> id < nextId
    }

    method EnqueueDelivery(now: int) returns (id: int)
      requires Ready()
      modifies this`rows, this`nextId
      ensures Ready() && id !in old(rows) && rows == old(rows)[id := Delivery(Pending, 0, now)]
    {
      id := nextId;
      rows := rows[id := Delivery(Pending, 0, now)];
      nextId := nextId + 1;
    }

    method SelectDue(at: int) returns (found: Option<int>)
      ensures found.None? ==> forall id :: id in rows ==> !IsDue(rows[id], at)
      ensures found.Some? ==> IsFirstDue(rows, found.value, at)
    {
      if t :| t in rows && IsDue(rows[t], at) {
        var ids := set id | id in rows && IsDue(rows[id], at);
        LeastExists(ids, t);
        var m :| IsLeast(m, ids);
        forall j | j in rows && IsDue(rows[j], at) ensures m <= j {
          assert j in ids;
        }
        found := Some(m);
      } else {
        found := None;
      }
    }

    method GuardedUpdate(id: int, at: int) returns (won: bool)
      modifies this`rows
      ensures won <==> id in old(rows) && IsDue(old(rows)[id], at)
      ensures rows == if won then old(rows)[id := Leased(old(rows)[id], at)] else old(rows)
    {
      won := id in rows && rows[id].status == Pending && rows[id].due <= at;
      if won {
        rows := rows[id := rows[id].(attempts := rows[id].attempts + 1, due := at + CLAIM_LEASE_SECONDS)];
      }
    }

    method MarkDelivered(id: int)
      modifies this`rows
      ensures rows == if id in old(rows) then old(rows)[id := old(rows)[id].(status := Delivered)] else old(rows)
    {
      if id in rows {
        rows := rows[id := rows[id].(status := Delivered)];
      }
    }

    method MarkFailed(id: int, nextRunAt: int, giveUp: bool)
      modifies this`rows
      ensures rows == if id in old(rows)
                      then old(rows)[id := old(rows)[id].(status := if giveUp then Failed else Pending, due := nextRunAt)]
                      else old(rows)
    {
      var status := Pending;
      if giveUp {
        status := Failed;
      }
      if id in rows {
        rows := rows[id := rows[id].(status := status, due := nextRunAt)];
      }
    }

    /** `ClaimNext`, its SELECT and its guarded UPDATE run back to back. */
    method ClaimNext(now: int) returns (claimed: Option<int>, attempts: nat)
      modifies this`rows
      ensures claimed.None? ==> rows == old(rows) && forall id :: id in rows && rows[id].status == Pending ==> rows[id].due > now
      ensures claimed.Some? ==>
                var id := claimed.value;
                && id in old(rows) && old(rows)[id].status == Pending && old(rows)[id].due <= now
                && (forall j :: j in old(rows) && old(rows)[j].status == Pending && old(rows)[j].due <= now ==> id <= j)
                && attempts == old(rows)[id].attempts + 1
                && rows == old(rows)[id := Delivery(Pending, attempts, now + 30)]
    {
      claimed, attempts := None, 0;
      var picked := SelectDue(now);
      if picked.None? {
        return;
      }
      var id := picked.value;
      attempts := rows[id].attempts + 1;
      var won := GuardedUpdate(id, now);
      if !won {
        return;
      }
      claimed := Some(id);
    }

    /** What `ProcessOne` does with a claimed delivery. */
    method Deliver(id: int, attempts: nat, later: int, verdict: Verdict)
      requires id in rows
      modifies this`rows, this`posts
      ensures rows == old(rows)[id := Marked(old(rows)[id], verdict, attempts, later)]
      ensures posts == old(posts) + if verdict.Accepted? || verdict.Refused? then [id] else []
    {
      if verdict.NoHook? {
        MarkFailed(id, later, true);
        return;
      }
      if !verdict.NoRequest? {
        posts := posts + [id];
      }
      if verdict.Accepted? {
        MarkDelivered(id);
        return;
      }
      var giveUp := attempts >= MAX_ATTEMPTS;
      var backoff := Backoff(attempts);
      MarkFailed(id, later + backoff, giveUp);
    }

    /**
     `Dispatcher.ProcessOne` with nobody interfering: claim at `now`, mark at `later`. `answer` is what happens
     to each delivery's request.
     */
    method ProcessOne(now: int, later: int, answer: int -> Verdict) returns (found: bool)
      modifies this`rows, this`posts
      ensures found <==> exists id :: id in old(rows) && old(rows)[id].status == Pending && old(rows)[id].due <= now
      ensures !found ==> rows == old(rows) && posts == old(posts)
      ensures forall id :: IsFirstDue(old(rows), id, now) ==>
                && rows == old(rows)[id := Marked(Leased(old(rows)[id], now), answer(id), old(rows)[id].attempts + 1, later)]
                && posts == old(posts) + if answer(id).Accepted? || answer(id).Refused? then [id] else []
    {
      var claimed, attempts := ClaimNext(now);
      if claimed.None? {
        return false;
      }
      Deliver(claimed.value, attempts, later, answer(claimed.value));
      found := true;
    }
  }

  lemma Prepend(s: World, l: Label, rest: seq<Label>)
    requires Enabled(s, l) && InTime(s, l) && Valid(Apply(s, l), rest) && AllInTime(Apply(s, l), rest)
    ensures Valid(s, [l] + rest) && AllInTime(s, [l] + rest) && Run(s, [l] + rest) == Run(Apply(s, l), rest)
  {
    assert ([l] + rest)[1..] == rest;
  }

  /** ... from the claim to the mark. */
  lemma AttemptIsSteps(s: World, w: int, verdict: Verdict, wait: nat) returns (ls: seq<Label>)
    requires WorkerAt(s, w).Holding? && !WorkerAt(s, w).posted && WorkerAt(s, w).at == s.now
    requires WorkerAt(s, w).id in s.rows && wait < CLAIM_LEASE_SECONDS
    ensures Valid(s, ls) && AllInTime(s, ls)
    ensures var held := WorkerAt(s, w);
            Run(s, ls).rows == s.rows[held.id := Marked(s.rows[held.id], verdict, held.attempts, s.now + wait)]
  {
    var s1 := Apply(s, Tick(wait));
    var s2, posting := s1, verdict.Accepted? || verdict.Refused?;
    if posting {
      s2 := Apply(s1, Post(w));
    }
    var s3 := Apply(s2, Finish(w, verdict));
    assert Valid(s3, []) && AllInTime(s3, []) && Run(s3, []) == s3;
    Prepend(s2, Finish(w, verdict), []);
    ls := [Finish(w, verdict)] + [];
    if posting {
      Prepend(s1, Post(w), ls);
      ls := [Post(w)] + ls;
    }
    Prepend(s, Tick(wait), ls);
    ls := [Tick(wait)] + ls;
  }

  /** The dispatcher's uninterrupted pass is a run of the state machine that leaves the same rows. */
  lemma ProcessOneIsSteps(s: World, w: int, id: int, verdict: Verdict, wait: nat) returns (ls: seq<Label>)
    requires WorkerAt(s, w).Idle? && IsFirstDue(s.rows, id, s.now) && wait < CLAIM_LEASE_SECONDS
    ensures Valid(s, ls) && AllInTime(s, ls)
    ensures Run(s, ls).rows == s.rows[id := Marked(Leased(s.rows[id], s.now), verdict, s.rows[id].attempts + 1, s.now + wait)]
  {
    var s1 := Apply(s, ReadClock(w));
    var s2 := Apply(s1, Select(w));
    assert WorkerAt(s2, w) == Picked(s.now, id, s.rows[id].attempts);
    var s3 := Apply(s2, Update(w));
    ls := AttemptIsSteps(s3, w, verdict, wait);
    Prepend(s2, Update(w), ls);
    ls := [Update(w)] + ls;
    Prepend(s1, Select(w), ls);
    ls := [Select(w)] + ls;
    Prepend(s, ReadClock(w), ls);
    ls := [ReadClock(w)] + ls;
  }
}
