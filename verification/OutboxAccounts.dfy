/**
 The accounts of one delivery over a run in which marks may come late: every lease is retried, crashed, ended or still held; each
 carries a counter of its own, so two marks at most can retry; and only a late mark opens a second way to an end.
 */
module OutboxAccounts {
  import opened Common
  import opened Outbox

  // ---------------------------------------------------------------- the ledger

  /** What a trace says about one delivery; `retried` are the counters that retrying marks carried. */
  datatype Ledger = Ledger(leases: nat, posts: nat, retries: nat, retried: set<nat>, crashes: nat, ends: nat, lates: nat)

  const BLANK := Ledger(0, 0, 0, {}, 0, 0, 0)

  function Book(l: Ledger, id: int, e: Event): Ledger
  {
    if e.id != id then l
    else match e
      case Leasing(_) => l.(leases := l.leases + 1)
      case Posted(_) => l.(posts := l.posts + 1)
      case Retried(_, attempt, late) =>
        l.(retries := l.retries + 1, retried := l.retried + {attempt}, lates := l.lates + if late then 1 else 0)
      case Crashed(_) => l.(crashes := l.crashes + 1)
      case Ended(_, late) => l.(ends := l.ends + 1, lates := l.lates + if late then 1 else 0)
  }

  function LedgerOf(trace: seq<Event>, id: int): Ledger
  {
    if trace == [] then BLANK
    else Book(LedgerOf(trace[..|trace| - 1], id), id, trace[|trace| - 1])
  }

  /** What one step logs. */
  function EventOf(s: World, step: Label): Option<Event>
  {
    match step
    case Update(w) =>
      var worker := WorkerAt(s, w);
      if worker.Picked? && worker.id in s.rows && IsDue(s.rows[worker.id], worker.at) then Some(Leasing(worker.id)) else None
    case Post(w) => if WorkerAt(s, w).Holding? then Some(Posted(WorkerAt(s, w).id)) else None
    case Finish(w, verdict) => MarkEvent(s, WorkerAt(s, w), verdict)
    case Crash(w) => if WorkerAt(s, w).Holding? then Some(Crashed(WorkerAt(s, w).id)) else None
    case _ => None
  }

  function MarkEvent(s: World, held: Worker, verdict: Verdict): Option<Event>
  {
    if !held.Holding? || held.id !in s.rows then None
    else
      var late := s.now >= held.at + CLAIM_LEASE_SECONDS;
      Some(if Marked(s.rows[held.id], verdict, held.attempts, s.now).status == Pending
           then Retried(held.id, held.attempts, late) else Ended(held.id, late))
  }

  function Booked(l: Ledger, id: int, e: Option<Event>): Ledger
  {
    if e.None? then l else Book(l, id, e.value)
  }

  lemma LedgerGrows(s: World, step: Label, id: int)
    requires Enabled(s, step)
    ensures LedgerOf(Apply(s, step).trace, id) == Booked(LedgerOf(s.trace, id), id, EventOf(s, step))
  {
    var e := EventOf(s, step);
    if e.Some? {
      assert Apply(s, step).trace == s.trace + [e.value];
      assert (s.trace + [e.value])[..|s.trace|] == s.trace;
    } else {
      assert Apply(s, step).trace == s.trace;
    }
  }

  // ---------------------------------------------------------------- leases

  function HoldsId(id: int): Worker -> bool { (w: Worker) => w.Holding? && w.id == id }
  function Unposted(id: int): Worker -> bool { (w: Worker) => w.Holding? && w.id == id && !w.posted }

  ghost function Holders(s: World, id: int): nat { |Where(s.workers, HoldsId(id))| }
  ghost function Waiting(s: World, id: int): nat { |Where(s.workers, Unposted(id))| }

  /** Every lease is accounted for: retried, crashed, ended or still held; and each is posted at most once. */
  ghost predicate CountInv(s: World, id: int, l: Ledger)
  {
    if id in s.rows then
      && s.rows[id].attempts == l.leases
      && l.leases == l.retries + l.crashes + l.ends + Holders(s, id)
      && l.posts + Waiting(s, id) <= l.leases
    else
      l == BLANK && Holders(s, id) == 0 && Waiting(s, id) == 0
  }

  lemma HolderCounts(s: World, w: int, id: int)
    ensures Holds(s, w, id) ==> Holders(s, id) >= 1
  {
    if Holds(s, w, id) {
      assert Where(s.workers, HoldsId(id)) - {w} + {w} == Where(s.workers, HoldsId(id));
    }
  }

  lemma WorkerUpdate(s: World, s': World, w: int, worker: Worker, id: int)
    requires s'.workers == s.workers[w := worker]
    ensures Holders(s', id) == Holders(s, id) + (if worker.Holding? && worker.id == id then 1 else 0) - (if Holds(s, w, id) then 1 else 0)
    ensures Waiting(s', id) == Waiting(s, id) + (if worker.Holding? && worker.id == id && !worker.posted then 1 else 0)
                               - (if Holds(s, w, id) && !WorkerAt(s, w).posted then 1 else 0)
    ensures Holds(s, w, id) ==> Holders(s, id) >= 1
  {
    WhereUpdate(s.workers, HoldsId(id), w, worker);
    WhereUpdate(s.workers, Unposted(id), w, worker);
    if Holds(s, w, id) { HolderCounts(s, w, id); }
  }

  lemma UpdateKeepsCount(s: World, w: int, id: int, l: Ledger)
    requires CountInv(s, id, l) && Enabled(s, Update(w))
    ensures CountInv(ApplyUpdate(s, w), id, Booked(l, id, EventOf(s, Update(w))))
  {
    var s' := ApplyUpdate(s, w);
    WorkerUpdate(s, s', w, s'.workers[w], id);
  }

  lemma FinishKeepsCount(s: World, w: int, verdict: Verdict, id: int, l: Ledger)
    requires CountInv(s, id, l) && Enabled(s, Finish(w, verdict)) && WorkerAt(s, w).id in s.rows
    ensures CountInv(ApplyFinish(s, w, verdict), id, Booked(l, id, EventOf(s, Finish(w, verdict))))
  {
    WorkerUpdate(s, ApplyFinish(s, w, verdict), w, Idle, id);
  }

  lemma WorkerKeepsCount(s: World, step: Label, id: int, l: Ledger)
    requires CountInv(s, id, l) && Enabled(s, step) && (step.ReadClock? || step.Select? || step.Post? || step.Crash?)
    ensures CountInv(Apply(s, step), id, Booked(l, id, EventOf(s, step)))
  {
    var s' := Apply(s, step);
    WorkerUpdate(s, s', step.w, s'.workers[step.w], id);
  }

  lemma StepKeepsCount(s: World, step: Label, id: int, l: Ledger)
    requires PickInv(s) && CountInv(s, id, l) && Enabled(s, step)
    ensures CountInv(Apply(s, step), id, Booked(l, id, EventOf(s, step)))
  {
    match step {
      case Update(w) => UpdateKeepsCount(s, w, id, l);
      case Finish(w, verdict) =>
        assert PickOk(s, WorkerAt(s, w));
        FinishKeepsCount(s, w, verdict, id, l);
      case Tick(_) =>
      case Enqueue(_) =>
      case _ => WorkerKeepsCount(s, step, id, l);
    }
  }

  // ---------------------------------------------------------------- counters

  /** What late marks cannot disturb: a snapshot that the guarded UPDATE would still accept is the row's. */
  predicate PickOk(s: World, worker: Worker)
  {
    match worker
    case Idle => true
    case Clocked(at) => at <= s.now
    case Picked(at, id, attempts) =>
      at <= s.now && id in s.rows
      && (s.now < at + CLAIM_LEASE_SECONDS && IsDue(s.rows[id], at) ==> s.rows[id].attempts == attempts)
    case Holding(at, id, attempts, _) => at <= s.now && id in s.rows
  }

  ghost predicate PickInv(s: World) { forall w :: PickOk(s, WorkerAt(s, w)) }

  lemma StepKeepsPicks(s: World, step: Label)
    requires PickInv(s) && Enabled(s, step) && UpdateInTime(s, step)
    ensures PickInv(Apply(s, step))
  {
    var s' := Apply(s, step);
    forall v ensures PickOk(s', WorkerAt(s', v)) {
      assert PickOk(s, WorkerAt(s, v));
      if step.Update? || step.Finish? {
        assert PickOk(s, WorkerAt(s, step.w));
      }
    }
  }

  /** The highest counter handed out so far. */
  function Top(s: World, id: int): nat { if id in s.rows then s.rows[id].attempts else 0 }

  /** Each retrying mark carried a counter of its own, below the limit. */
  predicate RetriesOk(l: Ledger, top: nat)
  {
    l.retries == |l.retried| && forall x :: x in l.retried ==> 1 <= x < MAX_ATTEMPTS && x <= top
  }

  /** Each lease on `id` carries a counter of its own that no mark has used. */
  ghost predicate HoldersOk(s: World, id: int, used: set<nat>, top: nat)
  {
    && (forall v :: Holds(s, v, id) ==> 1 <= WorkerAt(s, v).attempts <= top && WorkerAt(s, v).attempts !in used)
    && (forall v, u :: Holds(s, v, id) && Holds(s, u, id) && WorkerAt(s, v).attempts == WorkerAt(s, u).attempts ==> v == u)
  }

  ghost predicate OrdInv(s: World, id: int, l: Ledger)
  {
    RetriesOk(l, Top(s, id)) && HoldersOk(s, id, l.retried, Top(s, id))
  }

  /** The holders of `id` in `s'` are some of those in `s`, with the same counters. */
  ghost predicate FewerHolders(s: World, s': World, id: int)
  {
    forall v :: Holds(s', v, id) ==> Holds(s, v, id) && WorkerAt(s', v).attempts == WorkerAt(s, v).attempts
  }

  lemma FewerKeepsHolders(s: World, s': World, id: int, used: set<nat>, top: nat)
    requires HoldersOk(s, id, used, top) && FewerHolders(s, s', id)
    ensures HoldersOk(s', id, used, top)
  {
  }

  /** A winning UPDATE hands out the next counter. */
  lemma WinKeepsHolders(s: World, w: int, used: set<nat>, top: nat)
    requires WorkerAt(s, w).Picked? && PickOk(s, WorkerAt(s, w)) && UpdateInTime(s, Update(w))
    requires IsDue(s.rows[WorkerAt(s, w).id], WorkerAt(s, w).at) && s.rows[WorkerAt(s, w).id].attempts == top
    requires HoldersOk(s, WorkerAt(s, w).id, used, top) && forall x :: x in used ==> x <= top
    ensures HoldersOk(ApplyUpdate(s, w), WorkerAt(s, w).id, used, top + 1)
  {
    var id, s' := WorkerAt(s, w).id, ApplyUpdate(s, w);
    forall v | v != w && Holds(s', v, id) ensures Holds(s, v, id) && WorkerAt(s', v) == WorkerAt(s, v) { }
    assert WorkerAt(s', w).attempts == top + 1;
  }

  lemma UpdateKeepsOrd(s: World, w: int, id: int, l: Ledger)
    requires PickInv(s) && OrdInv(s, id, l) && Enabled(s, Update(w)) && UpdateInTime(s, Update(w))
    ensures OrdInv(ApplyUpdate(s, w), id, Booked(l, id, EventOf(s, Update(w))))
  {
    assert PickOk(s, WorkerAt(s, w));
    if WorkerAt(s, w).id == id && IsDue(s.rows[id], WorkerAt(s, w).at) {
      WinKeepsHolders(s, w, l.retried, Top(s, id));
    } else {
      FewerKeepsHolders(s, ApplyUpdate(s, w), id, l.retried, Top(s, id));
    }
  }

  /** A mark takes its counter out of the holders' hands, into the retried ones if it retries. */
  lemma OwnFinishKeepsOrd(s: World, w: int, verdict: Verdict, l: Ledger)
    requires WorkerAt(s, w).Holding? && WorkerAt(s, w).id in s.rows && OrdInv(s, WorkerAt(s, w).id, l)
    ensures OrdInv(ApplyFinish(s, w, verdict), WorkerAt(s, w).id,
                   Booked(l, WorkerAt(s, w).id, MarkEvent(s, WorkerAt(s, w), verdict)))
  {
    var held, s' := WorkerAt(s, w), ApplyFinish(s, w, verdict);
    assert Holds(s, w, held.id);
    FewerKeepsHolders(s, s', held.id, l.retried, Top(s, held.id));
    forall v | Holds(s', v, held.id) ensures WorkerAt(s', v).attempts != held.attempts {
      assert v != w && Holds(s, v, held.id);
    }
  }

  lemma FinishKeepsOrd(s: World, w: int, verdict: Verdict, id: int, l: Ledger)
    requires PickInv(s) && OrdInv(s, id, l) && Enabled(s, Finish(w, verdict))
    ensures OrdInv(ApplyFinish(s, w, verdict), id, Booked(l, id, EventOf(s, Finish(w, verdict))))
  {
    assert PickOk(s, WorkerAt(s, w));
    if WorkerAt(s, w).id == id {
      OwnFinishKeepsOrd(s, w, verdict, l);
    } else {
      FewerKeepsHolders(s, ApplyFinish(s, w, verdict), id, l.retried, Top(s, id));
    }
  }

  lemma OtherKeepsHolders(s: World, step: Label, id: int)
    requires Enabled(s, step) && !step.Update? && !step.Finish?
    ensures FewerHolders(s, Apply(s, step), id) && Top(Apply(s, step), id) == Top(s, id)
  {
  }

  lemma OtherKeepsOrd(s: World, step: Label, id: int, l: Ledger)
    requires OrdInv(s, id, l) && Enabled(s, step) && !step.Update? && !step.Finish?
    ensures OrdInv(Apply(s, step), id, Booked(l, id, EventOf(s, step)))
  {
    OtherKeepsHolders(s, step, id);
    FewerKeepsHolders(s, Apply(s, step), id, l.retried, Top(s, id));
  }

  lemma StepKeepsOrd(s: World, step: Label, id: int, l: Ledger)
    requires PickInv(s) && OrdInv(s, id, l) && Enabled(s, step) && UpdateInTime(s, step)
    ensures OrdInv(Apply(s, step), id, Booked(l, id, EventOf(s, step)))
  {
    match step {
      case Update(w) => UpdateKeepsOrd(s, w, id, l);
      case Finish(w, verdict) => FinishKeepsOrd(s, w, verdict, id, l);
      case _ => OtherKeepsOrd(s, step, id, l);
    }
  }

  // ---------------------------------------------------------------- ends

  ghost function Unexpired(s: World, id: int): set<int> { set w | w in s.workers && Leases(s, w, id) }

  predicate Owns(s: World, v: int, id: int)
  {
    id in s.rows && Leases(s, v, id) && s.rows[id].due == WorkerAt(s, v).at + CLAIM_LEASE_SECONDS && s.rows[id].attempts == WorkerAt(s, v).attempts
  }

  /** One more attempt is open: the row is pending, and not waiting out a lease that somebody holds. */
  ghost function Open(s: World, id: int): nat
  {
    if id in s.rows && s.rows[id].status == Pending && !exists v :: Owns(s, v, id) then 1 else 0
  }

  ghost function Lines(s: World, id: int): nat { |Unexpired(s, id)| + Open(s, id) }

  /** A delivery goes one way to its end; only a late mark opens another. */
  ghost predicate LineInv(s: World, id: int, l: Ledger) { l.ends + Lines(s, id) <= 1 + l.lates }

  /** Removing or letting expire the leases of some workers never adds up to more. */
  lemma FewerLeases(s: World, s': World, id: int)
    requires forall v :: Leases(s', v, id) ==> Leases(s, v, id) && WorkerAt(s', v).at == WorkerAt(s, v).at
                                               && WorkerAt(s', v).attempts == WorkerAt(s, v).attempts
    requires id in s.rows && id in s'.rows && s'.rows[id] == s.rows[id]
    ensures Lines(s', id) <= Lines(s, id)
  {
    var before, after := Unexpired(s, id), Unexpired(s', id);
    assert after <= before;
    Smaller(after, before);
    if v :| Owns(s, v, id) && !Leases(s', v, id) {
      assert v in before && v !in after;
      Smaller(after, before - {v});
    } else if v :| Owns(s, v, id) {
      assert Owns(s', v, id);
    }
  }

  lemma Smaller<T>(a: set<T>, b: set<T>)
    ensures a <= b ==> |a| <= |b|
  {
    if a <= b {
      assert b == a + (b - a);
    }
  }

  lemma NoLeaseWithoutRow(s: World, id: int)
    requires PickInv(s) && id !in s.rows
    ensures forall v :: !Leases(s, v, id)
  {
    forall v ensures !Leases(s, v, id) {
      assert PickOk(s, WorkerAt(s, v));
    }
  }

  /** The leases on `id` in `s'` are some of those in `s`, unchanged, and so is its row if there is one. */
  ghost predicate Aside(s: World, s': World, id: int)
  {
    && (forall v :: Leases(s', v, id) ==>
          Leases(s, v, id) && WorkerAt(s', v).at == WorkerAt(s, v).at && WorkerAt(s', v).attempts == WorkerAt(s, v).attempts)
    && (id in s.rows ==> id in s'.rows && s'.rows[id] == s.rows[id])
  }

  lemma AsideKeepsLine(s: World, s': World, id: int, l: Ledger, l': Ledger)
    requires PickInv(s) && Aside(s, s', id) && CountInv(s, id, l) && LineInv(s, id, l)
    requires l'.ends == l.ends && l'.lates == l.lates
    ensures LineInv(s', id, l')
  {
    if id in s.rows {
      FewerLeases(s, s', id);
    } else {
      NoLeaseWithoutRow(s, id);
      assert Unexpired(s', id) == {};
    }
  }

  /** A winning UPDATE takes up the open attempt. */
  lemma WinTakesOpen(s: World, w: int)
    requires WorkerAt(s, w).Picked? && PickOk(s, WorkerAt(s, w)) && UpdateInTime(s, Update(w))
    requires IsDue(s.rows[WorkerAt(s, w).id], WorkerAt(s, w).at)
    ensures Lines(ApplyUpdate(s, w), WorkerAt(s, w).id) == Lines(s, WorkerAt(s, w).id)
  {
    var id, s' := WorkerAt(s, w).id, ApplyUpdate(s, w);
    forall v ensures !Owns(s, v, id) { }
    assert Owns(s', w, id) && w !in Unexpired(s, id);
    forall v | v != w ensures Leases(s', v, id) <==> Leases(s, v, id) { }
    assert Unexpired(s', id) == Unexpired(s, id) + {w};
  }

  lemma UpdateKeepsLine(s: World, w: int, id: int, l: Ledger)
    requires PickInv(s) && CountInv(s, id, l) && LineInv(s, id, l) && Enabled(s, Update(w)) && UpdateInTime(s, Update(w))
    ensures LineInv(ApplyUpdate(s, w), id, Booked(l, id, EventOf(s, Update(w))))
  {
    assert PickOk(s, WorkerAt(s, w));
    if WorkerAt(s, w).id == id && IsDue(s.rows[id], WorkerAt(s, w).at) {
      WinTakesOpen(s, w);
    } else {
      AsideKeepsLine(s, ApplyUpdate(s, w), id, l, Booked(l, id, EventOf(s, Update(w))));
    }
  }

  lemma MarkDropsLease(s: World, w: int, verdict: Verdict)
    requires WorkerAt(s, w).Holding?
    ensures var id := WorkerAt(s, w).id;
            |Unexpired(ApplyFinish(s, w, verdict), id)| == |Unexpired(s, id)| - if Leases(s, w, id) then 1 else 0
  {
    var id, s' := WorkerAt(s, w).id, ApplyFinish(s, w, verdict);
    forall v ensures v in Unexpired(s', id) <==> v in Unexpired(s, id) && v != w {
      assert v != w ==> WorkerAt(s', v) == WorkerAt(s, v);
    }
    assert Unexpired(s', id) == Unexpired(s, id) - {w};
    assert w in Unexpired(s, id) <==> Leases(s, w, id);
  }

  lemma OpenWhilePending(s: World, id: int)
    ensures id in s.rows ==> Open(s, id) <= if s.rows[id].status == Pending then 1 else 0
  {
  }

  /** A mark gives its lease back as an end or an open attempt; a late one has none to give and is charged for it. */
  lemma OwnFinishKeepsLine(s: World, w: int, verdict: Verdict, l: Ledger)
    requires WorkerAt(s, w).Holding? && WorkerAt(s, w).id in s.rows && LineInv(s, WorkerAt(s, w).id, l)
    ensures LineInv(ApplyFinish(s, w, verdict), WorkerAt(s, w).id,
                    Booked(l, WorkerAt(s, w).id, MarkEvent(s, WorkerAt(s, w), verdict)))
  {
    MarkDropsLease(s, w, verdict);
    OpenWhilePending(ApplyFinish(s, w, verdict), WorkerAt(s, w).id);
  }

  lemma FinishKeepsLine(s: World, w: int, verdict: Verdict, id: int, l: Ledger)
    requires PickInv(s) && CountInv(s, id, l) && LineInv(s, id, l) && Enabled(s, Finish(w, verdict))
    ensures LineInv(ApplyFinish(s, w, verdict), id, Booked(l, id, EventOf(s, Finish(w, verdict))))
  {
    assert PickOk(s, WorkerAt(s, w));
    if WorkerAt(s, w).id == id {
      OwnFinishKeepsLine(s, w, verdict, l);
    } else {
      AsideKeepsLine(s, ApplyFinish(s, w, verdict), id, l, Booked(l, id, EventOf(s, Finish(w, verdict))));
    }
  }

  lemma OtherIsAside(s: World, step: Label, id: int)
    requires Enabled(s, step) && !step.Update? && !step.Finish?
    ensures Aside(s, Apply(s, step), id)
  {
  }

  lemma StepKeepsLine(s: World, step: Label, id: int, l: Ledger)
    requires PickInv(s) && CountInv(s, id, l) && LineInv(s, id, l) && Enabled(s, step) && UpdateInTime(s, step)
    ensures LineInv(Apply(s, step), id, Booked(l, id, EventOf(s, step)))
  {
    if step.Update? {
      UpdateKeepsLine(s, step.w, id, l);
    } else if step.Finish? {
      FinishKeepsLine(s, step.w, step.verdict, id, l);
    } else {
      OtherIsAside(s, step, id);
      AsideKeepsLine(s, Apply(s, step), id, l, Booked(l, id, EventOf(s, step)));
    }
  }

  // ---------------------------------------------------------------- runs

  ghost predicate Accounted(s: World, id: int, l: Ledger) { CountInv(s, id, l) && OrdInv(s, id, l) && LineInv(s, id, l) }

  lemma StepKeepsAccounts(s: World, step: Label, id: int, l: Ledger)
    requires PickInv(s) && Accounted(s, id, l) && Enabled(s, step) && UpdateInTime(s, step)
    ensures Accounted(Apply(s, step), id, Booked(l, id, EventOf(s, step)))
  {
    StepKeepsCount(s, step, id, l);
    StepKeepsOrd(s, step, id, l);
    StepKeepsLine(s, step, id, l);
  }

  /** The ledger `l` carried through the steps of a run. */
  ghost function After(s: World, ls: seq<Label>, id: int, l: Ledger): Ledger
    decreases ls
  {
    if ls == [] || !Enabled(s, ls[0]) then l else After(Apply(s, ls[0]), ls[1..], id, Booked(l, id, EventOf(s, ls[0])))
  }

  lemma {:induction false} AfterIsLedger(s: World, ls: seq<Label>, id: int)
    requires Valid(s, ls)
    ensures After(s, ls, id, LedgerOf(s.trace, id)) == LedgerOf(Run(s, ls).trace, id)
    decreases ls
  {
    if ls != [] {
      LedgerGrows(s, ls[0], id);
      AfterIsLedger(Apply(s, ls[0]), ls[1..], id);
    }
  }

  lemma {:induction false} RunKeepsAccounts(s: World, ls: seq<Label>, id: int, l: Ledger)
    requires PickInv(s) && Accounted(s, id, l) && Valid(s, ls) && Prompt(s, ls, true)
    ensures PickInv(Run(s, ls)) && Accounted(Run(s, ls), id, After(s, ls, id, l))
    decreases ls
  {
    if ls != [] {
      StepKeepsPicks(s, ls[0]);
      StepKeepsAccounts(s, ls[0], id, l);
      RunKeepsAccounts(Apply(s, ls[0]), ls[1..], id, Booked(l, id, EventOf(s, ls[0])));
    }
  }

  lemma StartAccounts(now: int, id: int)
    ensures PickInv(Start(now)) && Accounted(Start(now), id, BLANK)
  {
    assert Where(Start(now).workers, HoldsId(id)) == {} && Where(Start(now).workers, Unposted(id)) == {};
    assert Unexpired(Start(now), id) == {};
  }

  /** Workers that still hold `id` although their lease has run out. */
  ghost function Expired(s: World, id: int): set<int>
  {
    set w | w in s.workers && Holds(s, w, id) && !Leases(s, w, id)
  }

  lemma HoldersSplit(s: World, id: int)
    ensures Holders(s, id) == |Unexpired(s, id)| + |Expired(s, id)|
  {
    assert Where(s.workers, HoldsId(id)) == Unexpired(s, id) + Expired(s, id);
    assert Unexpired(s, id) !! Expired(s, id);
  }

  lemma AccountsBound(s: World, id: int, l: Ledger)
    requires Accounted(s, id, l)
    ensures l.retries <= 2 && l.posts <= MAX_ATTEMPTS + l.crashes + |Expired(s, id)| + l.lates
  {
    assert l.retried <= {1, 2};
    Smaller(l.retried, {1, 2});
    HoldersSplit(s, id);
  }

  /**
   MAIN RESULT. A delivery is posted at most three times, plus once for every claim that crashed or still holds it past its
   lease, plus once for every mark written past its lease.
   */
  lemma PostsAreBounded(now: int, ls: seq<Label>, id: int)
    requires Valid(Start(now), ls) && Prompt(Start(now), ls, true)
    ensures var s := Run(Start(now), ls);
            var l := LedgerOf(s.trace, id);
            l.posts <= 3 + l.crashes + |Expired(s, id)| + l.lates
  {
    StartAccounts(now, id);
    RunKeepsAccounts(Start(now), ls, id, BLANK);
    AfterIsLedger(Start(now), ls, id);
    AccountsBound(Run(Start(now), ls), id, LedgerOf(Run(Start(now), ls).trace, id));
  }

  /** In the same runs every lease is retried, crashed, ended or still held, and two marks at most retry. */
  lemma LeasesAreAccountedFor(now: int, ls: seq<Label>, id: int)
    requires Valid(Start(now), ls) && Prompt(Start(now), ls, true)
    ensures var s := Run(Start(now), ls);
            var l := LedgerOf(s.trace, id);
            && l.leases == l.retries + l.crashes + l.ends + Holders(s, id) && l.retries <= 2 && l.posts <= l.leases
            && l.ends <= 1 + l.lates && (id in s.rows ==> s.rows[id].attempts == l.leases)
  {
    StartAccounts(now, id);
    RunKeepsAccounts(Start(now), ls, id, BLANK);
    AfterIsLedger(Start(now), ls, id);
    AccountsBound(Run(Start(now), ls), id, LedgerOf(Run(Start(now), ls).trace, id));
    if id !in Run(Start(now), ls).rows {
      assert LedgerOf(Run(Start(now), ls).trace, id) == BLANK;
    }
  }
}
