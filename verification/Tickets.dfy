/**
 Tickets: the status machine with its forced cascade, the stage timestamps kept beside it, the audit log, and
 what can be read back from that log (internal/service/ticket.go, statemachine.go, internal/db/backfill.go,
 internal/httpapi/stagebar.go).
 */
module Tickets {
  import opened Common

  datatype Status = New | InProgress | Resolved | Closed | Rejected

  /** The action a form or a handler names; any other string is Other. */
  datatype Action = Assign | Pickup | Resolve | Confirm | Reopen | Reject | Other(name: string)

  function Transitions(current: Status, action: Action): Option<Status>
  {
    match (current, action)
    case (New, Assign) => Some(InProgress)
    case (New, Pickup) => Some(InProgress)
    case (InProgress, Resolve) => Some(Resolved)
    case (InProgress, Reject) => Some(Rejected)
    case (Resolved, Confirm) => Some(Closed)
    case (Resolved, Reopen) => Some(InProgress)
    case (Closed, Reopen) => Some(InProgress)
    case _ => None
  }

  function ForcedNext(status: Status): Option<Status>
  {
    if status == Rejected then Some(Closed) else None
  }

  /** The statuses an action visits, cascades included; empty when the action is not allowed. */
  function Path(current: Status, action: Action): seq<Status>
  {
    match Transitions(current, action)
    case None => []
    case Some(next) => if ForcedNext(next).Some? then [next, ForcedNext(next).value] else [next]
  }

  /** `nextStatus`, with its table lookups and its loop over forced cascades. */
  method NextStatus(current: Status, action: Action) returns (final: Option<Status>, path: seq<Status>)
    ensures path == Path(current, action)
    ensures final == if path == [] then None else Some(path[|path| - 1])
  {
    path := [];
    var step := Transitions(current, action);
    if step.None? {
      return None, [];
    }
    var next := step.value;
    path := [next];
    while ForcedNext(next).Some?
      invariant Path(current, action) == path + if ForcedNext(next).Some? then [ForcedNext(next).value] else []
      invariant path != [] && path[|path| - 1] == next
      decreases next == Rejected
    {
      next := ForcedNext(next).value;
      path := path + [next];
    }
    final := Some(next);
  }

  // ---------------------------------------------------------------- rows and the log

  datatype Ticket = Ticket(
    status: Status, creator: int, queue: int, assignee: Option<int>, fields: map<string, string>,
    createdAt: int, detectedAt: Option<int>, ackedAt: Option<int>, mitigatedAt: Option<int>, resolvedAt: Option<int>,
    reopenCount: nat, slaDueAt: Option<int>, notifiedAt: Option<int>)

  datatype Event =
    | Created
    | Assigned(to: int)
    | StatusChanged(from: Status, next: Status, action: Action)
    | Mitigated
    | FieldsUpdated
    | SlaBreached

  datatype Entry = Entry(ticket: int, at: int, event: Event)

  datatype Actor = Actor(id: int, admin: bool, engineer: bool, queueOps: bool, detects: bool)

  /** The tables the ticket service works on; `drafts` lists the tickets a knowledge article was proposed for. */
  datatype Desk = Desk(rows: map<int, Ticket>, log: seq<Entry>, drafts: seq<int>, members: set<(int, int)>)

  function EventsOf(log: seq<Entry>, id: int): seq<Entry>
  {
    if log == [] then []
    else
      var e := log[|log| - 1];
      var before := EventsOf(log[..|log| - 1], id);
      if e.ticket == id then before + [e] else before
  }

  /** `status_changed` for every status of the path, each from the one before it. */
  function PathEvents(id: int, at: int, from: Status, path: seq<Status>, action: Action): seq<Entry>
    decreases path
  {
    if path == [] then []
    else [Entry(id, at, StatusChanged(from, path[0], action))] + PathEvents(id, at, path[0], path[1..], action)
  }

  // ---------------------------------------------------------------- the operations

  datatype Op =
    | Create(id: int, queue: int, fields: map<string, string>, detected: Option<int>, slaDue: Option<int>)
    | Transition(id: int, action: Action, kbOk: bool)
    | TakeUp(id: int)                     // Pickup
    | GiveTo(id: int, assignee: int)      // Assign
    | Mitigate(id: int)
    | UpdateFields(id: int, changed: map<string, string>)
    | AutoAssign(id: int, assignee: int)  // the workflow step: no event

  function Moved(t: Ticket, action: Action, final: Status, at: int): Ticket
  {
    var t' := t.(status := final);
    if final == Resolved then t'.(resolvedAt := Some(at))
    else if action == Reopen then t'.(resolvedAt := None, reopenCount := t.reopenCount + 1, notifiedAt := None)
    else t'
  }

  function Owned(t: Ticket, assignee: int, at: int): Ticket
  {
    t.(assignee := Some(assignee),
       status := if t.status == New then InProgress else t.status,
       ackedAt := if t.ackedAt.None? then Some(at) else t.ackedAt)
  }

  function ApplyTransition(d: Desk, actor: Actor, id: int, action: Action, kbOk: bool, at: int): Option<Desk>
  {
    if id !in d.rows then None
    else
      var t := d.rows[id];
      var path := Path(t.status, action);
      if t.status == Closed && action == Reopen && !actor.admin && actor.id != t.creator then None
      else if path == [] then None
      else
        var final := path[|path| - 1];
        Some(d.(rows := d.rows[id := Moved(t, action, final, at)],
                drafts := if final == Resolved && kbOk then d.drafts + [id] else d.drafts,
                log := d.log + PathEvents(id, at, t.status, path, action)))
  }

  function ApplyOwner(d: Desk, actor: Actor, id: int, assignee: int, at: int): Option<Desk>
  {
    if id !in d.rows then None
    else if actor.engineer && (d.rows[id].queue, assignee) !in d.members then None
    else Some(d.(rows := d.rows[id := Owned(d.rows[id], assignee, at)], log := d.log + [Entry(id, at, Assigned(assignee))]))
  }

  /** One service call at logical time `at`; None is the error return, which changes nothing. */
  function Apply(d: Desk, actor: Actor, op: Op, at: int): Option<Desk>
  {
    match op
    case Create(id, queue, fields, detected, slaDue) =>
      if id in d.rows then None
      else Some(d.(rows := d.rows[id := Ticket(New, actor.id, queue, None, fields, at,
                                               if detected.Some? && actor.detects then detected else Some(at),
                                               None, None, None, 0, slaDue, None)],
                   log := d.log + [Entry(id, at, Created)]))
    case Transition(id, action, kbOk) => ApplyTransition(d, actor, id, action, kbOk, at)
    case TakeUp(id) => ApplyOwner(d, actor, id, actor.id, at)
    case GiveTo(id, assignee) => if actor.queueOps then ApplyOwner(d, actor, id, assignee, at) else None
    case Mitigate(id) =>
      if id !in d.rows || d.rows[id].status != InProgress then None
      else Some(d.(rows := d.rows[id := d.rows[id].(mitigatedAt := Some(at))], log := d.log + [Entry(id, at, Mitigated)]))
    case UpdateFields(id, changed) =>
      if id !in d.rows then None
      else Some(d.(rows := d.rows[id := d.rows[id].(fields := d.rows[id].fields + changed)],
                   log := d.log + [Entry(id, at, FieldsUpdated)]))
    case AutoAssign(id, assignee) =>
      if id !in d.rows then None
      else Some(d.(rows := d.rows[id := d.rows[id].(assignee := Some(assignee))]))
  }

  // ---------------------------------------------------------------- reading the log back

  /** The status the log leads to. */
  function FoldStatus(evs: seq<Entry>): Status
  {
    if evs == [] then New
    else
      var s := FoldStatus(evs[..|evs| - 1]);
      match evs[|evs| - 1].event
      case Assigned(_) => if s == New then InProgress else s
      case StatusChanged(_, next, _) => next
      case _ => s
  }

  /** Every `status_changed` starts from the status the log had led to. */
  predicate FromsAgree(evs: seq<Entry>)
  {
    evs == [] ||
    (FromsAgree(evs[..|evs| - 1]) &&
     (evs[|evs| - 1].event.StatusChanged? ==> evs[|evs| - 1].event.from == FoldStatus(evs[..|evs| - 1])))
  }

  datatype Overlay = Overlay(ackedAt: Option<int>, resolvedAt: Option<int>, reopenCount: nat)

  function OverlayStep(o: Overlay, e: Entry): Overlay
  {
    match e.event
    case Assigned(_) => if o.ackedAt.None? then o.(ackedAt := Some(e.at)) else o
    case StatusChanged(_, next, action) =>
      var o' := if next == Resolved then o.(resolvedAt := Some(e.at)) else o;
      if action == Reopen then o'.(resolvedAt := None, reopenCount := o'.reopenCount + 1) else o'
    case _ => o
  }

  /** The backfill's replay of a ticket's events. */
  function Replay(evs: seq<Entry>): Overlay
  {
    if evs == [] then Overlay(None, None, 0) else OverlayStep(Replay(evs[..|evs| - 1]), evs[|evs| - 1])
  }

  function Live(t: Ticket): Overlay { Overlay(t.ackedAt, t.resolvedAt, t.reopenCount) }

  /** How often the log enters a status. */
  function Entries(evs: seq<Entry>, status: Status): nat
  {
    if evs == [] then 0
    else Entries(evs[..|evs| - 1], status)
         + if evs[|evs| - 1].event.StatusChanged? && evs[|evs| - 1].event.next == status then 1 else 0
  }

  /** Whether the last entry into Closed was the reject cascade; its source status is Rejected. */
  function ClosedByReject(evs: seq<Entry>): bool
  {
    if evs == [] then false
    else
      var e := evs[|evs| - 1].event;
      if e.StatusChanged? && e.next == Closed then e.from == Rejected else ClosedByReject(evs[..|evs| - 1])
  }

  lemma Snoc(evs: seq<Entry>, e: Entry)
    ensures (evs + [e])[..|evs|] == evs
    ensures FoldStatus(evs + [e])
         == match e.event
            case Assigned(_) => if FoldStatus(evs) == New then InProgress else FoldStatus(evs)
            case StatusChanged(_, next, _) => next
            case _ => FoldStatus(evs)
    ensures FromsAgree(evs + [e]) <==> FromsAgree(evs) && (e.event.StatusChanged? ==> e.event.from == FoldStatus(evs))
    ensures Replay(evs + [e]) == OverlayStep(Replay(evs), e)
    ensures Entries(evs + [e], Resolved) == Entries(evs, Resolved) + if e.event.StatusChanged? && e.event.next == Resolved then 1 else 0
    ensures Entries(evs + [e], Rejected) == Entries(evs, Rejected) + if e.event.StatusChanged? && e.event.next == Rejected then 1 else 0
    ensures ClosedByReject(evs + [e]) == if e.event.StatusChanged? && e.event.next == Closed then e.event.from == Rejected else ClosedByReject(evs)
  {
    assert (evs + [e])[..|evs|] == evs;
  }

  lemma EventsSnoc(log: seq<Entry>, e: Entry, id: int)
    ensures EventsOf(log + [e], id) == if e.ticket == id then EventsOf(log, id) + [e] else EventsOf(log, id)
  {
    assert (log + [e])[..|log|] == log;
  }

  // ---------------------------------------------------------------- what holds of every ticket

  predicate Before(o: Option<int>, at: int) { o.Some? ==> o.value <= at }

  /** The log and the row tell the same story. */
  ghost predicate Agrees(t: Ticket, evs: seq<Entry>)
  {
    t.status == FoldStatus(evs) && FromsAgree(evs) && Live(t) == Replay(evs)
  }

  /**
   Rejected never rests; ResolvedAt is set exactly in Resolved and in Closed unless closed by a rejection; stamps
   lie in the past, mitigation before resolution.
   */
  ghost predicate Stamped(t: Ticket, evs: seq<Entry>, now: int)
  {
    && t.status != Rejected
    && (t.resolvedAt.Some? <==> t.status == Resolved || (t.status == Closed && !ClosedByReject(evs)))
    && Before(t.mitigatedAt, now) && Before(t.resolvedAt, now)
    && (t.mitigatedAt.Some? && t.resolvedAt.Some? ==> t.mitigatedAt.value <= t.resolvedAt.value)
  }

  /** Every time work ended it had been started. */
  ghost predicate Counted(t: Ticket, evs: seq<Entry>)
  {
    Entries(evs, Resolved) + Entries(evs, Rejected) + (if t.status == InProgress then 1 else 0)
    == t.reopenCount + if t.status == New then 0 else 1
  }

  ghost predicate TicketInv(t: Ticket, evs: seq<Entry>, now: int)
  {
    Agrees(t, evs) && Stamped(t, evs, now) && Counted(t, evs)
  }

  lemma AppendPlain(t: Ticket, evs: seq<Entry>, e: Entry, now: int)
    requires TicketInv(t, evs, now) && now <= e.at && !e.event.Assigned? && !e.event.StatusChanged?
    ensures TicketInv(t, evs + [e], e.at)
  {
    Snoc(evs, e);
  }

  lemma AppendOwner(t: Ticket, evs: seq<Entry>, id: int, assignee: int, now: int, at: int)
    requires TicketInv(t, evs, now) && now <= at
    ensures TicketInv(Owned(t, assignee, at), evs + [Entry(id, at, Assigned(assignee))], at)
  {
    Snoc(evs, Entry(id, at, Assigned(assignee)));
  }

  /** A path has one status, or a rejection and its forced close. */
  lemma PathEventsAre(id: int, at: int, from: Status, action: Action)
    requires Path(from, action) != []
    ensures var path := Path(from, action);
            var e := Entry(id, at, StatusChanged(from, path[0], action));
            PathEvents(id, at, from, path, action)
            == if |path| == 1 then [e] else [e, Entry(id, at, StatusChanged(path[0], path[1], action))]
  {
    var path := Path(from, action);
    var rest := path[1..];
    assert PathEvents(id, at, path[0], rest, action)
        == if |path| == 1 then [] else [Entry(id, at, StatusChanged(path[0], path[1], action))] by {
      if |path| == 2 {
        assert rest == [path[1]] && rest[1..] == [];
        assert PathEvents(id, at, path[1], rest[1..], action) == [];
      }
    }
  }

  lemma StepAgrees(t: Ticket, evs: seq<Entry>, e: Entry, action: Action)
    requires Agrees(t, evs) && |Path(t.status, action)| == 1
    requires e.event == StatusChanged(t.status, Path(t.status, action)[0], action)
    ensures Agrees(Moved(t, action, Path(t.status, action)[0], e.at), evs + [e])
  {
    Snoc(evs, e);
  }

  lemma StepStamped(t: Ticket, evs: seq<Entry>, e: Entry, action: Action, now: int)
    requires Stamped(t, evs, now) && now <= e.at && |Path(t.status, action)| == 1
    requires e.event == StatusChanged(t.status, Path(t.status, action)[0], action)
    ensures Stamped(Moved(t, action, Path(t.status, action)[0], e.at), evs + [e], e.at)
  {
    Snoc(evs, e);
  }

  lemma StepCounted(t: Ticket, evs: seq<Entry>, e: Entry, action: Action)
    requires Counted(t, evs) && |Path(t.status, action)| == 1
    requires e.event == StatusChanged(t.status, Path(t.status, action)[0], action)
    ensures Counted(Moved(t, action, Path(t.status, action)[0], e.at), evs + [e])
  {
    Snoc(evs, e);
  }

  lemma AppendStep(t: Ticket, evs: seq<Entry>, e: Entry, action: Action, now: int)
    requires TicketInv(t, evs, now) && now <= e.at && |Path(t.status, action)| == 1
    requires e.event == StatusChanged(t.status, Path(t.status, action)[0], action)
    ensures TicketInv(Moved(t, action, Path(t.status, action)[0], e.at), evs + [e], e.at)
  {
    StepAgrees(t, evs, e, action);
    StepStamped(t, evs, e, action, now);
    StepCounted(t, evs, e, action);
  }

  lemma AppendRejection(t: Ticket, evs: seq<Entry>, id: int, now: int, at: int)
    requires TicketInv(t, evs, now) && now <= at && t.status == InProgress
    ensures TicketInv(Moved(t, Reject, Closed, at),
                      evs + [Entry(id, at, StatusChanged(InProgress, Rejected, Reject)), Entry(id, at, StatusChanged(Rejected, Closed, Reject))],
                      at)
  {
    var e := Entry(id, at, StatusChanged(InProgress, Rejected, Reject));
    var f := Entry(id, at, StatusChanged(Rejected, Closed, Reject));
    Snoc(evs, e);
    Snoc(evs + [e], f);
    assert evs + [e, f] == evs + [e] + [f];
  }

  lemma AppendMove(t: Ticket, evs: seq<Entry>, id: int, action: Action, now: int, at: int)
    requires TicketInv(t, evs, now) && now <= at && Path(t.status, action) != []
    ensures var path := Path(t.status, action);
            TicketInv(Moved(t, action, path[|path| - 1], at), evs + PathEvents(id, at, t.status, path, action), at)
  {
    PathEventsAre(id, at, t.status, action);
    if |Path(t.status, action)| == 1 {
      AppendStep(t, evs, Entry(id, at, StatusChanged(t.status, Path(t.status, action)[0], action)), action, now);
    } else {
      AppendRejection(t, evs, id, now, at);
    }
  }

  ghost predicate DeskInv(d: Desk, now: int)
  {
    (forall id :: id in d.rows ==> TicketInv(d.rows[id], EventsOf(d.log, id), now))
    && (forall id :: id !in d.rows ==> EventsOf(d.log, id) == [])
  }

  /** Appending events of one ticket leaves the others' events alone. */
  lemma {:induction false} EventsAppend(log: seq<Entry>, more: seq<Entry>, id: int, u: int)
    requires forall i :: 0 <= i < |more| ==> more[i].ticket == id
    ensures EventsOf(log + more, u) == if u == id then EventsOf(log, u) + more else EventsOf(log, u)
    decreases more
  {
    if more == [] {
      assert log + more == log;
      assert EventsOf(log, u) + [] == EventsOf(log, u);
    } else {
      var n := |more| - 1;
      EventsAppend(log, more[..n], id, u);
      EventsSnoc(log + more[..n], more[n], u);
      assert more == more[..n] + [more[n]];
      Assoc(log, more[..n], [more[n]]);
      Assoc(EventsOf(log, u), more[..n], [more[n]]);
    }
  }

  lemma Later(t: Ticket, evs: seq<Entry>, now: int, at: int)
    requires TicketInv(t, evs, now) && now <= at
    ensures TicketInv(t, evs, at)
  {
  }

  lemma PathEventsOwn(id: int, at: int, from: Status, path: seq<Status>, action: Action)
    ensures forall i :: 0 <= i < |PathEvents(id, at, from, path, action)| ==>
              PathEvents(id, at, from, path, action)[i].ticket == id
    decreases path
  {
    if path != [] { PathEventsOwn(id, at, path[0], path[1..], action); }
  }

  /** One ticket gets a new row and new events; everything else is as before. */
  lemma ReplaceKeepsInv(d: Desk, d': Desk, id: int, more: seq<Entry>, now: int, at: int)
    requires DeskInv(d, now) && now <= at
    requires forall i :: 0 <= i < |more| ==> more[i].ticket == id
    requires id in d'.rows && d'.rows == d.rows[id := d'.rows[id]] && d'.log == d.log + more
    requires TicketInv(d'.rows[id], EventsOf(d.log, id) + more, at)
    ensures DeskInv(d', at)
  {
    forall u ensures u in d'.rows ==> TicketInv(d'.rows[u], EventsOf(d'.log, u), at)
             ensures u !in d'.rows ==> EventsOf(d'.log, u) == []
    {
      EventsAppend(d.log, more, id, u);
      if u in d.rows { Later(d.rows[u], EventsOf(d.log, u), now, at); }
    }
  }

  lemma OpKeepsInv(d: Desk, actor: Actor, op: Op, now: int, at: int)
    requires DeskInv(d, now) && now <= at && Apply(d, actor, op, at).Some?
    ensures DeskInv(Apply(d, actor, op, at).value, at)
  {
    var d' := Apply(d, actor, op, at).value;
    var evs := EventsOf(d.log, op.id);
    match op {
      case Create(id, _, _, _, _) =>
        Snoc([], Entry(id, at, Created));
        assert [] + [Entry(id, at, Created)] == [Entry(id, at, Created)];
        ReplaceKeepsInv(d, d', id, [Entry(id, at, Created)], now, at);
      case Transition(id, action, _) =>
        var path := Path(d.rows[id].status, action);
        AppendMove(d.rows[id], evs, id, action, now, at);
        PathEventsOwn(id, at, d.rows[id].status, path, action);
        ReplaceKeepsInv(d, d', id, PathEvents(id, at, d.rows[id].status, path, action), now, at);
      case TakeUp(id) =>
        AppendOwner(d.rows[id], evs, id, actor.id, now, at);
        ReplaceKeepsInv(d, d', id, [Entry(id, at, Assigned(actor.id))], now, at);
      case GiveTo(id, assignee) =>
        AppendOwner(d.rows[id], evs, id, assignee, now, at);
        ReplaceKeepsInv(d, d', id, [Entry(id, at, Assigned(assignee))], now, at);
      case Mitigate(id) =>
        AppendPlain(d.rows[id], evs, Entry(id, at, Mitigated), now);
        ReplaceKeepsInv(d, d', id, [Entry(id, at, Mitigated)], now, at);
      case UpdateFields(id, _) =>
        AppendPlain(d.rows[id], evs, Entry(id, at, FieldsUpdated), now);
        ReplaceKeepsInv(d, d', id, [Entry(id, at, FieldsUpdated)], now, at);
      case AutoAssign(id, _) =>
        assert evs + [] == evs && d.log + [] == d.log;
        Later(d.rows[id], evs, now, at);
        ReplaceKeepsInv(d, d', id, [], now, at);
    }
  }

  // ---------------------------------------------------------------- runs

  datatype Call = Call(actor: Actor, op: Op, at: int)

  /** Logical times never go back. */
  predicate Chronological(calls: seq<Call>, now: int)
  {
    calls == [] || (now <= calls[0].at && Chronological(calls[1..], calls[0].at))
  }

  /** A failing call changes nothing. */
  function Run(d: Desk, calls: seq<Call>): Desk
    decreases calls
  {
    if calls == [] then d else Run(Apply(d, calls[0].actor, calls[0].op, calls[0].at).GetOr(d), calls[1..])
  }

  function EndTime(calls: seq<Call>, now: int): int
  {
    if calls == [] then now else calls[|calls| - 1].at
  }

  function EmptyDesk(members: set<(int, int)>): Desk { Desk(map[], [], [], members) }

  lemma {:induction false} RunKeepsInv(d: Desk, calls: seq<Call>, now: int)
    requires DeskInv(d, now) && Chronological(calls, now)
    ensures DeskInv(Run(d, calls), EndTime(calls, now))
    decreases calls
  {
    if calls != [] {
      var c := calls[0];
      var d' := Apply(d, c.actor, c.op, c.at).GetOr(d);
      if Apply(d, c.actor, c.op, c.at).Some? {
        OpKeepsInv(d, c.actor, c.op, now, c.at);
      } else {
        forall id | id in d.rows ensures TicketInv(d.rows[id], EventsOf(d.log, id), c.at) {
          Later(d.rows[id], EventsOf(d.log, id), now, c.at);
        }
      }
      RunKeepsInv(d', calls[1..], c.at);
    }
  }

  /** MAIN RESULT. After any calls the log alone reconstructs each ticket's status and stage overlay. */
  lemma LogTellsTheTicket(members: set<(int, int)>, calls: seq<Call>, now: int, id: int)
    requires Chronological(calls, now) && id in Run(EmptyDesk(members), calls).rows
    ensures var d := Run(EmptyDesk(members), calls);
            var evs := EventsOf(d.log, id);
            && d.rows[id].status == FoldStatus(evs) && FromsAgree(evs)
            && Live(d.rows[id]) == Replay(evs)
  {
    RunKeepsInv(EmptyDesk(members), calls, now);
  }

  /** MAIN RESULT. #resolve + #reject + [In Progress] = ReopenCount + [not New]. */
  lemma WorkIsCounted(members: set<(int, int)>, calls: seq<Call>, now: int, id: int)
    requires Chronological(calls, now) && id in Run(EmptyDesk(members), calls).rows
    ensures var d := Run(EmptyDesk(members), calls);
            var t, evs := d.rows[id], EventsOf(d.log, id);
            Entries(evs, Resolved) + Entries(evs, Rejected) + (if t.status == InProgress then 1 else 0)
            == t.reopenCount + if t.status == New then 0 else 1
  {
    RunKeepsInv(EmptyDesk(members), calls, now);
  }

  // ---------------------------------------------------------------- the progress bar

  datatype StageBar = Hidden | Shown(stage: nat, closed: bool, reopenCount: nat)

  /** `stageProgress` without its labels. */
  function StageProgress(t: Ticket): StageBar
  {
    if t.status == Closed && t.resolvedAt.None? then Hidden
    else
      var stage := if t.resolvedAt.Some? then 3 else if t.mitigatedAt.Some? then 2 else if t.ackedAt.Some? then 1 else 0;
      Shown(stage, t.status == Closed, t.reopenCount)
  }

  /**
   MAIN RESULT. The bar guesses from timestamps what the log knows: it is hidden exactly for a closed ticket whose
   last way into Closed was a rejection, and it stands at Resolve exactly while the ticket is resolved or
   closed by confirmation.
   */
  lemma StageBarIsRight(members: set<(int, int)>, calls: seq<Call>, now: int, id: int)
    requires Chronological(calls, now) && id in Run(EmptyDesk(members), calls).rows
    ensures var d := Run(EmptyDesk(members), calls);
            var t, rejected := d.rows[id], ClosedByReject(EventsOf(d.log, id));
            && (StageProgress(t).Hidden? <==> t.status == Closed && rejected)
            && (StageProgress(t).Shown? && StageProgress(t).stage == 3 <==>
                  t.status == Resolved || (t.status == Closed && !rejected))
            && t.status != Rejected
            && (t.status == New || t.status == InProgress ==> t.resolvedAt.None?)
            && (t.status == Resolved ==> t.resolvedAt.Some?)
            && (t.mitigatedAt.Some? && t.resolvedAt.Some? ==> t.mitigatedAt.value <= t.resolvedAt.value)
  {
    RunKeepsInv(EmptyDesk(members), calls, now);
  }

  // ---------------------------------------------------------------- knowledge drafts

  predicate KbAlwaysWorks(calls: seq<Call>)
  {
    forall i :: 0 <= i < |calls| ==> calls[i].op.Transition? ==> calls[i].op.kbOk
  }

  ghost predicate DraftInv(d: Desk, id: int)
  {
    Count(d.drafts, id) == Entries(EventsOf(d.log, id), Resolved)
  }

  lemma {:induction false} EntriesAppend(evs: seq<Entry>, more: seq<Entry>, s: Status)
    ensures Entries(evs + more, s) == Entries(evs, s) + Entries(more, s)
    decreases more
  {
    if more == [] {
      assert evs + more == evs;
    } else {
      var n := |more| - 1;
      EntriesAppend(evs, more[..n], s);
      assert (evs + more)[..|evs + more| - 1] == evs + more[..n];
    }
  }

  lemma PathEntries(id: int, at: int, from: Status, action: Action)
    ensures Path(from, action) != [] ==>
              var path := Path(from, action);
              Entries(PathEvents(id, at, from, path, action), Resolved) == if path[|path| - 1] == Resolved then 1 else 0
  {
    if Path(from, action) != [] {
      var path := Path(from, action);
      var e := Entry(id, at, StatusChanged(from, path[0], action));
      PathEventsAre(id, at, from, action);
      Snoc([], e);
      assert [] + [e] == [e];
      if |path| == 2 {
        var f := Entry(id, at, StatusChanged(path[0], path[1], action));
        Snoc([e], f);
        assert [e] + [f] == [e, f];
      }
    }
  }

  lemma OpKeepsDrafts(d: Desk, actor: Actor, op: Op, at: int, u: int)
    requires DraftInv(d, u) && Apply(d, actor, op, at).Some? && (op.Transition? ==> op.kbOk)
    ensures DraftInv(Apply(d, actor, op, at).value, u)
  {
    var d' := Apply(d, actor, op, at).value;
    if op.Transition? {
      var path := Path(d.rows[op.id].status, op.action);
      var more := PathEvents(op.id, at, d.rows[op.id].status, path, op.action);
      PathEventsOwn(op.id, at, d.rows[op.id].status, path, op.action);
      EventsAppend(d.log, more, op.id, u);
      EntriesAppend(EventsOf(d.log, op.id), more, Resolved);
      PathEntries(op.id, at, d.rows[op.id].status, op.action);
      CountSnoc(d.drafts, op.id, u);
    } else if !op.AutoAssign? {
      var e := d'.log[|d.log|];
      assert d'.log == d.log + [e];
      EventsSnoc(d.log, e, u);
      Snoc(EventsOf(d.log, u), e);
    }
  }

  /** One draft per resolution, as long as proposals succeed. */
  lemma {:induction false} OneDraftPerResolution(d: Desk, calls: seq<Call>, id: int)
    requires DraftInv(d, id) && KbAlwaysWorks(calls)
    ensures DraftInv(Run(d, calls), id)
    decreases calls
  {
    if calls != [] {
      var c := calls[0];
      if Apply(d, c.actor, c.op, c.at).Some? {
        OpKeepsDrafts(d, c.actor, c.op, c.at, id);
      }
      OneDraftPerResolution(Apply(d, c.actor, c.op, c.at).GetOr(d), calls[1..], id);
    }
  }
}
