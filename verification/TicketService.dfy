/** The ticket service and the backfill as they are written, over mutable tables. */
module TicketService {
  import opened Common
  import opened Tickets

  /** What the backfill writes into a row created before the stage overlay existed. */
  function Backfilled(t: Ticket, evs: seq<Entry>): Ticket
  {
    var o := Replay(evs);
    t.(detectedAt := Some(t.createdAt), ackedAt := o.ackedAt, resolvedAt := o.resolvedAt, reopenCount := o.reopenCount)
  }

  /** `after` is the table `before` once the backfill has run over it. */
  ghost predicate BackfillOf(before: map<int, Ticket>, log: seq<Entry>, after: map<int, Ticket>)
  {
    after.Keys == before.Keys
    && forall id :: id in before ==>
         after[id] == if before[id].detectedAt.None? then Backfilled(before[id], EventsOf(log, id)) else before[id]
  }

  lemma PathEventsSnoc(id: int, at: int, from: Status, path: seq<Status>, next: Status, action: Action)
    ensures PathEvents(id, at, from, path + [next], action)
         == PathEvents(id, at, from, path, action)
            + [Entry(id, at, StatusChanged(if path == [] then from else path[|path| - 1], next, action))]
    decreases path
  {
    if path == [] {
      assert [] + [next] == [next] && [next][1..] == [];
      assert PathEvents(id, at, next, [], action) == [];
    } else {
      PathEventsSnoc(id, at, path[0], path[1..], next, action);
      assert (path + [next])[1..] == path[1..] + [next];
    }
  }

  class TicketService {
    var rows: map<int, Ticket>
    var log: seq<Entry>
    var drafts: seq<int>
    var members: set<(int, int)>

    function State(): Desk
      reads this
    {
      Desk(rows, log, drafts, members)
    }

    method LogEvent(id: int, now: int, event: Event)
      modifies this`log
      ensures log == old(log) + [Entry(id, now, event)]
    {
      log := log + [Entry(id, now, event)];
    }

    method Create(actor: Actor, id: int, queue: int, fields: map<string, string>, detected: Option<int>, slaDue: Option<int>, now: int)
      returns (ok: bool)
      modifies this`rows, this`log
      ensures var r := Apply(old(State()), actor, Op.Create(id, queue, fields, detected, slaDue), now);
              ok == r.Some? && State() == r.GetOr(old(State()))
    {
      if id in rows {
        return false;
      }
      var detectedAt := now;
      if detected.Some? && actor.detects {
        detectedAt := detected.value;
      }
      rows := rows[id := Ticket(New, actor.id, queue, None, fields, now, Some(detectedAt), None, None, None, 0, slaDue, None)];
      LogEvent(id, now, Created);
      ok := true;
    }

    method Transition(actor: Actor, id: int, action: Action, kbOk: bool, now: int) returns (ok: bool)
      modifies this`rows, this`log, this`drafts
      ensures var r := Apply(old(State()), actor, Op.Transition(id, action, kbOk), now);
              ok == r.Some? && State() == r.GetOr(old(State()))
    {
      if id !in rows {
        return false;
      }
      var t := rows[id];
      if t.status == Closed && action == Reopen {
        if !actor.admin && actor.id != t.creator {
          return false;
        }
      }
      var final, path := NextStatus(t.status, action);
      if final.None? {
        return false;
      }
      var from := t.status;
      t := t.(status := final.value);
      if final.value == Resolved {
        t := t.(resolvedAt := Some(now));
      } else if action == Reopen {
        t := t.(resolvedAt := None);
        t := t.(reopenCount := t.reopenCount + 1);
        t := t.(notifiedAt := None);
      }
      assert t == Moved(old(rows)[id], action, path[|path| - 1], now);
      rows := rows[id := t];
      if final.value == Resolved && kbOk {
        drafts := drafts + [id];
      }
      LogPath(id, now, from, path, action);
      ok := true;
    }

    /** One event for every status on the way. */
    method LogPath(id: int, now: int, from: Status, path: seq<Status>, action: Action)
      modifies this`log
      ensures log == old(log) + PathEvents(id, now, from, path, action)
    {
      var cursor := from;
      var i := 0;
      while i < |path|
        invariant 0 <= i <= |path|
        invariant cursor == if i == 0 then from else path[i - 1]
        invariant log == old(log) + PathEvents(id, now, from, path[..i], action)
      {
        PathEventsSnoc(id, now, from, path[..i], path[i], action);
        assert path[..i + 1] == path[..i] + [path[i]];
        LogEvent(id, now, StatusChanged(cursor, path[i], action));
        cursor := path[i];
        i := i + 1;
      }
      assert path[..i] == path;
    }

    method SetOwner(actor: Actor, id: int, assignee: int, action: Action, now: int) returns (ok: bool)
      requires action == Assign || action == Pickup
      modifies this`rows, this`log
      ensures var r := ApplyOwner(old(State()), actor, id, assignee, now);
              ok == r.Some? && State() == r.GetOr(old(State()))
    {
      if id !in rows {
        return false;
      }
      var t := rows[id];
      if actor.engineer && (t.queue, assignee) !in members {
        return false;
      }
      t := t.(assignee := Some(assignee));
      if t.status == New {
        var final, _ := NextStatus(t.status, action);
        if final.Some? {
          t := t.(status := final.value);
        }
      }
      if t.ackedAt.None? {
        t := t.(ackedAt := Some(now));
      }
      rows := rows[id := t];
      LogEvent(id, now, Assigned(assignee));
      ok := true;
    }

    method PickupTicket(actor: Actor, id: int, now: int) returns (ok: bool)
      modifies this`rows, this`log
      ensures var r := Apply(old(State()), actor, TakeUp(id), now);
              ok == r.Some? && State() == r.GetOr(old(State()))
    {
      ok := SetOwner(actor, id, actor.id, Pickup, now);
    }

    method AssignTicket(actor: Actor, id: int, assignee: int, now: int) returns (ok: bool)
      modifies this`rows, this`log
      ensures var r := Apply(old(State()), actor, GiveTo(id, assignee), now);
              ok == r.Some? && State() == r.GetOr(old(State()))
    {
      if !actor.queueOps {
        return false;
      }
      ok := SetOwner(actor, id, assignee, Assign, now);
    }

    method MarkMitigated(actor: Actor, id: int, now: int) returns (ok: bool)
      modifies this`rows, this`log
      ensures var r := Apply(old(State()), actor, Mitigate(id), now);
              ok == r.Some? && State() == r.GetOr(old(State()))
    {
      if id !in rows || rows[id].status != InProgress {
        return false;
      }
      var t := rows[id];
      t := t.(mitigatedAt := Some(now));
      rows := rows[id := t];
      LogEvent(id, now, Mitigated);
      ok := true;
    }

    method ChangeFields(actor: Actor, id: int, changed: map<string, string>, now: int) returns (ok: bool)
      modifies this`rows, this`log
      ensures var r := Apply(old(State()), actor, UpdateFields(id, changed), now);
              ok == r.Some? && State() == r.GetOr(old(State()))
    {
      if id !in rows {
        return false;
      }
      var t := rows[id];
      t := t.(fields := t.fields + changed);
      rows := rows[id := t];
      LogEvent(id, now, FieldsUpdated);
      ok := true;
    }

    /** `backfillStageTimestamps`: replay the log of every ticket without a detection time. */
    method BackfillStageTimestamps()
      modifies this`rows
      ensures BackfillOf(old(rows), log, rows)
    {
      var todo := set id | id in rows && rows[id].detectedAt.None?;
      while exists id :: id in todo
        invariant todo <= rows.Keys && rows.Keys == old(rows.Keys)
        invariant forall id :: id in todo ==> old(rows)[id].detectedAt.None?
        invariant forall id :: id in rows ==>
                    rows[id] == if old(rows)[id].detectedAt.None? && id !in todo
                                then Backfilled(old(rows)[id], EventsOf(log, id)) else old(rows)[id]
        decreases todo
      {
        var id :| id in todo;
        todo := todo - {id};
        var o := ReplayEvents(EventsOf(log, id));
        rows := rows[id := rows[id].(detectedAt := Some(rows[id].createdAt), ackedAt := o.ackedAt,
                                     resolvedAt := o.resolvedAt, reopenCount := o.reopenCount)];
      }
    }

    /** The inner loop of the backfill. */
    method ReplayEvents(evs: seq<Entry>) returns (o: Overlay)
      ensures o == Replay(evs)
    {
      var ackedAt: Option<int>, resolvedAt: Option<int>, reopenCount: nat := None, None, 0;
      var i := 0;
      while i < |evs|
        invariant 0 <= i <= |evs|
        invariant Overlay(ackedAt, resolvedAt, reopenCount) == Replay(evs[..i])
      {
        assert evs[..i + 1][..i] == evs[..i];
        match evs[i].event {
          case Assigned(_) =>
            if ackedAt.None? {
              ackedAt := Some(evs[i].at);
            }
          case StatusChanged(_, next, action) =>
            if next == Resolved {
              resolvedAt := Some(evs[i].at);
            }
            if action == Reopen {
              resolvedAt := None;
              reopenCount := reopenCount + 1;
            }
          case _ =>
        }
        i := i + 1;
      }
      assert evs[..i] == evs;
      o := Overlay(ackedAt, resolvedAt, reopenCount);
    }
  }

  // ---------------------------------------------------------------- what the backfill achieves

  /**
   Whatever a legacy row holds, replaying its log gives it the overlay that the live service keeps
   for a ticket with that log: the replay and the three places that stamp live rows agree on every run.
   */
  lemma BackfillCatchesUp(members: set<(int, int)>, calls: seq<Call>, now: int, id: int, legacy: Ticket)
    requires Chronological(calls, now) && id in Run(EmptyDesk(members), calls).rows
    ensures var d := Run(EmptyDesk(members), calls);
            Live(Backfilled(legacy, EventsOf(d.log, id))) == Live(d.rows[id])
  {
    LogTellsTheTicket(members, calls, now, id);
  }

  /** On a table of a live run whose detection times were wiped, the backfill restores everything but those times. */
  lemma BackfillRestores(members: set<(int, int)>, calls: seq<Call>, now: int, wiped: map<int, Ticket>, after: map<int, Ticket>)
    requires Chronological(calls, now)
    requires var d := Run(EmptyDesk(members), calls);
             && wiped.Keys == d.rows.Keys
             && (forall id :: id in wiped ==>
                   wiped[id].(ackedAt := None, resolvedAt := None, reopenCount := 0)
                   == d.rows[id].(detectedAt := None, ackedAt := None, resolvedAt := None, reopenCount := 0))
             && BackfillOf(wiped, d.log, after)
    ensures var d := Run(EmptyDesk(members), calls);
            forall id :: id in d.rows ==> id in after && after[id] == d.rows[id].(detectedAt := Some(d.rows[id].createdAt))
  {
    var d := Run(EmptyDesk(members), calls);
    forall id | id in d.rows ensures after[id] == d.rows[id].(detectedAt := Some(d.rows[id].createdAt)) {
      LogTellsTheTicket(members, calls, now, id);
      var stripped := d.rows[id].(detectedAt := None, ackedAt := None, resolvedAt := None, reopenCount := 0);
      assert wiped[id].(ackedAt := None, resolvedAt := None, reopenCount := 0) == stripped;
      assert wiped[id] == stripped.(ackedAt := wiped[id].ackedAt, resolvedAt := wiped[id].resolvedAt, reopenCount := wiped[id].reopenCount);
    }
  }

  /** A second backfill changes nothing. */
  lemma BackfillIsIdempotent(rows: map<int, Ticket>, log: seq<Entry>, once: map<int, Ticket>, twice: map<int, Ticket>)
    requires BackfillOf(rows, log, once) && BackfillOf(once, log, twice)
    ensures twice == once
  {
    forall id | id in once ensures twice[id] == once[id] {
      assert id in rows;
    }
  }

  /** The two events of a reject cascade share a timestamp; in whichever order the query returns them, the replay is the same. */
  lemma CascadeOrderIsIrrelevant(before: seq<Entry>, id: int, at: int, after: seq<Entry>)
    ensures var e := Entry(id, at, StatusChanged(InProgress, Rejected, Reject));
            var f := Entry(id, at, StatusChanged(Rejected, Closed, Reject));
            Replay(before + [e, f] + after) == Replay(before + [f, e] + after)
    decreases after
  {
    var e := Entry(id, at, StatusChanged(InProgress, Rejected, Reject));
    var f := Entry(id, at, StatusChanged(Rejected, Closed, Reject));
    if after == [] {
      assert before + [e, f] + [] == before + [e] + [f] && before + [f, e] + [] == before + [f] + [e];
      Snoc(before, e);
      Snoc(before + [e], f);
      Snoc(before, f);
      Snoc(before + [f], e);
    } else {
      var n := |after| - 1;
      CascadeOrderIsIrrelevant(before, id, at, after[..n]);
      assert before + [e, f] + after == before + [e, f] + after[..n] + [after[n]];
      assert before + [f, e] + after == before + [f, e] + after[..n] + [after[n]];
      Snoc(before + [e, f] + after[..n], after[n]);
      Snoc(before + [f, e] + after[..n], after[n]);
    }
  }
}
