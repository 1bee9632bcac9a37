/**
 Who may do what to a ticket, and what a call leaves alone, read off the call and the row before it
 (internal/service/ticket.go:69-364, internal/service/statemachine.go:17-39).
 */
module TicketLaws {
  import opened Common
  import opened Tickets

  /** The desk after a call; a refused one changes nothing. */
  function Next(d: Desk, c: Call): Desk { Apply(d, c.actor, c.op, c.at).GetOr(d) }

  lemma {:induction false} RunSnoc(d: Desk, calls: seq<Call>, c: Call)
    ensures Run(d, calls + [c]) == Next(Run(d, calls), c)
    decreases calls
  {
    if calls == [] {
      assert [c][1..] == [] && calls + [c] == [c];
    } else {
      RunSnoc(Next(d, calls[0]), calls[1..], c);
      assert (calls + [c])[1..] == calls[1..] + [c];
    }
  }

  // ---------------------------------------------------------------- status

  /** The call is the one that takes this action on this ticket. */
  predicate Takes(c: Call, id: int, action: Action) { c.op.Transition? && c.op.id == id && c.op.action == action }

  /** An admin, or the ticket's creator. */
  predicate MayReopen(t: Ticket, actor: Actor) { actor.admin || actor.id == t.creator }

  /** An engineer needs membership of the ticket's queue, for the assignee; anyone else does not. */
  predicate MayOwn(d: Desk, t: Ticket, actor: Actor, assignee: int) { actor.engineer ==> (t.queue, assignee) in d.members }

  /** The call makes `assignee` the owner of ticket `id`, with an event. */
  predicate GivesTo(d: Desk, c: Call, id: int, assignee: int)
  {
    || (c.op == TakeUp(id) && id in d.rows && assignee == c.actor.id && MayOwn(d, d.rows[id], c.actor, assignee))
    || (c.op == GiveTo(id, assignee) && id in d.rows && c.actor.queueOps && MayOwn(d, d.rows[id], c.actor, assignee))
  }

  predicate Owns(d: Desk, c: Call, id: int)
  {
    (c.op.TakeUp? && GivesTo(d, c, id, c.actor.id)) || (c.op.GiveTo? && GivesTo(d, c, id, c.op.assignee))
  }

  /** MAIN RESULT. All the ways a call moves a ticket's status, and no others. */
  lemma StatusMovesExactly(d: Desk, c: Call, id: int)
    requires id in d.rows
    ensures id in Next(d, c).rows
    ensures var t, t' := d.rows[id], Next(d, c).rows[id];
            && (t.status == New ==>
                  t'.status == if Owns(d, c, id) || Takes(c, id, Assign) || Takes(c, id, Pickup) then InProgress else New)
            && (t.status == InProgress ==>
                  t'.status == if Takes(c, id, Resolve) then Resolved else if Takes(c, id, Reject) then Closed else InProgress)
            && (t.status == Resolved ==>
                  t'.status == if Takes(c, id, Confirm) then Closed else if Takes(c, id, Reopen) then InProgress else Resolved)
            && (t.status == Closed ==>
                  t'.status == if Takes(c, id, Reopen) && MayReopen(t, c.actor) then InProgress else Closed)
  {
  }

  /** Who created ticket `id`, read off the calls: the first Create of that id. */
  function CreatorOf(calls: seq<Call>, id: int): Option<int>
  {
    if calls == [] then None
    else
      var before, last := CreatorOf(calls[..|calls| - 1], id), calls[|calls| - 1];
      if before.None? && last.op.Create? && last.op.id == id then Some(last.actor.id) else before
  }

  lemma CreatorStays(d: Desk, c: Call, id: int)
    ensures id in Next(d, c).rows <==> id in d.rows || (c.op.Create? && c.op.id == id)
    ensures id in d.rows ==> Next(d, c).rows[id].creator == d.rows[id].creator
    ensures id !in d.rows && c.op.Create? && c.op.id == id ==> Next(d, c).rows[id].creator == c.actor.id
  {
  }

  lemma {:induction false} CreatorIsRecorded(members: set<(int, int)>, calls: seq<Call>, id: int)
    ensures var d := Run(EmptyDesk(members), calls);
            && (id in d.rows <==> CreatorOf(calls, id).Some?)
            && (id in d.rows ==> CreatorOf(calls, id) == Some(d.rows[id].creator))
  {
    if calls != [] {
      var n := |calls| - 1;
      CreatorIsRecorded(members, calls[..n], id);
      assert calls == calls[..n] + [calls[n]];
      RunSnoc(EmptyDesk(members), calls[..n], calls[n]);
      CreatorStays(Run(EmptyDesk(members), calls[..n]), calls[n], id);
    }
  }

  /**
   MAIN RESULT. In any run, a call takes a ticket out of Closed if and only if it is a Reopen of that ticket by an admin or by the
   actor whose Create made it; the ticket is then in progress.
   */
  lemma OnlyAdminOrCreatorReopens(members: set<(int, int)>, calls: seq<Call>, c: Call, id: int)
    requires var d := Run(EmptyDesk(members), calls); id in d.rows && d.rows[id].status == Closed
    ensures var d' := Run(EmptyDesk(members), calls + [c]);
            && id in d'.rows
            && (d'.rows[id].status != Closed <==> Takes(c, id, Reopen) && (c.actor.admin || CreatorOf(calls, id) == Some(c.actor.id)))
            && (d'.rows[id].status != Closed ==> d'.rows[id].status == InProgress)
  {
    RunSnoc(EmptyDesk(members), calls, c);
    CreatorIsRecorded(members, calls, id);
    StatusMovesExactly(Run(EmptyDesk(members), calls), c, id);
  }

  /** The i-th call is a reopen by somebody who may. */
  ghost predicate GoodReopen(calls: seq<Call>, i: nat, e: Entry)
  {
    && i < |calls| && Takes(calls[i], e.ticket, Reopen) && calls[i].at == e.at
    && (calls[i].actor.admin || CreatorOf(calls[..i], e.ticket) == Some(calls[i].actor.id))
  }

  predicate Reopens(e: Entry) { e.event.StatusChanged? && e.event.from == Closed && e.event.next == InProgress }

  ghost predicate Warranted(calls: seq<Call>, e: Entry)
  {
    exists i: nat :: i < |calls| && GoodReopen(calls, i, e)
  }

  lemma WarrantGrows(calls: seq<Call>, c: Call, e: Entry)
    requires Warranted(calls, e)
    ensures Warranted(calls + [c], e)
  {
    var i: nat :| i < |calls| && GoodReopen(calls, i, e);
    assert (calls + [c])[..i] == calls[..i] && (calls + [c])[i] == calls[i];
    assert GoodReopen(calls + [c], i, e);
  }

  /** What a call appends. */
  lemma NewEntries(d: Desk, c: Call)
    ensures |d.log| <= |Next(d, c).log| && Next(d, c).log[..|d.log|] == d.log
    ensures forall k :: |d.log| <= k < |Next(d, c).log| && Reopens(Next(d, c).log[k]) ==>
              var e := Next(d, c).log[k];
              e.ticket in d.rows && d.rows[e.ticket].status == Closed && e.at == c.at
              && Takes(c, e.ticket, Reopen) && MayReopen(d.rows[e.ticket], c.actor)
  {
    if c.op.Transition? && Apply(d, c.actor, c.op, c.at).Some? {
      var path := Path(d.rows[c.op.id].status, c.op.action);
      PathEventsAre(c.op.id, c.at, d.rows[c.op.id].status, c.op.action);
    }
  }

  /** MAIN RESULT. In any run, every entry of the log from Closed to In Progress comes from such a call. */
  lemma {:induction false} ReopensAreWarranted(members: set<(int, int)>, calls: seq<Call>)
    ensures var d := Run(EmptyDesk(members), calls);
            forall k :: 0 <= k < |d.log| && Reopens(d.log[k]) ==> Warranted(calls, d.log[k])
  {
    if calls != [] {
      var n := |calls| - 1;
      var before := Run(EmptyDesk(members), calls[..n]);
      ReopensAreWarranted(members, calls[..n]);
      assert calls == calls[..n] + [calls[n]];
      RunSnoc(EmptyDesk(members), calls[..n], calls[n]);
      NewEntries(before, calls[n]);
      var d := Next(before, calls[n]);
      forall k | 0 <= k < |d.log| && Reopens(d.log[k]) ensures Warranted(calls, d.log[k]) {
        if k < |before.log| {
          assert d.log[k] == d.log[..|before.log|][k] == before.log[k];
          WarrantGrows(calls[..n], calls[n], d.log[k]);
        } else {
          CreatorIsRecorded(members, calls[..n], d.log[k].ticket);
          assert GoodReopen(calls, n, d.log[k]);
        }
      }
    }
  }

  // ---------------------------------------------------------------- the rest of the row

  /** A ticket starts new, with its creation as detection time unless its reporter may say otherwise. */
  lemma CreateStarts(d: Desk, c: Call)
    requires c.op.Create? && c.op.id !in d.rows
    ensures var t := Next(d, c).rows[c.op.id];
            && Next(d, c).rows == d.rows[c.op.id := t] && Next(d, c).drafts == d.drafts
            && t.status == New && t.creator == c.actor.id && t.queue == c.op.queue && t.fields == c.op.fields
            && t.createdAt == c.at && t.slaDueAt == c.op.slaDue
            && t.detectedAt == (if c.actor.detects && c.op.detected.Some? then c.op.detected else Some(c.at))
            && t.assignee == None && t.ackedAt == None && t.mitigatedAt == None && t.resolvedAt == None
            && t.notifiedAt == None && t.reopenCount == 0
    ensures Next(d, c).log == d.log + [Entry(c.op.id, c.at, Created)]
  {
  }

  /** MAIN RESULT. Every other column of a ticket changes only by the call that is meant to change it, and as it says. */
  lemma ColumnsMoveExactly(d: Desk, c: Call, id: int)
    requires id in d.rows
    ensures var t, t' := d.rows[id], Next(d, c).rows[id];
            && t'.creator == t.creator && t'.queue == t.queue && t'.createdAt == t.createdAt
            && t'.detectedAt == t.detectedAt && t'.slaDueAt == t.slaDueAt
            && (if c.op.TakeUp? && Owns(d, c, id) then t'.assignee == Some(c.actor.id)
                else if c.op.GiveTo? && Owns(d, c, id) then t'.assignee == Some(c.op.assignee)
                else if c.op.AutoAssign? && c.op.id == id then t'.assignee == Some(c.op.assignee)
                else t'.assignee == t.assignee)
            && t'.ackedAt == (if Owns(d, c, id) && t.ackedAt == None then Some(c.at) else t.ackedAt)
            && t'.mitigatedAt == (if c.op == Mitigate(id) && t.status == InProgress then Some(c.at) else t.mitigatedAt)
            && (forall f :: f in t'.fields <==> f in t.fields || (c.op.UpdateFields? && c.op.id == id && f in c.op.changed))
            && (forall f :: f in t'.fields ==>
                  t'.fields[f] == if c.op.UpdateFields? && c.op.id == id && f in c.op.changed then c.op.changed[f] else t.fields[f])
    ensures var t, t' := d.rows[id], Next(d, c).rows[id];
            var reopened := (t.status == Resolved && Takes(c, id, Reopen)) || (t.status == Closed && Takes(c, id, Reopen) && MayReopen(t, c.actor));
            && t'.reopenCount == t.reopenCount + (if reopened then 1 else 0)
            && t'.notifiedAt == (if reopened then None else t.notifiedAt)
            && t'.resolvedAt == (if reopened then None else if t.status == InProgress && Takes(c, id, Resolve) then Some(c.at) else t.resolvedAt)
  {
  }

  /** One call writes at most its own ticket's row, and its events are about that ticket, at its time. */
  lemma CallsStayAside(d: Desk, c: Call, id: int)
    requires id in d.rows && id != c.op.id
    ensures id in Next(d, c).rows && Next(d, c).rows[id] == d.rows[id]
  {
  }

  /** A change of owner, a mitigation and an edit are logged once, with what they did. */
  lemma PlainEntries(d: Desk, c: Call)
    requires c.op.id in d.rows
    ensures var id, log := c.op.id, Next(d, c).log;
            && (c.op.TakeUp? ==> log == if Owns(d, c, id) then d.log + [Entry(id, c.at, Assigned(c.actor.id))] else d.log)
            && (c.op.GiveTo? ==> log == if Owns(d, c, id) then d.log + [Entry(id, c.at, Assigned(c.op.assignee))] else d.log)
            && (c.op.Mitigate? ==> log == if d.rows[id].status == InProgress then d.log + [Entry(id, c.at, Mitigated)] else d.log)
            && (c.op.UpdateFields? ==> log == d.log + [Entry(id, c.at, FieldsUpdated)])
            && (c.op.AutoAssign? || c.op.Create? ==> log == d.log)
  {
  }

  // ---------------------------------------------------------------- the progress bar's first stages

  predicate WasMitigated(evs: seq<Entry>) { exists i :: 0 <= i < |evs| && evs[i].event.Mitigated? }
  predicate WasOwned(evs: seq<Entry>) { exists i :: 0 <= i < |evs| && evs[i].event.Assigned? }

  lemma {:induction false} ReplayAcks(evs: seq<Entry>)
    ensures Replay(evs).ackedAt.Some? <==> WasOwned(evs)
  {
    if evs != [] {
      var n := |evs| - 1;
      ReplayAcks(evs[..n]);
      if i :| 0 <= i < n && evs[i].event.Assigned? {
        assert evs[..n][i].event.Assigned?;
      }
      if i :| 0 <= i < n && evs[..n][i].event.Assigned? {
        assert evs[i].event.Assigned?;
      }
    }
  }

  lemma MitigatedAppends(evs: seq<Entry>, more: seq<Entry>)
    ensures WasMitigated(evs + more) <==> WasMitigated(evs) || WasMitigated(more)
  {
    var all := evs + more;
    if i :| 0 <= i < |evs| && evs[i].event.Mitigated? { assert all[i].event.Mitigated?; }
    if i :| 0 <= i < |more| && more[i].event.Mitigated? { assert all[|evs| + i].event.Mitigated?; }
    if i :| 0 <= i < |all| && all[i].event.Mitigated? {
      assert i < |evs| ==> evs[i] == all[i];
      assert i >= |evs| ==> more[i - |evs|] == all[i];
    }
  }

  lemma CallKeepsMitigation(d: Desk, c: Call, id: int)
    requires id in d.rows ==> (d.rows[id].mitigatedAt.Some? <==> WasMitigated(EventsOf(d.log, id)))
    requires id !in d.rows ==> EventsOf(d.log, id) == []
    ensures var d' := Next(d, c);
            && (id in d'.rows ==> (d'.rows[id].mitigatedAt.Some? <==> WasMitigated(EventsOf(d'.log, id))))
            && (id !in d'.rows ==> EventsOf(d'.log, id) == [])
  {
    if Apply(d, c.actor, c.op, c.at).Some? && !c.op.AutoAssign? {
      if c.op.Transition? {
        MoveKeepsMitigation(d, c, id);
      } else {
        var e := Next(d, c).log[|d.log|];
        assert Next(d, c).log == d.log + [e];
        EventsSnoc(d.log, e, id);
        MitigatedAppends(EventsOf(d.log, id), [e]);
        assert WasMitigated([e]) <==> e.event.Mitigated? by { assert [e][0] == e; }
      }
    }
  }

  lemma PathMitigatesNothing(id: int, at: int, from: Status, path: seq<Status>, action: Action)
    ensures !WasMitigated(PathEvents(id, at, from, path, action))
    decreases path
  {
    if path != [] {
      PathMitigatesNothing(id, at, path[0], path[1..], action);
      MitigatedAppends([Entry(id, at, StatusChanged(from, path[0], action))], PathEvents(id, at, path[0], path[1..], action));
    }
  }

  lemma MoveLogs(d: Desk, c: Call, id: int)
    requires c.op.Transition? && Apply(d, c.actor, c.op, c.at).Some?
    ensures WasMitigated(EventsOf(Next(d, c).log, id)) <==> WasMitigated(EventsOf(d.log, id))
    ensures id != c.op.id ==> EventsOf(Next(d, c).log, id) == EventsOf(d.log, id)
  {
    var from := d.rows[c.op.id].status;
    var path := Path(from, c.op.action);
    var more := PathEvents(c.op.id, c.at, from, path, c.op.action);
    PathEventsOwn(c.op.id, c.at, from, path, c.op.action);
    PathMitigatesNothing(c.op.id, c.at, from, path, c.op.action);
    EventsAppend(d.log, more, c.op.id, id);
    MitigatedAppends(EventsOf(d.log, id), more);
  }

  lemma MoveKeepsMitigation(d: Desk, c: Call, id: int)
    requires c.op.Transition? && Apply(d, c.actor, c.op, c.at).Some?
    requires id in d.rows ==> (d.rows[id].mitigatedAt.Some? <==> WasMitigated(EventsOf(d.log, id)))
    requires id !in d.rows ==> EventsOf(d.log, id) == []
    ensures var d' := Next(d, c);
            && (id in d'.rows ==> (d'.rows[id].mitigatedAt.Some? <==> WasMitigated(EventsOf(d'.log, id))))
            && (id !in d'.rows ==> EventsOf(d'.log, id) == [])
  {
    MoveLogs(d, c, id);
    if id in d.rows { ColumnsMoveExactly(d, c, id); }
  }

  lemma {:induction false} MitigationIsLogged(members: set<(int, int)>, calls: seq<Call>, id: int)
    ensures var d := Run(EmptyDesk(members), calls);
            && (id in d.rows ==> (d.rows[id].mitigatedAt.Some? <==> WasMitigated(EventsOf(d.log, id))))
            && (id !in d.rows ==> EventsOf(d.log, id) == [])
  {
    if calls != [] {
      var n := |calls| - 1;
      MitigationIsLogged(members, calls[..n], id);
      assert calls == calls[..n] + [calls[n]];
      RunSnoc(EmptyDesk(members), calls[..n], calls[n]);
      CallKeepsMitigation(Run(EmptyDesk(members), calls[..n]), calls[n], id);
    }
  }

  /**
   MAIN RESULT. Every stage of the bar, read off the log: Resolve while resolved or closed by confirmation; before that, or again
   after a reopen, Mitigate once the ticket was ever mitigated, Ack once somebody ever owned it, and Detect until then.
   */
  lemma StagesAreRight(members: set<(int, int)>, calls: seq<Call>, now: int, id: int)
    requires Chronological(calls, now) && id in Run(EmptyDesk(members), calls).rows
    ensures var d := Run(EmptyDesk(members), calls);
            var t, evs := d.rows[id], EventsOf(d.log, id);
            var bar := StageProgress(t);
            bar.Shown? ==>
              && bar.closed == (t.status == Closed) && bar.reopenCount == t.reopenCount
              && bar.stage == if t.status == Resolved || t.status == Closed then 3
                              else if WasMitigated(evs) then 2 else if WasOwned(evs) then 1 else 0
  {
    StageBarIsRight(members, calls, now, id);
    LogTellsTheTicket(members, calls, now, id);
    MitigationIsLogged(members, calls, id);
    ReplayAcks(EventsOf(Run(EmptyDesk(members), calls).log, id));
  }
}
