/**
 SLA breach alerts: an atomic claim that stamps the oldest overdue ticket, a separate read-back by that stamp, and
 the ticket service running in between (internal/repo/ticket.go, internal/service/sla_breach.go).
 */
module Breach {
  import opened Common
  import opened Tickets

  predicate Eligible(t: Ticket, now: int)
  {
    t.slaDueAt.Some? && t.slaDueAt.value < now && t.notifiedAt.None? && t.status != Closed
  }

  ghost predicate IsFirstEligible(rows: map<int, Ticket>, id: int, now: int)
  {
    id in rows && Eligible(rows[id], now) && forall j :: j in rows && Eligible(rows[j], now) ==> id <= j
  }

  /** The row the read-back returns: the newest one with this stamp. */
  ghost predicate IsLastStamped(rows: map<int, Ticket>, id: int, at: int)
  {
    id in rows && rows[id].notifiedAt == Some(at) && forall j :: j in rows && rows[j].notifiedAt == Some(at) ==> j <= id
  }

  // ---------------------------------------------------------------- interleaved checkers

  /** A checker between claim and read-back: it knows `at`; `ticket` records which row its claim stamped. */
  datatype Claim = Claim(at: int, ticket: int)

  datatype Event = Claimed(id: int) | Alerted(id: int)

  datatype World = World(desk: Desk, clock: int, waiting: map<int, Claim>, trace: seq<Event>)

  datatype Label =
    | Serve(call: Call)
    | ClaimNext(w: int, at: int)
    | ReadBack(w: int)

  ghost predicate Enabled(s: World, l: Label)
  {
    match l
    case Serve(call) => s.clock <= call.at
    case ClaimNext(w, at) => w !in s.waiting && s.clock < at
    case ReadBack(w) => w in s.waiting
  }

  function Stamp(rows: map<int, Ticket>, id: int, at: int): map<int, Ticket>
    requires id in rows
  {
    rows[id := rows[id].(notifiedAt := Some(at))]
  }

  /** The claim of checker `w` at time `at` stamps ticket `id`. */
  function Taken(s: World, w: int, at: int, id: int): World
    requires id in s.desk.rows
  {
    World(s.desk.(rows := Stamp(s.desk.rows, id, at)), at, s.waiting[w := Claim(at, id)], s.trace + [Claimed(id)])
  }

  ghost function Apply(s: World, l: Label): World
    requires Enabled(s, l)
  {
    match l
    case Serve(call) =>
      s.(desk := Tickets.Apply(s.desk, call.actor, call.op, call.at).GetOr(s.desk), clock := call.at)
    case ClaimNext(w, at) =>
      if exists id :: IsFirstEligible(s.desk.rows, id, at) then
        var id :| IsFirstEligible(s.desk.rows, id, at);
        Taken(s, w, at, id)
      else s.(clock := at)
    case ReadBack(w) =>
      if exists id :: IsLastStamped(s.desk.rows, id, s.waiting[w].at) then
        var id :| IsLastStamped(s.desk.rows, id, s.waiting[w].at);
        s.(desk := s.desk.(log := s.desk.log + [Entry(id, s.clock, SlaBreached)]),
           waiting := s.waiting - {w}, trace := s.trace + [Alerted(id)])
      else s.(waiting := s.waiting - {w})
  }

  ghost predicate Valid(s: World, ls: seq<Label>)
    decreases ls
  {
    ls == [] || (Enabled(s, ls[0]) && Valid(Apply(s, ls[0]), ls[1..]))
  }

  ghost function Run(s: World, ls: seq<Label>): World
    requires Valid(s, ls)
    decreases ls
  {
    if ls == [] then s else Run(Apply(s, ls[0]), ls[1..])
  }

  // ---------------------------------------------------------------- the invariant

  /** Stamps lie in the past and are all different; a claim in flight can only read its own ticket back. */
  ghost predicate StampInv(s: World)
  {
    var rows := s.desk.rows;
    && (forall id :: id in rows ==> Before(rows[id].notifiedAt, s.clock))
    && (forall id, j :: id in rows && j in rows && rows[id].notifiedAt.Some? && rows[id].notifiedAt == rows[j].notifiedAt ==> id == j)
    && (forall w :: w in s.waiting ==> s.waiting[w].at <= s.clock && s.waiting[w].ticket in rows)
    && (forall w, id :: w in s.waiting && id in rows && rows[id].notifiedAt == Some(s.waiting[w].at) ==> id == s.waiting[w].ticket)
  }

  function ForTicket(id: int): Claim -> bool { (c: Claim) => c.ticket == id }

  /** Claims are paid for by reopens and by the stamp that is set now; alerts are paid for by claims. */
  ghost predicate AlertInv(s: World, id: int)
  {
    AlertsPaid(s.trace, s.waiting, id) && ClaimsPaid(s.trace, s.desk.rows, id)
  }

  ghost predicate AlertsPaid(trace: seq<Event>, waiting: map<int, Claim>, id: int)
  {
    Count(trace, Alerted(id)) + |Where(waiting, ForTicket(id))| <= Count(trace, Claimed(id))
  }

  ghost predicate ClaimsPaid(trace: seq<Event>, rows: map<int, Ticket>, id: int)
  {
    Count(trace, Claimed(id)) <=
      if id in rows then rows[id].reopenCount + (if rows[id].notifiedAt.Some? then 1 else 0) else 0
  }

  /** A service call creates a row without a stamp, or keeps a row's stamp, or pays for clearing it with a reopen. */
  lemma ServeKeepsStamps(d: Desk, call: Call, id: int)
    ensures var d' := Tickets.Apply(d, call.actor, call.op, call.at).GetOr(d);
            && (id in d.rows ==> id in d'.rows)
            && (id in d'.rows && id !in d.rows ==> d'.rows[id].notifiedAt.None?)
            && (id in d.rows && d'.rows[id].notifiedAt != d.rows[id].notifiedAt ==>
                  d'.rows[id].notifiedAt.None? && d'.rows[id].reopenCount == d.rows[id].reopenCount + 1)
            && (id in d.rows ==> d'.rows[id].reopenCount >= d.rows[id].reopenCount)
  {
  }

  lemma ServeKeepsInv(s: World, call: Call)
    requires StampInv(s) && (forall id :: AlertInv(s, id)) && Enabled(s, Serve(call))
    ensures StampInv(Apply(s, Serve(call))) && forall id :: AlertInv(Apply(s, Serve(call)), id)
  {
    var s' := Apply(s, Serve(call));
    forall id ensures id in s.desk.rows ==> id in s'.desk.rows
              ensures id in s'.desk.rows && s'.desk.rows[id].notifiedAt.Some? ==>
                        id in s.desk.rows && s.desk.rows[id].notifiedAt == s'.desk.rows[id].notifiedAt
              ensures AlertInv(s', id)
    {
      ServeKeepsStamps(s.desk, call, id);
      assert AlertInv(s, id);
    }
  }

  lemma ClaimHits(s: World, w: int, at: int) returns (hit: Option<int>)
    requires Enabled(s, ClaimNext(w, at))
    ensures hit.None? ==> Apply(s, ClaimNext(w, at)) == s.(clock := at)
    ensures hit.Some? ==> hit.value in s.desk.rows && s.desk.rows[hit.value].notifiedAt.None?
                          && Apply(s, ClaimNext(w, at)) == Taken(s, w, at, hit.value)
  {
    var s' := Apply(s, ClaimNext(w, at));
    hit := if s'.trace == s.trace then None else Some(s'.waiting[w].ticket);
  }

  lemma TakingKeepsStamps(s: World, w: int, at: int, hit: int)
    requires StampInv(s) && s.clock < at && w !in s.waiting && hit in s.desk.rows
    ensures StampInv(Taken(s, w, at, hit))
  {
  }

  lemma TakingKeepsAlerts(s: World, w: int, at: int, hit: int, id: int)
    requires AlertInv(s, id) && w !in s.waiting && hit in s.desk.rows && s.desk.rows[hit].notifiedAt.None?
    ensures AlertInv(Taken(s, w, at, hit), id)
  {
    ClaimPaysAlert(s.trace, s.waiting, w, at, hit, id);
    CountSnoc(s.trace, Claimed(hit), Claimed(id));
  }

  lemma ClaimPaysAlert(trace: seq<Event>, waiting: map<int, Claim>, w: int, at: int, hit: int, id: int)
    requires AlertsPaid(trace, waiting, id) && w !in waiting
    ensures AlertsPaid(trace + [Claimed(hit)], waiting[w := Claim(at, hit)], id)
  {
    CountSnoc(trace, Claimed(hit), Claimed(id));
    CountSnoc(trace, Claimed(hit), Alerted(id));
    WhereUpdate(waiting, ForTicket(id), w, Claim(at, hit));
  }

  lemma ClaimKeepsInv(s: World, w: int, at: int)
    requires StampInv(s) && (forall id :: AlertInv(s, id)) && Enabled(s, ClaimNext(w, at))
    ensures StampInv(Apply(s, ClaimNext(w, at))) && forall id :: AlertInv(Apply(s, ClaimNext(w, at)), id)
  {
    var hit := ClaimHits(s, w, at);
    if hit.Some? {
      TakingKeepsStamps(s, w, at, hit.value);
      forall id ensures AlertInv(Taken(s, w, at, hit.value), id) {
        TakingKeepsAlerts(s, w, at, hit.value, id);
      }
    } else {
      forall id ensures AlertInv(s.(clock := at), id) {
        assert AlertInv(s, id);
      }
    }
  }

  lemma WhereRemove(m: map<int, Claim>, id: int, w: int)
    requires w in m
    ensures |Where(m - {w}, ForTicket(id))| == |Where(m, ForTicket(id))| - if m[w].ticket == id then 1 else 0
  {
    if m[w].ticket == id {
      assert Where(m - {w}, ForTicket(id)) == Where(m, ForTicket(id)) - {w};
    } else {
      assert Where(m - {w}, ForTicket(id)) == Where(m, ForTicket(id));
    }
  }

  lemma ReadBackKeepsInv(s: World, w: int)
    requires StampInv(s) && (forall id :: AlertInv(s, id)) && Enabled(s, ReadBack(w))
    ensures StampInv(Apply(s, ReadBack(w))) && forall id :: AlertInv(Apply(s, ReadBack(w)), id)
  {
    var s' := Apply(s, ReadBack(w));
    forall id ensures AlertInv(s', id) {
      assert AlertInv(s, id);
      WhereRemove(s.waiting, id, w);
      if s'.trace != s.trace {
        CountSnoc(s.trace, Alerted(s.waiting[w].ticket), Claimed(id));
        CountSnoc(s.trace, Alerted(s.waiting[w].ticket), Alerted(id));
        assert s'.trace == s.trace + [Alerted(s.waiting[w].ticket)];
      }
    }
  }

  lemma {:induction false} RunKeepsInv(s: World, ls: seq<Label>)
    requires StampInv(s) && (forall id :: AlertInv(s, id)) && Valid(s, ls)
    ensures StampInv(Run(s, ls)) && forall id :: AlertInv(Run(s, ls), id)
    decreases ls
  {
    if ls != [] {
      match ls[0] {
        case Serve(call) => ServeKeepsInv(s, call);
        case ClaimNext(w, at) => ClaimKeepsInv(s, w, at);
        case ReadBack(w) => ReadBackKeepsInv(s, w);
      }
      RunKeepsInv(Apply(s, ls[0]), ls[1..]);
    }
  }

  function Start(members: set<(int, int)>, now: int): World { World(EmptyDesk(members), now, map[], []) }

  lemma StartInv(members: set<(int, int)>, now: int)
    ensures StampInv(Start(members, now)) && forall id :: AlertInv(Start(members, now), id)
  {
    forall id ensures AlertInv(Start(members, now), id) {
      assert Where(Start(members, now).waiting, ForTicket(id)) == {};
    }
  }

  /** MAIN RESULT. In every interleaving a ticket is alerted at most once per reopen, plus once if it is stamped now. */
  lemma AlertsAreConserved(members: set<(int, int)>, now: int, ls: seq<Label>, id: int)
    requires Valid(Start(members, now), ls)
    ensures var s := Run(Start(members, now), ls);
            Count(s.trace, Alerted(id)) <=
              if id in s.desk.rows
              then s.desk.rows[id].reopenCount + (if s.desk.rows[id].notifiedAt.Some? then 1 else 0)
              else 0
  {
    StartInv(members, now);
    RunKeepsInv(Start(members, now), ls);
    assert AlertInv(Run(Start(members, now), ls), id);
  }

  /** MAIN RESULT. A read-back returns the ticket its own claim stamped, or nothing, and nothing only after a reopen. */
  lemma ReadBackIsOwn(members: set<(int, int)>, now: int, ls: seq<Label>, w: int)
    requires Valid(Start(members, now), ls) && w in Run(Start(members, now), ls).waiting
    ensures var s := Run(Start(members, now), ls);
            var claim := s.waiting[w];
            && (forall id :: IsLastStamped(s.desk.rows, id, claim.at) ==> id == claim.ticket)
            && ((forall id :: !IsLastStamped(s.desk.rows, id, claim.at)) ==>
                  claim.ticket in s.desk.rows && s.desk.rows[claim.ticket].notifiedAt != Some(claim.at))
  {
    StartInv(members, now);
    RunKeepsInv(Start(members, now), ls);
    var s := Run(Start(members, now), ls);
    var claim := s.waiting[w];
    if s.desk.rows[claim.ticket].notifiedAt == Some(claim.at) {
      assert IsLastStamped(s.desk.rows, claim.ticket, claim.at);
    }
  }

  // ---------------------------------------------------------------- who is alerted

  /** Overdue at `at`, not alerted yet, and not closed. */
  predicate Overdue(t: Ticket, at: int)
  {
    t.status != Closed && t.notifiedAt == None && t.slaDueAt.Some? && t.slaDueAt.value < at
  }

  /** MAIN RESULT. A claim takes a ticket exactly when one is overdue, and then the first of them, stamping nothing else. */
  lemma ClaimsTakeTheOverdue(s: World, w: int, at: int)
    requires Enabled(s, ClaimNext(w, at))
    ensures var s' := Apply(s, ClaimNext(w, at));
            && (s'.trace != s.trace <==> exists id :: id in s.desk.rows && Overdue(s.desk.rows[id], at))
            && (s'.trace == s.trace ==> s'.desk == s.desk && s'.waiting == s.waiting)
            && (s'.trace != s.trace ==>
                  w in s'.waiting && s'.waiting[w].at == at &&
                  var id := s'.waiting[w].ticket;
                  && s'.trace == s.trace + [Claimed(id)]
                  && id in s.desk.rows && Overdue(s.desk.rows[id], at)
                  && (forall j :: j in s.desk.rows && Overdue(s.desk.rows[j], at) ==> id <= j)
                  && s'.desk.rows == s.desk.rows[id := s.desk.rows[id].(notifiedAt := Some(at))])
  {
    var rows := s.desk.rows;
    if y :| y in rows && Overdue(rows[y], at) {
      var due := set id | id in rows && Eligible(rows[id], at);
      LeastExists(due, y);
      var m :| IsLeast(m, due);
      forall j | j in rows && Eligible(rows[j], at) ensures m <= j {
        assert j in due;
      }
      assert IsFirstEligible(rows, m, at);
    }
    var hit := ClaimHits(s, w, at);
  }

  ghost predicate StampsWereDue(s: World)
  {
    forall id :: id in s.desk.rows && s.desk.rows[id].notifiedAt.Some? ==>
      s.desk.rows[id].slaDueAt.Some? && s.desk.rows[id].slaDueAt.value < s.desk.rows[id].notifiedAt.value
  }

  lemma ServeKeepsDue(d: Desk, call: Call, id: int)
    ensures var d' := Tickets.Apply(d, call.actor, call.op, call.at).GetOr(d);
            && (id in d.rows ==>
                  && id in d'.rows && d'.rows[id].slaDueAt == d.rows[id].slaDueAt
                  && (d'.rows[id].notifiedAt == d.rows[id].notifiedAt || d'.rows[id].notifiedAt.None?))
            && (id in d'.rows && id !in d.rows ==> d'.rows[id].notifiedAt.None?)
  {
  }

  lemma StepKeepsDue(s: World, l: Label)
    requires StampsWereDue(s) && Enabled(s, l)
    ensures StampsWereDue(Apply(s, l))
  {
    if l.Serve? {
      forall id ensures var d' := Apply(s, l).desk;
                        && (id in s.desk.rows ==>
                              && id in d'.rows && d'.rows[id].slaDueAt == s.desk.rows[id].slaDueAt
                              && (d'.rows[id].notifiedAt == s.desk.rows[id].notifiedAt || d'.rows[id].notifiedAt.None?))
                        && (id in d'.rows && id !in s.desk.rows ==> d'.rows[id].notifiedAt.None?)
      {
        ServeKeepsDue(s.desk, l.call, id);
      }
    } else if l.ClaimNext? {
      ClaimsTakeTheOverdue(s, l.w, l.at);
    }
  }

  /** MAIN RESULT. In every run, a ticket that carries an alert's stamp was due before the time it was stamped with. */
  lemma {:induction false} NobodyIsAlertedEarly(s: World, ls: seq<Label>)
    requires StampsWereDue(s) && Valid(s, ls)
    ensures StampsWereDue(Run(s, ls))
    decreases ls
  {
    if ls != [] {
      StepKeepsDue(s, ls[0]);
      NobodyIsAlertedEarly(Apply(s, ls[0]), ls[1..]);
    }
  }

  lemma ServeKeepsDesk(s: World, call: Call)
    requires DeskInv(s.desk, s.clock) && Enabled(s, Serve(call))
    ensures DeskInv(Apply(s, Serve(call)).desk, call.at)
  {
    if Tickets.Apply(s.desk, call.actor, call.op, call.at).Some? {
      OpKeepsInv(s.desk, call.actor, call.op, s.clock, call.at);
    } else {
      IdleKeepsDesk(s.desk, s.clock, call.at);
    }
  }

  /** A stamp is not part of what the log tells. */
  lemma ClaimKeepsDesk(s: World, w: int, at: int)
    requires DeskInv(s.desk, s.clock) && Enabled(s, ClaimNext(w, at))
    ensures DeskInv(Apply(s, ClaimNext(w, at)).desk, at)
  {
    var hit := ClaimHits(s, w, at);
    IdleKeepsDesk(s.desk, s.clock, at);
    if hit.Some? {
      var d' := Taken(s, w, at, hit.value).desk;
      forall id | id in d'.rows ensures TicketInv(d'.rows[id], EventsOf(d'.log, id), at) {
        assert TicketInv(s.desk.rows[id], EventsOf(s.desk.log, id), at);
      }
    }
  }

  lemma AlertKeepsDesk(d: Desk, id: int, now: int)
    requires DeskInv(d, now) && id in d.rows
    ensures DeskInv(d.(log := d.log + [Entry(id, now, SlaBreached)]), now)
  {
    var e := Entry(id, now, SlaBreached);
    AppendPlain(d.rows[id], EventsOf(d.log, id), e, now);
    assert d.rows == d.rows[id := d.rows[id]];
    ReplaceKeepsInv(d, d.(log := d.log + [e]), id, [e], now, now);
  }

  /** Breach checks leave what the log says about tickets intact. */
  lemma {:induction false} RunKeepsDesk(s: World, ls: seq<Label>)
    requires DeskInv(s.desk, s.clock) && Valid(s, ls)
    ensures DeskInv(Run(s, ls).desk, Run(s, ls).clock)
    decreases ls
  {
    if ls != [] {
      match ls[0] {
        case Serve(call) => ServeKeepsDesk(s, call);
        case ClaimNext(w, at) => ClaimKeepsDesk(s, w, at);
        case ReadBack(w) =>
          var d' := Apply(s, ls[0]).desk;
          if d' != s.desk {
            AlertKeepsDesk(s.desk, d'.log[|s.desk.log|].ticket, s.clock);
          }
      }
      RunKeepsDesk(Apply(s, ls[0]), ls[1..]);
    }
  }

  lemma IdleKeepsDesk(d: Desk, now: int, at: int)
    requires DeskInv(d, now) && now <= at
    ensures DeskInv(d, at)
  {
    forall id | id in d.rows ensures TicketInv(d.rows[id], EventsOf(d.log, id), at) {
      Later(d.rows[id], EventsOf(d.log, id), now, at);
    }
  }
}
