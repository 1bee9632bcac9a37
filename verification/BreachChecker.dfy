/** The breach checker as it is written: claim, read back, record, and drain the backlog. */
module BreachChecker {
  import opened Common
  import opened Tickets
  import opened Breach

  /** No stamp is as late as `now`: claim times strictly increase. */
  ghost predicate Unstamped(rows: map<int, Ticket>, now: int)
  {
    forall id :: id in rows && rows[id].notifiedAt.Some? ==> rows[id].notifiedAt.value < now
  }

  ghost function Open(rows: map<int, Ticket>): set<int>
  {
    set id | id in rows && rows[id].notifiedAt.None?
  }

  /** Only unset stamps were set, and exactly the tickets that got one were alerted, each once. */
  ghost predicate Drained(before: map<int, Ticket>, rows: map<int, Ticket>, sent: seq<int>, alerts: seq<int>)
  {
    && rows.Keys == before.Keys
    && (forall id :: id in rows ==> rows[id].(notifiedAt := None) == before[id].(notifiedAt := None))
    && (forall id :: id in rows && before[id].notifiedAt.Some? ==> rows[id] == before[id])
    && (forall id :: Count(alerts, id) == Count(sent, id) +
          if id in rows && rows[id].notifiedAt != before[id].notifiedAt then 1 else 0)
  }

  lemma DrainStep(before: map<int, Ticket>, rows: map<int, Ticket>, sent: seq<int>, alerts: seq<int>, id: int, at: int)
    requires Drained(before, rows, sent, alerts) && id in rows && rows[id].notifiedAt.None?
    ensures Drained(before, Stamp(rows, id, at), sent, alerts + [id])
    ensures Open(Stamp(rows, id, at)) < Open(rows)
  {
    forall j ensures Count(alerts + [id], j) == Count(alerts, j) + if j == id then 1 else 0 {
      CountSnoc(alerts, id, j);
    }
    assert id in Open(rows) && id !in Open(Stamp(rows, id, at));
  }

  /** Alerted after its time had passed, and not closed. */
  predicate WasDue(t: Ticket)
  {
    t.status != Closed && t.slaDueAt.Some? && t.notifiedAt.Some? && t.slaDueAt.value < t.notifiedAt.value
  }

  class BreachChecker {
    var rows: map<int, Ticket>
    var log: seq<Entry>
    var alerts: seq<int>

    /** `TicketRepo.ClaimNextBreach`: stamp one row, then look it up by the stamp. */
    method ClaimNextBreach(now: int) returns (claimed: Option<int>)
      modifies this`rows
      ensures claimed.None? ==> rows == old(rows) && forall id :: id in rows ==> !Eligible(rows[id], now)
      ensures claimed.Some? ==>
                exists id :: IsFirstEligible(old(rows), id, now) && rows == Stamp(old(rows), id, now)
                          && IsLastStamped(rows, claimed.value, now)
    {
      if t :| t in rows && Eligible(rows[t], now) {
        var due := set id | id in rows && Eligible(rows[id], now);
        LeastExists(due, t);
        var m :| IsLeast(m, due);
        forall j | j in rows && Eligible(rows[j], now) ensures m <= j {
          assert j in due;
        }
        assert IsFirstEligible(rows, m, now);
        rows := rows[m := rows[m].(notifiedAt := Some(now))];
        var back := ReadBackStamp(m, now);
        claimed := Some(back);
      } else {
        claimed := None;
      }
    }

    /** The SELECT by stamp, ordered by id descending; `known` is a row it can find. */
    method ReadBackStamp(ghost known: int, at: int) returns (id: int)
      requires known in rows && rows[known].notifiedAt == Some(at)
      ensures IsLastStamped(rows, id, at)
    {
      var negated := set j | j in rows && rows[j].notifiedAt == Some(at) :: -j;
      assert -known in negated;
      LeastExists(negated, -known);
      var m :| IsLeast(m, negated);
      id := -m;
      forall j | j in rows && rows[j].notifiedAt == Some(at) ensures j <= id {
        assert -j in negated;
      }
    }

    method ProcessOne(now: int) returns (found: bool)
      requires Unstamped(rows, now)
      modifies this
      ensures !found ==> rows == old(rows) && log == old(log) && alerts == old(alerts)
                         && forall id :: id in rows ==> !Overdue(rows[id], now)
      ensures found ==> exists id :: id in old(rows) && Overdue(old(rows)[id], now)
      ensures found ==> exists id :: IsFirstEligible(old(rows), id, now) && rows == Stamp(old(rows), id, now)
                                  && alerts == old(alerts) + [id] && log == old(log) + [Entry(id, now, SlaBreached)]
    {
      var claimed := ClaimNextBreach(now);
      if claimed.None? {
        return false;
      }
      ghost var id :| IsFirstEligible(old(rows), id, now) && rows == Stamp(old(rows), id, now);
      assert claimed.value == id;
      log := log + [Entry(claimed.value, now, SlaBreached)];
      alerts := alerts + [claimed.value];
      found := true;
    }

    /**
     The drain loop of `Run`, with `clock(i)` the time of its i-th pass: it ends, leaves nothing eligible at its
     last claim time, and alerts exactly the tickets it stamped, each once.
     */
    method Drain(clock: nat -> int) returns (passes: nat)
      requires forall i, j :: 0 <= i < j ==> clock(i) < clock(j)
      requires Unstamped(rows, clock(0))
      modifies this
      ensures passes > 0
      ensures forall id :: id in rows && rows[id].status != Closed && rows[id].slaDueAt.Some? ==>
                rows[id].slaDueAt.value < clock(passes - 1) ==> rows[id].notifiedAt.Some?
      ensures Drained(old(rows), rows, old(alerts), alerts)
      ensures forall id :: id in rows && rows[id].notifiedAt != old(rows)[id].notifiedAt ==>
                WasDue(rows[id]) && rows[id].notifiedAt.value < clock(passes - 1)
    {
      passes := 0;
      var found := true;
      while found
        invariant found ==> Unstamped(rows, clock(passes))
        invariant !found ==> passes > 0 && forall id :: id in rows ==> !Eligible(rows[id], clock(passes - 1))
        invariant Drained(old(rows), rows, old(alerts), alerts)
        invariant forall id :: id in rows && rows[id].notifiedAt != old(rows)[id].notifiedAt ==>
                    && WasDue(rows[id])
                    && (if found then rows[id].notifiedAt.value < clock(passes) else rows[id].notifiedAt.value < clock(passes - 1))
        decreases found, Open(rows)
      {
        ghost var before, sent := rows, alerts;
        assert clock(passes) < clock(passes + 1);
        found := ProcessOne(clock(passes));
        if found {
          ghost var id :| IsFirstEligible(before, id, clock(passes)) && rows == Stamp(before, id, clock(passes)) && alerts == sent + [id];
          DrainStep(old(rows), before, old(alerts), sent, id, clock(passes));
        }
        passes := passes + 1;
      }
    }
  }

  /**
   The exact condition for one claim: it reads its own ticket back if and only if no later ticket carries the same
   stamp, and otherwise it reads one of those. Strictly increasing claim times rule that out.
   */
  lemma ReadBackOwnIff(rows: map<int, Ticket>, id: int, now: int)
    requires IsFirstEligible(rows, id, now)
    ensures IsLastStamped(Stamp(rows, id, now), id, now)
            <==> forall j :: j in rows && rows[j].notifiedAt == Some(now) ==> j < id
    ensures forall other :: other != id && IsLastStamped(Stamp(rows, id, now), other, now) ==>
              other > id && other in rows && rows[other].notifiedAt == Some(now)
    ensures Unstamped(rows, now) ==> IsLastStamped(Stamp(rows, id, now), id, now)
  {
    var after := Stamp(rows, id, now);
    forall j | j in rows && j != id ensures after[j] == rows[j] { }
    if j :| j in rows && rows[j].notifiedAt == Some(now) && j >= id {
      assert j != id && after[j].notifiedAt == Some(now);
    }
  }
}
