/**
 The AI ticket panel: snapshots regenerated by a model, with human edits locking fields, and any number of model calls
 in flight (internal/service/aisummary.go).
 */
module Summary {
  import opened Common

  const FIELD_ORDER := ["symptom", "what_tried", "problem_statement", "diagnosis", "mitigation", "resolution"]

  type Fields = map<string, string>

  datatype Source = Ai | HumanEdit

  datatype Snapshot = Snapshot(source: Source, fields: Fields, locked: seq<string>)

  predicate ValidField(field: string) { field in FIELD_ORDER }

  function Without(ss: seq<string>, v: string): seq<string>
  {
    if ss == [] then []
    else
      var rest := Without(ss[..|ss| - 1], v);
      if ss[|ss| - 1] == v then rest else rest + [ss[|ss| - 1]]
  }

  /** Locked fields of the previous snapshot win over new ones. */
  function Merge(reply: Fields, prev: Fields, locked: seq<string>): Fields
  {
    reply + (map k | k in locked && k in prev :: prev[k])
  }

  lemma MergeSnoc(reply: Fields, prev: Fields, locked: seq<string>, k: string)
    ensures Merge(reply, prev, locked + [k])
         == if k in prev then Merge(reply, prev, locked)[k := prev[k]] else Merge(reply, prev, locked)
  {
    var all, some := Merge(reply, prev, locked + [k]), Merge(reply, prev, locked);
    assert forall x :: x in locked + [k] <==> x in locked || x == k;
    if k !in prev {
      assert all == some;
    }
  }

  const NOTHING := Snapshot(Ai, map[], [])

  /** What the service reads as the latest state; a failed read is taken for a panel never generated. */
  function Base(history: seq<Snapshot>, readOk: bool): Snapshot
  {
    if readOk && history != [] then history[|history| - 1] else NOTHING
  }

  function Regenerated(base: Snapshot, reply: Fields): Snapshot
  {
    Snapshot(Ai, Merge(reply, base.fields, base.locked), base.locked)
  }

  function Edited(base: Snapshot, field: string, value: string): Snapshot
  {
    Snapshot(HumanEdit, base.fields[field := value], if field in base.locked then base.locked else base.locked + [field])
  }

  function FieldRegenerated(base: Snapshot, field: string, reply: Fields): Snapshot
  {
    Snapshot(Ai, base.fields[field := if field in reply then reply[field] else ""], Without(base.locked, field))
  }

  // ---------------------------------------------------------------- calls in flight

  datatype Request = Panel | OneField(field: string)

  datatype World = World(history: seq<Snapshot>, flights: map<int, Request>)

  datatype Label =
    | Ask(c: int, request: Request)
    | Land(c: int, reply: Fields, readOk: bool) // the reply has arrived: read latest and persist, in one step
    | Lose(c: int)                              // the model failed or its reply was not JSON
    | Edit(field: string, value: string, readOk: bool)

  predicate Enabled(s: World, l: Label)
  {
    match l
    case Ask(c, request) => c !in s.flights && (request.OneField? ==> ValidField(request.field))
    case Land(c, _, _) => c in s.flights
    case Lose(c) => c in s.flights
    case Edit(field, _, _) => ValidField(field)
  }

  function Apply(s: World, l: Label): World
    requires Enabled(s, l)
  {
    match l
    case Ask(c, request) => s.(flights := s.flights[c := request])
    case Land(c, reply, readOk) =>
      var base := Base(s.history, readOk);
      var snap := match s.flights[c]
                  case Panel => Regenerated(base, reply)
                  case OneField(field) => FieldRegenerated(base, field, reply);
      World(s.history + [snap], s.flights - {c})
    case Lose(c) => s.(flights := s.flights - {c})
    case Edit(field, value, readOk) => s.(history := s.history + [Edited(Base(s.history, readOk), field, value)])
  }

  predicate Valid(s: World, ls: seq<Label>)
    decreases ls
  {
    ls == [] || (Enabled(s, ls[0]) && Valid(Apply(s, ls[0]), ls[1..]))
  }

  function Run(s: World, ls: seq<Label>): World
    requires Valid(s, ls)
    decreases ls
  {
    if ls == [] then s else Run(Apply(s, ls[0]), ls[1..])
  }

  /** The step did not build on a failed read of the latest snapshot. */
  predicate ReadOk(l: Label) { l.Land? || l.Edit? ==> l.readOk }

  predicate ReadsOk(ls: seq<Label>) { forall l :: l in ls ==> ReadOk(l) }

  // ---------------------------------------------------------------- locks

  predicate NoRepeats(ss: seq<string>) { forall i, j :: 0 <= i < j < |ss| ==> ss[i] != ss[j] }

  /** Locked names are distinct, valid, and have a value. */
  predicate SnapshotOk(snap: Snapshot)
  {
    NoRepeats(snap.locked) && forall k :: k in snap.locked ==> ValidField(k) && k in snap.fields
  }

  predicate WorldOk(s: World)
  {
    (forall i :: 0 <= i < |s.history| ==> SnapshotOk(s.history[i]))
    && (forall c :: c in s.flights && s.flights[c].OneField? ==> ValidField(s.flights[c].field))
  }

  lemma {:induction false} WithoutKeeps(ss: seq<string>, v: string)
    ensures forall k :: k in Without(ss, v) <==> k in ss && k != v
    ensures NoRepeats(ss) ==> NoRepeats(Without(ss, v))
  {
    if ss != [] {
      var n := |ss| - 1;
      WithoutKeeps(ss[..n], v);
      assert ss == ss[..n] + [ss[n]];
      if NoRepeats(ss) {
        assert forall i :: 0 <= i < n ==> ss[..n][i] == ss[i];
        assert ss[n] !in ss[..n];
      }
    }
  }

  lemma SnapshotsOk(base: Snapshot, reply: Fields, field: string, value: string)
    requires SnapshotOk(base)
    ensures SnapshotOk(Regenerated(base, reply)) && SnapshotOk(FieldRegenerated(base, field, reply))
    ensures ValidField(field) ==> SnapshotOk(Edited(base, field, value))
  {
    WithoutKeeps(base.locked, field);
  }

  lemma StepKeepsOk(s: World, l: Label)
    requires WorldOk(s) && Enabled(s, l)
    ensures WorldOk(Apply(s, l))
  {
    if l.Land? {
      SnapshotsOk(Base(s.history, l.readOk), l.reply, if s.flights[l.c].OneField? then s.flights[l.c].field else "", "");
    } else if l.Edit? {
      SnapshotsOk(Base(s.history, l.readOk), map[], l.field, l.value);
    }
  }

  /** MAIN RESULT. In every run every snapshot's locked names are distinct, valid and present. */
  lemma {:induction false} LocksStayClean(s: World, ls: seq<Label>)
    requires WorldOk(s) && Valid(s, ls)
    ensures WorldOk(Run(s, ls))
    decreases ls
  {
    if ls != [] {
      StepKeepsOk(s, ls[0]);
      LocksStayClean(Apply(s, ls[0]), ls[1..]);
    }
  }

  predicate Locked(s: World, field: string)
  {
    s.history != [] && field in s.history[|s.history| - 1].locked
  }

  predicate Keeps(snap: Snapshot, field: string, value: string)
  {
    field in snap.locked && field in snap.fields && snap.fields[field] == value
  }

  predicate Holds(s: World, field: string, value: string)
  {
    s.history != [] && Keeps(s.history[|s.history| - 1], field, value)
  }

  /** The step is a new request about this very field. */
  predicate Requests(l: Label, field: string)
  {
    (l.Edit? && l.field == field) || (l.Ask? && l.request == OneField(field))
  }

  /** The step lands the reply to a call that asked for this very field. */
  predicate Lands(s: World, l: Label, field: string)
  {
    l.Land? && l.c in s.flights && s.flights[l.c] == OneField(field)
  }

  predicate SomeLands(s: World, ls: seq<Label>, field: string)
    decreases ls
  {
    ls != [] && Enabled(s, ls[0]) && (Lands(s, ls[0], field) || SomeLands(Apply(s, ls[0]), ls[1..], field))
  }

  predicate NoRequest(ls: seq<Label>, field: string) { forall l :: l in ls ==> !Requests(l, field) }

  predicate InFlight(s: World, field: string) { exists c :: c in s.flights && s.flights[c] == OneField(field) }

  lemma UnrequestedStep(s: World, l: Label, field: string, value: string)
    requires Enabled(s, l) && !Requests(l, field)
    ensures ReadOk(l) && !Lands(s, l, field) && Holds(s, field, value) ==> Holds(Apply(s, l), field, value)
    ensures Locked(Apply(s, l), field) ==> ReadOk(l) && !Lands(s, l, field) && Locked(s, field)
  {
    if l.Land? && s.flights[l.c].OneField? {
      WithoutKeeps(Base(s.history, l.readOk).locked, s.flights[l.c].field);
    }
  }

  lemma {:induction false} UnlockedStaysUnlocked(s: World, ls: seq<Label>, field: string)
    requires Valid(s, ls) && !Locked(s, field) && NoRequest(ls, field)
    ensures !Locked(Run(s, ls), field)
    decreases ls
  {
    if ls != [] {
      UnrequestedStep(s, ls[0], field, "");
      UnlockedStaysUnlocked(Apply(s, ls[0]), ls[1..], field);
    }
  }

  lemma {:induction false} HeldIff(s: World, ls: seq<Label>, field: string, value: string)
    requires Valid(s, ls) && Holds(s, field, value) && NoRequest(ls, field)
    ensures Holds(Run(s, ls), field, value) <==> ReadsOk(ls) && !SomeLands(s, ls, field)
    decreases ls
  {
    if ls != [] {
      var next := Apply(s, ls[0]);
      assert ls == [ls[0]] + ls[1..];
      UnrequestedStep(s, ls[0], field, value);
      if ReadOk(ls[0]) && !Lands(s, ls[0], field) {
        HeldIff(next, ls[1..], field, value);
      } else {
        UnlockedStaysUnlocked(next, ls[1..], field);
      }
    }
  }

  /** Without a new request, only a call that was in flight already can land for the field. */
  lemma {:induction false} OnlyOldCallsLand(s: World, ls: seq<Label>, field: string)
    requires Valid(s, ls) && NoRequest(ls, field) && !InFlight(s, field)
    ensures !SomeLands(s, ls, field)
    decreases ls
  {
    if ls != [] {
      var next := Apply(s, ls[0]);
      assert ls == [ls[0]] + ls[1..];
      assert !Requests(ls[0], field);
      forall c | c in next.flights ensures next.flights[c] != OneField(field) { }
      OnlyOldCallsLand(next, ls[1..], field);
    }
  }

  /**
   MAIN RESULT. After a human edit, and until the next request about that field is made, the latest snapshot keeps
   the edited value through every interleaving of replies, if and only if no snapshot was built on a failed read and
   no reply landed to a single-field regeneration asked for before the edit. When none was in flight, reads alone decide.
   */
  lemma EditsOutrankModel(s: World, field: string, value: string, readOk: bool, ls: seq<Label>)
    requires ValidField(field) && Valid(Apply(s, Edit(field, value, readOk)), ls) && NoRequest(ls, field)
    ensures var edited := Apply(s, Edit(field, value, readOk));
            && (Holds(Run(edited, ls), field, value) <==> ReadsOk(ls) && !SomeLands(edited, ls, field))
            && (!InFlight(s, field) ==> (Holds(Run(edited, ls), field, value) <==> ReadsOk(ls)))
  {
    var edited := Apply(s, Edit(field, value, readOk));
    HeldIff(edited, ls, field, value);
    if !InFlight(s, field) {
      OnlyOldCallsLand(edited, ls, field);
    }
  }

  /**
   A regeneration of one field that was asked for before the edit and lands after it throws the edit and its lock away,
   with every read good and nobody having asked for it since.
   */
  lemma OldReplyUndoesEdit(s: World, c: int, field: string, value: string, reply: Fields)
    requires ValidField(field) && c !in s.flights
    ensures var ls := [Ask(c, OneField(field)), Edit(field, value, true), Land(c, reply, true)];
            && Valid(s, ls) && Holds(Run(s, ls[..2]), field, value) && !Locked(Run(s, ls), field)
  {
    var ask, edit, land := Ask(c, OneField(field)), Edit(field, value, true), Land(c, reply, true);
    var s1 := Apply(s, ask);
    var s2 := Apply(s1, edit);
    var s3 := Apply(s2, land);
    WithoutKeeps(Base(s2.history, true).locked, field);
    var ls := [ask, edit, land];
    assert ls[1..] == [edit, land] && [edit, land][1..] == [land] && [land][1..] == [] && ls[..2] == [ask, edit];
    assert [ask, edit][1..] == [edit] && [edit][1..] == [];
    assert Valid(s3, []) && Valid(s2, [land]) && Valid(s1, [edit, land]);
    assert Run(s2, [land]) == s3 && Run(s1, [edit, land]) == s3 && Run(s, ls) == s3;
    assert Valid(s2, []) && Run(s2, []) == s2 && Run(s1, [edit]) == s2 && Run(s, [ask, edit]) == s2;
  }

  /**
   Read latest and persist are one step here. Were a reply to persist on a base read before the edit, the edit would
   survive exactly when it changed nothing: the field was locked with this very value already.
   */
  lemma StaleBaseLosesEdit(s: World, field: string, value: string, reply: Fields)
    requires WorldOk(s) && ValidField(field)
    ensures var edited := Apply(s, Edit(field, value, true));
            var stale := edited.(history := edited.history + [Regenerated(Base(s.history, true), reply)]);
            Holds(stale, field, value) <==> Holds(s, field, value)
  {
    RegeneratedKeeps(Base(s.history, true), reply, field, value);
  }

  lemma RegeneratedKeeps(base: Snapshot, reply: Fields, field: string, value: string)
    ensures SnapshotOk(base) ==> (Keeps(Regenerated(base, reply), field, value) <==> Keeps(base, field, value))
  {
    if SnapshotOk(base) {
      var merged := Merge(reply, base.fields, base.locked);
      assert field in base.locked ==> field in merged && merged[field] == base.fields[field];
    }
  }

  // ---------------------------------------------------------------- what becomes of a reply

  function Fieldset(s: World): Fields { if s.history == [] then map[] else s.history[|s.history| - 1].fields }

  /** The latest snapshot has this value for the field, or has no such field. */
  predicate Shows(s: World, field: string, value: Option<string>)
  {
    if value.Some? then field in Fieldset(s) && Fieldset(s)[field] == value.value else field !in Fieldset(s)
  }

  function Lookup(fields: Fields, field: string): Option<string> { if field in fields then Some(fields[field]) else None }

  /**
   MAIN RESULT. A panel reply that lands on a good read is what the panel shows, field by field, except that a locked field with a
   value keeps it; the locks stay as they are. After a failed read the panel shows the reply alone, with nothing locked.
   */
  lemma PanelShowsReply(s: World, c: int, reply: Fields, readOk: bool, field: string)
    requires Enabled(s, Land(c, reply, readOk)) && s.flights[c] == Panel
    ensures var s' := Apply(s, Land(c, reply, readOk));
            && |s'.history| == |s.history| + 1 && s'.history[..|s.history|] == s.history
            && s'.history[|s.history|].source == Ai && s'.flights == s.flights - {c}
            && (readOk && Locked(s, field) && field in Fieldset(s) ==> Shows(s', field, Some(Fieldset(s)[field])))
            && (!readOk || !Locked(s, field) || field !in Fieldset(s) ==> Shows(s', field, Lookup(reply, field)))
            && (Locked(s', field) <==> readOk && Locked(s, field))
  {
    var base := Base(s.history, readOk);
    var merged := Merge(reply, base.fields, base.locked);
    assert field in merged <==> field in reply || (field in base.locked && field in base.fields);
  }

  /** A reply to one field's regeneration is what that field shows, unlocked; every other field and lock stays. */
  lemma FieldShowsReply(s: World, c: int, field: string, reply: Fields, other: string)
    requires Enabled(s, Land(c, reply, true)) && s.flights[c] == OneField(field)
    ensures var s' := Apply(s, Land(c, reply, true));
            && |s'.history| == |s.history| + 1 && s'.history[..|s.history|] == s.history
            && s'.history[|s.history|].source == Ai && s'.flights == s.flights - {c}
            && Shows(s', field, Some(if field in reply then reply[field] else "")) && !Locked(s', field)
            && (other != field ==> Shows(s', other, Lookup(Fieldset(s), other)) && (Locked(s', other) <==> Locked(s, other)))
  {
    WithoutKeeps(Base(s.history, true).locked, field);
  }

  /** An edit is what its field shows, locked; every other field and lock stays. */
  lemma EditShows(s: World, field: string, value: string, other: string)
    requires ValidField(field)
    ensures var s' := Apply(s, Edit(field, value, true));
            && |s'.history| == |s.history| + 1 && s'.history[..|s.history|] == s.history
            && s'.history[|s.history|].source == HumanEdit && s'.flights == s.flights
            && Shows(s', field, Some(value)) && Locked(s', field)
            && (other != field ==> Shows(s', other, Lookup(Fieldset(s), other)) && (Locked(s', other) <==> Locked(s, other)))
  {
  }

  // ---------------------------------------------------------------- the service

  datatype FieldView = FieldView(key: string, value: string, locked: bool)

  class AISummaryService {
    var history: seq<Snapshot>

    method Contains(ss: seq<string>, v: string) returns (found: bool)
      ensures found <==> v in ss
    {
      var i := 0;
      while i < |ss|
        invariant 0 <= i <= |ss| && v !in ss[..i]
      {
        if ss[i] == v {
          return true;
        }
        i := i + 1;
      }
      found := false;
    }

    method RemoveString(ss: seq<string>, v: string) returns (out: seq<string>)
      ensures out == Without(ss, v)
    {
      out := [];
      var i := 0;
      while i < |ss|
        invariant 0 <= i <= |ss| && out == Without(ss[..i], v)
      {
        assert ss[..i + 1][..i] == ss[..i];
        if ss[i] != v {
          out := out + [ss[i]];
        }
        i := i + 1;
      }
      assert ss[..i] == ss;
    }

    method LatestOrEmpty(readOk: bool) returns (fields: Fields, locked: seq<string>)
      ensures fields == Base(history, readOk).fields && locked == Base(history, readOk).locked
    {
      if !readOk || history == [] {
        return map[], [];
      }
      fields, locked := history[|history| - 1].fields, history[|history| - 1].locked;
    }

    method Persist(source: Source, fields: Fields, locked: seq<string>)
      modifies this
      ensures history == old(history) + [Snapshot(source, fields, locked)]
    {
      history := history + [Snapshot(source, fields, locked)];
    }

    /** `Regenerate`, from the moment the model's reply is parsed. */
    method Regenerate(reply: Fields, readOk: bool)
      modifies this
      ensures history == old(history) + [Regenerated(Base(old(history), readOk), reply)]
    {
      var merged := reply;
      var prevFields, locked := LatestOrEmpty(readOk);
      var i := 0;
      while i < |locked|
        invariant 0 <= i <= |locked|
        invariant history == old(history)
        invariant merged == Merge(reply, prevFields, locked[..i])
      {
        assert locked[..i + 1] == locked[..i] + [locked[i]];
        MergeSnoc(reply, prevFields, locked[..i], locked[i]);
        if locked[i] in prevFields {
          merged := merged[locked[i] := prevFields[locked[i]]];
        }
        i := i + 1;
      }
      assert locked[..i] == locked;
      Persist(Ai, merged, locked);
    }

    method EditField(field: string, value: string, readOk: bool) returns (ok: bool)
      modifies this
      ensures ok <==> ValidField(field)
      ensures history == if ok then old(history) + [Edited(Base(old(history), readOk), field, value)] else old(history)
    {
      ok := Contains(FIELD_ORDER, field);
      if !ok {
        return;
      }
      var fields, locked := LatestOrEmpty(readOk);
      fields := fields[field := value];
      var present := Contains(locked, field);
      if !present {
        locked := locked + [field];
      }
      Persist(HumanEdit, fields, locked);
    }

    method RegenerateField(field: string, reply: Fields, readOk: bool) returns (ok: bool)
      modifies this
      ensures ok <==> ValidField(field)
      ensures history == if ok then old(history) + [FieldRegenerated(Base(old(history), readOk), field, reply)] else old(history)
    {
      ok := Contains(FIELD_ORDER, field);
      if !ok {
        return;
      }
      var fields, locked := LatestOrEmpty(readOk);
      fields := fields[field := if field in reply then reply[field] else ""];
      locked := RemoveString(locked, field);
      Persist(Ai, fields, locked);
    }

    /** `Latest`: the panel in display order; a locked field shows as locked, with its own value. */
    method Latest() returns (view: Option<seq<FieldView>>)
      ensures view.None? <==> history == []
      ensures view.Some? ==>
                var latest := history[|history| - 1];
                && |view.value| == |FIELD_ORDER|
                && forall i :: 0 <= i < |FIELD_ORDER| ==>
                     && view.value[i].key == FIELD_ORDER[i]
                     && view.value[i].value == (if FIELD_ORDER[i] in latest.fields then latest.fields[FIELD_ORDER[i]] else "")
                     && (view.value[i].locked <==> FIELD_ORDER[i] in latest.locked)
    {
      if history == [] {
        return None;
      }
      var latest := history[|history| - 1];
      var out: seq<FieldView> := [];
      var i := 0;
      while i < |FIELD_ORDER|
        invariant 0 <= i <= |FIELD_ORDER| && |out| == i
        invariant forall j :: 0 <= j < i ==>
                    && out[j].key == FIELD_ORDER[j]
                    && out[j].value == (if FIELD_ORDER[j] in latest.fields then latest.fields[FIELD_ORDER[j]] else "")
                    && (out[j].locked <==> FIELD_ORDER[j] in latest.locked)
      {
        var key := FIELD_ORDER[i];
        var locked := Contains(latest.locked, key);
        out := out + [FieldView(key, if key in latest.fields then latest.fields[key] else "", locked)];
        i := i + 1;
      }
      view := Some(out);
    }
  }
}
