/** What the callers of the profile operations are told, what a list brings back, and how often the modem is asked. */
module ProfileStatus {
  import opened Wrappers
  import opened ProfileScript
  import opened ProfileProofs

  // ---- reading the list ----

  // The modem answers the next requests with these settings, one after the other.
  predicate Answers(o: Oracle, base: nat, settings: seq<Settings>) {
    forall j {:trigger settings[j]} :: 0 <= j < |settings| ==> o(base + j) == Settled(settings[j])
  }

  lemma AnswersOnward(o: Oracle, base: nat, settings: seq<Settings>)
    requires Answers(o, base, settings) && settings != []
    ensures o(base) == Settled(settings[0]) && Answers(o, base + 1, settings[1..])
  {
    assert o(base + 0) == Settled(settings[0]);
    forall j | 0 <= j < |settings| - 1
      ensures o(base + 1 + j) == Settled(settings[1..][j])
    {
      assert settings[1..][j] == settings[j + 1];
    }
  }

  function Profiles(entries: seq<ListEntry>, settings: seq<Settings>, defaultId: int): seq<Profile>
    requires |settings| <= |entries|
  {
    seq(|settings|, j requires 0 <= j < |settings| => Assemble(entries[j], settings[j], defaultId))
  }

  // The world after one more entry's settings have arrived.
  function Kept(w: World, entry: ListEntry, settings: Settings): World {
    var asking := Ask(w, GetProfileSettings(entry.id));
    asking.(store := Appended(asking.store, Assemble(entry, settings, w.store.defaultProfile.id)))
  }

  lemma FillOnward(w: World, o: Oracle, entries: seq<ListEntry>, i: nat, settings: Settings)
    requires i < |entries| && o(w.asked) == Settled(settings)
    ensures FillFrom(w, o, entries, i) == FillFrom(Kept(w, entries[i], settings), o, entries, i + 1)
  {
  }

  lemma ProfilesOnward(table: seq<Profile>, entries: seq<ListEntry>, i: nat, settings: seq<Settings>, id: int)
    requires i < |entries| && 0 < |settings| <= |entries| - i
    ensures table + Profiles(entries[i..], settings, id) ==
            table + [Assemble(entries[i], settings[0], id)] + Profiles(entries[i + 1..], settings[1..], id)
  {
  }

  // When every entry's settings arrive, the table holds the profiles in the order of the list.
  lemma {:induction false} ListComplete(w: World, o: Oracle, entries: seq<ListEntry>, i: nat, table: seq<Profile>,
                                        settings: seq<Settings>)
    requires i <= |entries| && w.store.table == Some(table)
    requires |settings| == |entries| - i && Answers(o, w.asked, settings)
    ensures var end := FillFrom(w, o, entries, i).world;
            && end.store.table == Some(table + Profiles(entries[i..], settings, w.store.defaultProfile.id))
            && end.store.collected
            && (i < |entries| ==> end.store.fetchRetry == 0)
            && end.asked == w.asked + |settings|
    decreases |entries| - i
  {
    var id := w.store.defaultProfile.id;
    if i < |entries| {
      AnswersOnward(o, w.asked, settings);
      var first := Assemble(entries[i], settings[0], id);
      FillOnward(w, o, entries, i, settings[0]);
      ListComplete(Kept(w, entries[i], settings[0]), o, entries, i + 1, table + [first], settings[1..]);
      ProfilesOnward(table, entries, i, settings, id);
    } else {
      assert table + Profiles(entries[i..], settings, id) == table;
    }
  }

  // The first entry whose settings do not arrive ends the reading: a modem's refusal drops the whole table and counts
  // as a failed fetch, a failed call leaves an empty one.
  lemma {:induction false} ListBroken(w: World, o: Oracle, entries: seq<ListEntry>, i: nat, settings: seq<Settings>)
    requires i + |settings| < |entries| && w.store.table.Some?
    requires Answers(o, w.asked, settings) && !o(w.asked + |settings|).Settled?
    ensures var end, retry := FillFrom(w, o, entries, i).world, if settings == [] then w.store.fetchRetry else 0;
            && end.asked == w.asked + |settings| + 1
            && end.store.collected
            && if o(w.asked + |settings|).Failed? then end.store.table == Some([]) && end.store.fetchRetry == retry
               else end.store.table == None && end.store.fetchRetry == retry + 1
    decreases |entries| - i
  {
    if settings != [] {
      AnswersOnward(o, w.asked, settings);
      ListBroken(Kept(w, entries[i], settings[0]), o, entries, i + 1, settings[1..]);
    }
  }

  // A resynchronised table mirrors the modem's list.
  lemma ListRead(op: Operation, w: World, o: Oracle, entries: seq<ListEntry>, settings: seq<Settings>)
    requires !op.Create? || w.store.table.None?
    requires o(w.asked) == Listed(entries) && entries != []
    requires |settings| == |entries| && Answers(o, w.asked + 1, settings)
    ensures var end := PerformReadList(op, w, o).world;
            && end.store.table == Some(Profiles(entries, settings, w.store.defaultProfile.id))
            && end.asked == w.asked + 1 + |entries|
  {
    var asking := Ask(w.(store := w.store.(collected := false)), GetProfileList);
    ListComplete(asking.(store := asking.store.(table := Some([]))), o, entries, 0, [], settings);
    assert entries[0..] == entries;
    var ps := Profiles(entries, settings, w.store.defaultProfile.id);
    assert [] + ps == ps;
  }

  lemma {:induction false} FillCollects(w: World, o: Oracle, entries: seq<ListEntry>, i: nat)
    requires i <= |entries|
    ensures FillFrom(w, o, entries, i).world.store.collected && FillFrom(w, o, entries, i).verdict.Proceed?
    decreases |entries| - i
  {
    if i < |entries| {
      match o(w.asked)
      case Settled(s) =>
        FillOnward(w, o, entries, i, s);
        FillCollects(Kept(w, entries[i], s), o, entries, i + 1);
      case _ =>
    }
  }

  // Whoever waits for a list is handed the table exactly if the client and the default profile could be had and the task
  // was done before the wait ended; otherwise the wait ends with no profiles and leaves everything as it is.
  lemma ListAnswered(w: World, o: Oracle, inTime: bool)
    requires !w.store.collected
    ensures var end := Run(List, Script(List), w, o);
            var complete := HaltsAt(List, Script(List), w, o).None?;
            var table := if end.store.table.Some? then end.store.table.value else [];
            && (end.store.collected <==> complete)
            && (inTime && complete ==>
                  && Collected(end, inTime).profiles == table
                  && Collected(end, inTime).world ==
                     end.(store := end.store.(collected := false, table := if table == [] then None else Some(table))))
            && (!(inTime && complete) ==> Collected(end, inTime) == Returned(end, []))
  {
    ListCompletes(w, o);
  }

  lemma ListCompletes(w: World, o: Oracle)
    requires !w.store.collected
    ensures Run(List, Script(List), w, o).store.collected <==> HaltsAt(List, Script(List), w, o).None?
  {
    hide Run, HaltsAt, PerformReadList, PerformVerify;
    assert Script(List)[0..] == Script(List) && Script(List)[3..] == [];
    Continues(List, 0, w, o);
    var ready := PerformAllocate(w, o);
    if ready.verdict.Proceed? {
      Continues(List, 1, ready.world, o);
      var read := PerformReadDefault(ready.world, o);
      if read.verdict.Proceed? {
        ListCollected(read.world, o);
      }
    }
  }

  lemma ListCollected(w: World, o: Oracle)
    ensures Run(List, Script(List)[2..], w, o).store.collected && HaltsAt(List, Script(List)[2..], w, o).None?
  {
    assert Script(List)[3..] == [];
    Continues(List, 2, w, o);
    var asking := Ask(w.(store := w.store.(collected := false)), GetProfileList);
    match Answer(asking, o)
    case Listed(entries) =>
      if entries != [] {
        FillCollects(asking.(store := asking.store.(table := Some([]))), o, entries, 0);
      }
    case _ =>
  }

  // ---- how often the modem is asked ----

  ghost predicate ShortLists(o: Oracle, n: nat) {
    forall k: nat :: o(k).Listed? ==> |o(k).entries| <= n
  }

  function Cost(stage: Stage, n: nat): nat {
    match stage
    case Verify => 0
    case Notify => 0
    case ReadDefault => 2
    case Attach => 2
    case ReadList => 1 + n
    case _ => 1
  }

  function TotalCost(stages: seq<Stage>, n: nat): nat {
    if stages == [] then 0 else Cost(stages[0], n) + TotalCost(stages[1..], n)
  }

  lemma ListCost(op: Operation, w: World, o: Oracle, n: nat)
    requires ShortLists(o, n)
    ensures w.asked <= PerformReadList(op, w, o).world.asked <= w.asked + 1 + n
  {
    var asking := Ask(w.(store := w.store.(collected := false)), GetProfileList);
    match Answer(asking, o)
    case Listed(entries) =>
      if entries != [] {
        FillAppends(asking.(store := asking.store.(table := Some([]))), o, entries, 0);
      }
    case _ =>
  }

  lemma VerifyCost(op: Operation, w: World)
    ensures PerformVerify(op, w).world.asked == w.asked
  {
  }

  lemma StageCost(op: Operation, stage: Stage, w: World, o: Oracle, n: nat)
    requires ShortLists(o, n)
    ensures w.asked <= Perform(op, stage, w, o).world.asked <= w.asked + Cost(stage, n)
  {
    hide PerformReadList, PerformVerify;
    if stage.ReadList? {
      ListCost(op, w, o, n);
    } else if stage.Verify? {
      VerifyCost(op, w);
    }
  }

  lemma {:induction false} RunCost(op: Operation, stages: seq<Stage>, w: World, o: Oracle, n: nat)
    requires ShortLists(o, n)
    ensures w.asked <= Run(op, stages, w, o).asked <= w.asked + TotalCost(stages, n)
    decreases |stages|
  {
    if stages != [] {
      var d := Perform(op, stages[0], w, o);
      StageCost(op, stages[0], w, o, n);
      if d.verdict.Proceed? {
        RunCost(op, stages[1..], d.world, o, n);
      }
    }
  }

  // A task asks the modem at most eight times, plus once for every profile on it.
  lemma RequestBound(op: Operation, w: World, o: Oracle, n: nat)
    requires ShortLists(o, n)
    ensures var bound := match op
                         case Create => 8 + n
                         case Delete => 3 + n
                         case Modify => 3
                         case List => 4 + n;
            w.asked <= Run(op, Script(op), w, o).asked <= w.asked + bound
  {
    RunCost(op, Script(op), w, o, n);
    ScriptCost(op, n);
  }

  lemma CostFrom(stages: seq<Stage>, k: nat, n: nat)
    requires k < |stages|
    ensures TotalCost(stages[k..], n) == Cost(stages[k], n) + TotalCost(stages[k + 1..], n)
  {
    assert stages[k..][1..] == stages[k + 1..];
  }

  lemma ScriptCost(op: Operation, n: nat)
    ensures TotalCost(Script(op), n) == match op
                                        case Create => 8 + n
                                        case Delete => 3 + n
                                        case Modify => 3
                                        case List => 4 + n
  {
    var s := Script(op);
    assert s[0..] == s && TotalCost(s[|s|..], n) == 0;
    hide TotalCost;
    CostFrom(s, 0, n);
    CostFrom(s, 1, n);
    CostFrom(s, 2, n);
    if |s| > 3 {
      CostFrom(s, 3, n);
    }
    if |s| > 4 {
      CostFrom(s, 4, n);
    }
    if op.Create? {
      CostFrom(s, 5, n);
      CostFrom(s, 6, n);
      CostFrom(s, 7, n);
    }
  }

  // ---- what the caller is told ----

  function Ending(w: World, status: Status): seq<Event> {
    (if w.notify then [Told(w.input.name, w.input.pdp, status)] else []) + [Released]
  }

  // A create that finds its profile asks the modem for nothing while earlier misses or failed fetches are pending: it
  // reports "not ready", and since the counters stay as they are, so does every later create that finds its profile.
  lemma FoundWhileHindered(w: World, o: Oracle)
    requires w.store.table.Some? && exists j :: 0 <= j < |w.store.table.value| && Agrees(w.store.table.value[j], Wanted(w))
    requires !Unhindered(w.store)
    ensures var found, end := PerformVerify(Create, w).world, Run(Create, Script(Create)[3..], w, o);
            && found.store.matched && found.asked == w.asked && found.notify == w.notify
            && end.trace == w.trace + Ending(found, NotReady)
            && end.store.createRetry == w.store.createRetry && end.store.fetchRetry == w.store.fetchRetry
  {
    Found(w);
    Verified(w, o);
    HinderedTail(PerformVerify(Create, w).world, o);
  }

  lemma Continues(op: Operation, k: nat, w: World, o: Oracle)
    requires k < |Script(op)|
    ensures var d := Perform(op, Script(op)[k], w, o);
            && Run(op, Script(op)[k..], w, o) == Then(op, d, Script(op)[k + 1..], o)
            && HaltsAt(op, Script(op)[k..], w, o) ==
               if d.verdict.Proceed? then HaltsAt(op, Script(op)[k + 1..], d.world, o) else Some(Script(op)[k])
  {
    assert Script(op)[k..][1..] == Script(op)[k + 1..];
  }

  lemma Verified(w: World, o: Oracle)
    requires PerformVerify(Create, w).verdict.Proceed?
    ensures Run(Create, Script(Create)[3..], w, o) == Run(Create, Script(Create)[4..], PerformVerify(Create, w).world, o)
  {
    Continues(Create, 3, w, o);
  }

  lemma Found(w: World)
    requires w.store.table.Some? && exists j :: 0 <= j < |w.store.table.value| && Agrees(w.store.table.value[j], Wanted(w))
    ensures var after := PerformVerify(Create, w);
            && after.verdict.Proceed?
            && after.world.present
            && after.world.trace == w.trace
            && after.world.asked == w.asked
            && after.world.notify == w.notify
            && after.world.store.createRetry == w.store.createRetry
            && after.world.store.fetchRetry == w.store.fetchRetry
            && after.world.store.matched
  {
    VerifyDecidesByAgreement(Create, w);
    FirstScanFinds(w);
  }

  // For a create, the second scan of a table finds nothing that the first one did not.
  lemma FirstScanFinds(w: World)
    requires w.store.table.Some? && PerformVerify(Create, w).world.present
    ensures var after := PerformVerify(Create, w);
            && after.verdict.Proceed?
            && after.world.trace == w.trace
            && after.world.asked == w.asked
            && after.world.notify == w.notify
            && after.world.store.createRetry == w.store.createRetry
            && after.world.store.fetchRetry == w.store.fetchRetry
            && after.world.store.matched
  {
  }

  // While retries are pending, nothing happens between the check and the notification.
  lemma {:induction false} HinderedFrom(k: nat, w: World, o: Oracle)
    requires 4 <= k <= 7 && !Unhindered(w.store)
    ensures Run(Create, Script(Create)[k..], w, o) == Log(Tell(w, w.input.name, w.input.pdp, NotReady), Released)
    decreases 7 - k
  {
    if k < 7 {
      IdleStage(k, w, o);
      HinderedFrom(k + 1, w, o);
    } else {
      Continues(Create, 7, w, o);
      assert Script(Create)[8..] == [];
    }
  }

  lemma IdleStage(k: nat, w: World, o: Oracle)
    requires 4 <= k < 7
    requires !Unhindered(w.store) || (!w.input.isDefault && (k == 4 ==> w.present))
    ensures Run(Create, Script(Create)[k..], w, o) == Run(Create, Script(Create)[k + 1..], w, o)
  {
    hide HaltsAt, Run, PerformAllocate, PerformReadDefault, PerformReadList, PerformVerify;
    Continues(Create, k, w, o);
  }

  lemma HinderedTail(w: World, o: Oracle)
    requires !Unhindered(w.store)
    ensures var end := Run(Create, Script(Create)[4..], w, o);
            end.trace == w.trace + Ending(w, NotReady) && end.store == w.store
  {
    HinderedFrom(4, w, o);
  }

  // ---- what an unhindered create reports ----

  // The answers from a given one on let the attach list be changed.
  predicate AttachAsked(o: Oracle, at: nat, id: int) {
    o(at).Attached? && id !in o(at).current && id !in o(at).waiting && o(at).built
  }

  predicate AttachChanged(o: Oracle, at: nat, id: int) {
    AttachAsked(o, at, id) && o(at + 1).Accepted?
  }

  // What a create reports once its profile is there: nothing if it is to be the default and the modem refuses that,
  // "ready" if a match is remembered and the attach list is not changed, "created" otherwise.
  function Report(w: World, o: Oracle): Option<Status> {
    if w.input.isDefault && !o(w.asked).Accepted? then None
    else if w.store.matched && !(w.input.isDefault && AttachChanged(o, w.asked + 1, w.input.id)) then Some(Ready)
    else Some(Created)
  }

  // All it does from there on.
  function Closing(w: World, o: Oracle): seq<Event> {
    if !w.input.isDefault then Concluded(w, Report(w, o))
    else
      [Asked(SetDefaultNumber(w.input.kind, w.input.id))]
      + (if o(w.asked).Accepted? then AttachRequests(o, w.asked + 1, w.input.id) else [])
      + Concluded(w, Report(w, o))
  }

  function AttachRequests(o: Oracle, at: nat, id: int): seq<Event> {
    [Asked(GetAttachList)] + if AttachAsked(o, at, id) then [Asked(SetAttachList([id]))] else []
  }

  function Concluded(w: World, report: Option<Status>): seq<Event> {
    if report.Some? then Ending(w, report.value) else [Released]
  }

  lemma NotifyCloses(w: World, o: Oracle)
    requires Unhindered(w.store)
    ensures Run(Create, Script(Create)[7..], w, o).trace == w.trace + Ending(w, if w.store.matched then Ready else Created)
  {
    Continues(Create, 7, w, o);
    assert Script(Create)[8..] == [];
  }

  // The attach stage of a default profile and what it leaves.
  lemma AttachStep(w: World, o: Oracle) returns (after: World)
    requires Unhindered(w.store) && w.input.isDefault
    ensures Run(Create, Script(Create)[6..], w, o) == Run(Create, Script(Create)[7..], after, o)
    ensures after.notify == w.notify && after.input == w.input && Unhindered(after.store)
    ensures after.trace == w.trace + AttachRequests(o, w.asked, w.input.id)
    ensures after.store.matched == (w.store.matched && !AttachChanged(o, w.asked, w.input.id))
  {
    hide HaltsAt, Run, PerformVerify;
    after := PerformAttach(w, o).world;
    AttachLeaves(w, o);
    Continues(Create, 6, w, o);
  }

  lemma AttachLeaves(w: World, o: Oracle)
    requires Unhindered(w.store) && w.input.isDefault
    ensures var d := PerformAttach(w, o);
            && d.verdict.Proceed?
            && d.world.notify == w.notify && d.world.input == w.input && Unhindered(d.world.store)
            && d.world.trace == w.trace + AttachRequests(o, w.asked, w.input.id)
            && d.world.store.matched == (w.store.matched && !AttachChanged(o, w.asked, w.input.id))
  {
  }

  // Setting the default, when the modem accepts it.
  lemma DefaultStep(w: World, o: Oracle) returns (after: World)
    requires Unhindered(w.store) && w.input.isDefault && o(w.asked).Accepted?
    ensures Run(Create, Script(Create)[5..], w, o) == Run(Create, Script(Create)[6..], after, o)
    ensures after.notify == w.notify && after.input == w.input && after.asked == w.asked + 1
    ensures Unhindered(after.store) && after.store.matched == w.store.matched
    ensures after.trace == w.trace + [Asked(SetDefaultNumber(w.input.kind, w.input.id))]
  {
    hide HaltsAt, Run, PerformAllocate, PerformReadDefault, PerformReadList, PerformVerify;
    after := PerformSetDefault(Create, w, o).world;
    Continues(Create, 5, w, o);
  }

  lemma DefaultRefused(w: World, o: Oracle)
    requires Unhindered(w.store) && w.input.isDefault && !o(w.asked).Accepted?
    ensures Run(Create, Script(Create)[5..], w, o).trace ==
            w.trace + [Asked(SetDefaultNumber(w.input.kind, w.input.id)), Released]
  {
    hide HaltsAt, Run, PerformAllocate, PerformReadDefault, PerformReadList, PerformVerify;
    Continues(Create, 5, w, o);
  }

  lemma PlainCloses(w: World, o: Oracle)
    requires Unhindered(w.store) && !w.input.isDefault
    ensures Run(Create, Script(Create)[5..], w, o).trace == w.trace + Closing(w, o)
  {
    IdleStage(5, w, o);
    IdleStage(6, w, o);
    NotifyCloses(w, o);
  }

  lemma DefaultCloses(w: World, o: Oracle)
    requires Unhindered(w.store) && w.input.isDefault
    ensures Run(Create, Script(Create)[5..], w, o).trace == w.trace + Closing(w, o)
  {
    var first := [Asked(SetDefaultNumber(w.input.kind, w.input.id))];
    if o(w.asked).Accepted? {
      var after := DefaultStep(w, o);
      AttachCloses(w, after, o);
    } else {
      DefaultRefused(w, o);
      assert first + [] + [Released] == first + [Released];
    }
  }

  lemma AttachCloses(w: World, after: World, o: Oracle)
    requires w.input.isDefault && o(w.asked).Accepted? && Unhindered(after.store)
    requires after.notify == w.notify && after.input == w.input && after.asked == w.asked + 1
    requires after.store.matched == w.store.matched
    requires after.trace == w.trace + [Asked(SetDefaultNumber(w.input.kind, w.input.id))]
    ensures Run(Create, Script(Create)[6..], after, o).trace == w.trace + Closing(w, o)
  {
    hide Run;
    var end := AttachStep(after, o);
    NotifyCloses(end, o);
    var last := Ending(end, if end.store.matched then Ready else Created);
    Regrouped(w.trace, [Asked(SetDefaultNumber(w.input.kind, w.input.id))],
              AttachRequests(o, after.asked, w.input.id), last);
  }

  lemma Regrouped(a: seq<Event>, b: seq<Event>, c: seq<Event>, d: seq<Event>)
    ensures a + b + c + d == a + (b + c + d)
  {
  }

  // From setting the default on, an unhindered create does exactly what its closing says.
  lemma Closes(w: World, o: Oracle)
    requires Unhindered(w.store)
    ensures Run(Create, Script(Create)[5..], w, o).trace == w.trace + Closing(w, o)
  {
    if w.input.isDefault {
      DefaultCloses(w, o);
    } else {
      PlainCloses(w, o);
    }
  }

  // A status is told exactly if it is the reported one.
  lemma ClosingTells(w: World, o: Oracle, name: string, pdp: PdpType, status: Status)
    ensures Told(name, pdp, status) in Closing(w, o) <==>
              w.notify && name == w.input.name && pdp == w.input.pdp && Report(w, o) == Some(status)
  {
  }

  // A create that finds its profile, over all stores, profiles and answers: what it does from the check on.
  lemma FoundCloses(w: World, o: Oracle)
    requires w.store.table.Some? && exists j :: 0 <= j < |w.store.table.value| && Agrees(w.store.table.value[j], Wanted(w))
    requires Unhindered(w.store)
    ensures var found := PerformVerify(Create, w).world;
            && found.store.matched && found.asked == w.asked && found.notify == w.notify
            && Run(Create, Script(Create)[3..], w, o).trace == w.trace + Closing(found, o)
  {
    Found(w);
    Verified(w, o);
    PresentCloses(PerformVerify(Create, w).world, o);
  }

  lemma PresentCloses(w: World, o: Oracle)
    requires Unhindered(w.store) && w.present
    ensures Run(Create, Script(Create)[4..], w, o).trace == w.trace + Closing(w, o)
  {
    hide HaltsAt, Run, PerformAllocate, PerformReadDefault, PerformReadList, PerformVerify;
    Continues(Create, 4, w, o);
    Closes(w, o);
  }

  // What has been added to a trace.
  function Since(before: seq<Event>, after: seq<Event>): seq<Event> {
    if |before| <= |after| then after[|before|..] else []
  }

  // It reports "ready" if and only if no retry is pending and, for a profile that is to be the default, the modem
  // accepts it as such and the attach list need not be changed. With no retry pending, it reports nothing at all if and
  // only if the modem refuses the default.
  lemma FoundReady(w: World, o: Oracle, status: Status)
    requires w.store.table.Some? && exists j :: 0 <= j < |w.store.table.value| && Agrees(w.store.table.value[j], Wanted(w))
    requires w.notify
    ensures var found := PerformVerify(Create, w).world.input;
            var added := Since(w.trace, Run(Create, Script(Create)[3..], w, o).trace);
            var refused := found.isDefault && !o(w.asked).Accepted?;
            var changed := found.isDefault && AttachChanged(o, w.asked + 1, found.id);
            Told(found.name, found.pdp, status) in added <==>
              if !Unhindered(w.store) then status == NotReady
              else !refused && status == if changed then Created else Ready
  {
    if Unhindered(w.store) {
      FoundCloses(w, o);
    } else {
      FoundWhileHindered(w, o);
    }
    FoundTells(w, PerformVerify(Create, w).world, Run(Create, Script(Create)[3..], w, o).trace, o, status);
  }

  lemma FoundTells(w: World, found: World, trace: seq<Event>, o: Oracle, status: Status)
    requires found.notify && found.asked == w.asked && found.store.matched
    requires trace == w.trace + if Unhindered(w.store) then Closing(found, o) else Ending(found, NotReady)
    ensures var refused := found.input.isDefault && !o(w.asked).Accepted?;
            var changed := found.input.isDefault && AttachChanged(o, w.asked + 1, found.input.id);
            Told(found.input.name, found.input.pdp, status) in Since(w.trace, trace) <==>
              if !Unhindered(w.store) then status == NotReady
              else !refused && status == if changed then Created else Ready
  {
    ClosingTells(found, o, found.input.name, found.input.pdp, status);
    assert Since(w.trace, trace) == if Unhindered(w.store) then Closing(found, o) else Ending(found, NotReady);
  }

  // A create that the check found missing and that no retry holds back. If the modem refuses the profile, "not ready"
  // is told of an unknown one. A profile that was really created is reported as ready, not as created, exactly if a match
  // of an earlier task is remembered and, for a default profile, the attach list need not be changed; so one that is not
  // to be the default is always reported ready after any match.
  lemma CreatedStatus(w: World, o: Oracle, status: Status)
    requires Unhindered(w.store) && !w.present && w.notify
    ensures var trace := Run(Create, Script(Create)[4..], w, o).trace;
            var answer := o(w.asked);
            if answer.Added? then
              var refused := w.input.isDefault && !o(w.asked + 1).Accepted?;
              var changed := w.input.isDefault && AttachChanged(o, w.asked + 2, answer.id);
              Told(w.input.name, w.input.pdp, status) in Since(w.trace, trace) <==>
                !refused && status == if w.store.matched && !changed then Ready else Created
            else
              trace == w.trace + [Asked(CreateProfile(w.input)), Told("unknown", IPv4, NotReady), Released]
  {
    if o(w.asked).Added? {
      ProfileAdded(w, o);
      Closes(Numbered(w, o), o);
      CreatedTells(w, Run(Create, Script(Create)[4..], w, o).trace, o, status);
    } else {
      ProfileRefused(w, o);
    }
  }

  // The world after the modem has added the profile.
  function Numbered(w: World, o: Oracle): World
    requires o(w.asked).Added?
  {
    Ask(w, CreateProfile(w.input)).(input := w.input.(id := o(w.asked).id, kind := o(w.asked).kind))
  }

  lemma ProfileAdded(w: World, o: Oracle)
    requires Unhindered(w.store) && !w.present && o(w.asked).Added?
    ensures Run(Create, Script(Create)[4..], w, o) == Run(Create, Script(Create)[5..], Numbered(w, o), o)
  {
    hide HaltsAt, Run, PerformAdd, Numbered;
    AddNumbers(w, o);
    Continues(Create, 4, w, o);
  }

  lemma AddNumbers(w: World, o: Oracle)
    requires Unhindered(w.store) && !w.present && o(w.asked).Added?
    ensures PerformAdd(w, o) == Outcome(Numbered(w, o), Proceed)
  {
  }

  lemma ProfileRefused(w: World, o: Oracle)
    requires Unhindered(w.store) && !w.present && w.notify && !o(w.asked).Added?
    ensures Run(Create, Script(Create)[4..], w, o).trace ==
            w.trace + [Asked(CreateProfile(w.input)), Told("unknown", IPv4, NotReady), Released]
  {
    hide HaltsAt, Run, PerformAllocate, PerformReadDefault, PerformReadList, PerformVerify;
    Continues(Create, 4, w, o);
  }

  lemma CreatedTells(w: World, trace: seq<Event>, o: Oracle, status: Status)
    requires w.notify && o(w.asked).Added?
    requires trace == Numbered(w, o).trace + Closing(Numbered(w, o), o)
    ensures var refused := w.input.isDefault && !o(w.asked + 1).Accepted?;
            var changed := w.input.isDefault && AttachChanged(o, w.asked + 2, o(w.asked).id);
            Told(w.input.name, w.input.pdp, status) in Since(w.trace, trace) <==>
              !refused && status == if w.store.matched && !changed then Ready else Created
  {
    var after := Numbered(w, o);
    ClosingTells(after, o, w.input.name, w.input.pdp, status);
    assert Since(w.trace, trace) == [Asked(CreateProfile(w.input))] + Closing(after, o);
  }

  // A modify gets as far as its notification only if the profile need not change or the change is accepted, and never
  // when the changed profile is to be the default.
  lemma ModifyConfirmed(w: World, o: Oracle)
    requires !w.present
    ensures var ready := PerformAllocate(w, o);
            var checked := PerformVerify(Modify, ready.world).world;
            HaltsAt(Modify, Script(Modify), w, o).None? <==>
              && ready.verdict.Proceed?
              && (w.store.table.Some? || w.store.fetchRetry <= 20)
              && (checked.present || (o(checked.asked).Accepted? && !checked.input.isDefault))
  {
    var s := Script(Modify);
    var ready := PerformAllocate(w, o);
    if ready.verdict.Proceed? && (w.store.table.Some? || w.store.fetchRetry <= 20) {
      assert PerformVerify(Modify, ready.world).verdict.Proceed?;
      assert s[1..][0] == Verify && s[1..][1..] == s[2..];
      ChangeConfirmed(PerformVerify(Modify, ready.world).world, o);
    }
  }

  lemma ChangeConfirmed(w: World, o: Oracle)
    ensures HaltsAt(Modify, Script(Modify)[2..], w, o).None? <==>
              w.present || (o(w.asked).Accepted? && !w.input.isDefault)
  {
    Continues(Modify, 2, w, o);
    var d := PerformChange(w, o);
    if d.verdict.Proceed? {
      DefaultConfirmed(d.world, o);
    }
  }

  lemma DefaultConfirmed(w: World, o: Oracle)
    ensures HaltsAt(Modify, Script(Modify)[3..], w, o).None? <==> w.present || !w.input.isDefault
  {
    Continues(Modify, 3, w, o);
    LastNotify(PerformSetDefault(Modify, w, o).world, o);
  }

  lemma LastNotify(w: World, o: Oracle)
    ensures HaltsAt(Modify, Script(Modify)[4..], w, o).None?
  {
    Continues(Modify, 4, w, o);
    assert Script(Modify)[5..] == [];
  }
}
