/**
 Everything the four profile operations do, event by event, read off the state a task starts with and the answers of
 the modem, with no script or stage at hand.
 */
module ProfileTraces {
  import opened Wrappers
  import opened ProfileScript
  import opened ProfileProofs
  import opened ProfileStatus

  // ---- a client and the default profile ----

  predicate HasClient(w: World, o: Oracle) {
    w.store.clientValid || o(w.asked).Accepted?
  }

  function ClientRequests(w: World): seq<Event> {
    if w.store.clientValid then [] else [Asked(AllocateClient)]
  }

  // The default profile is cached, or its number and then its settings can be read.
  predicate HasDefault(w: World, o: Oracle) {
    w.store.defaultCached || (o(w.asked).Number? && o(w.asked + 1).Settled?)
  }

  // The settings asked for are those of the number that was answered.
  function DefaultRequests(w: World, o: Oracle): seq<Event> {
    if w.store.defaultCached then []
    else if o(w.asked).Number? then [Asked(GetDefaultNumber), Asked(GetDefaultSettings(o(w.asked).number))]
    else [Asked(GetDefaultNumber)]
  }

  lemma ClientStep(w: World, o: Oracle)
    ensures var d := PerformAllocate(w, o);
            && d.verdict == (if HasClient(w, o) then Proceed else Skip)
            && d.world == w.(asked := w.asked + |ClientRequests(w)|, trace := w.trace + ClientRequests(w),
                             store := w.store.(clientValid := HasClient(w, o)))
  {
    assert w.trace + [] == w.trace;
  }

  // A profile that is read has the fields of its settings, each in its place.
  predicate Reads(p: Profile, s: Settings) {
    && p.context == s.context && p.pdp == s.pdp && p.auth == s.auth
    && p.apn == s.apn && p.user == s.user && p.password == s.password
    && p.noRoaming == s.noRoaming && p.apnDisabled == s.apnDisabled
  }

  // The default profile is left alone if it is cached. Otherwise it is read: its number, then the settings of that
  // number; the mark is not set. If they do not arrive, nothing of an earlier default is left.
  lemma DefaultStep(w: World, o: Oracle)
    ensures var d := PerformReadDefault(w, o);
            && d.verdict == (if HasDefault(w, o) then Proceed else Skip)
            && d.world.asked == w.asked + |DefaultRequests(w, o)|
            && d.world.trace == w.trace + DefaultRequests(w, o)
            && d.world.store.defaultCached == HasDefault(w, o)
            && d.world == w.(asked := d.world.asked, trace := d.world.trace,
                             store := w.store.(defaultCached := d.world.store.defaultCached,
                                               defaultProfile := d.world.store.defaultProfile))
  {
    assert w.trace + [] == w.trace;
  }

  // The default profile that a task has read, field by field: its number is the one answered, all else comes from the
  // settings, and the mark is not set.
  predicate DefaultIs(p: Profile, w: World, o: Oracle) {
    o(w.asked).Number? && o(w.asked + 1).Settled? &&
    var s := o(w.asked + 1).settings;
    p.id == o(w.asked).number && p.kind == ThreeGpp && p.name == s.name && !p.isDefault && Reads(p, s)
  }

  lemma DefaultRead(w: World, o: Oracle)
    ensures var p := PerformReadDefault(w, o).world.store.defaultProfile;
            if w.store.defaultCached then p == w.store.defaultProfile
            else if HasDefault(w, o) then DefaultIs(p, w, o)
            else p.apn == "" && p.id == if o(w.asked).Number? then o(w.asked).number else 0
  {
    hide SettingsReply, Reads;
    if !w.store.defaultCached && o(w.asked).Number? {
      var n := o(w.asked).number;
      var store := w.store.(defaultCached := false, defaultProfile := BLANK.(id := n));
      SettingsRead(Ask(Ask(w, GetDefaultNumber).(store := store), GetDefaultSettings(n)), o);
    }
  }

  lemma SettingsRead(w: World, o: Oracle)
    requires w.asked > 0
    ensures var before, p := w.store.defaultProfile, SettingsReply(w, o).world.store.defaultProfile;
            match o(w.asked - 1)
            case Settled(s) =>
              && p.id == before.id && p.kind == before.kind && p.isDefault == before.isDefault
              && p.name == s.name && Reads(p, s)
            case _ => p == before
  {
  }

  // ---- reading the list ----

  // The requests for the entries' settings, up to the first that is not answered by settings.
  function Readings(o: Oracle, at: nat, entries: seq<ListEntry>, i: nat): seq<Event>
    requires i <= |entries|
    decreases |entries| - i
  {
    if i == |entries| then []
    else [Asked(GetProfileSettings(entries[i].id))] + if o(at).Settled? then Readings(o, at + 1, entries, i + 1) else []
  }

  function ListRequests(o: Oracle, at: nat): seq<Event> {
    [Asked(GetProfileList)] + if o(at).Listed? then Readings(o, at + 1, o(at).entries, 0) else []
  }

  // The failed fetches in a row: each profile read ends the row, and only a refusal adds to it.
  function FetchRetries(retry: nat, o: Oracle, at: nat, entries: seq<ListEntry>, i: nat): nat
    requires i <= |entries|
    decreases |entries| - i
  {
    if i == |entries| || o(at).Failed? then retry
    else if o(at).Settled? then FetchRetries(0, o, at + 1, entries, i + 1)
    else retry + 1
  }

  function ListRetries(retry: nat, o: Oracle, at: nat): nat {
    if o(at).Listed? then FetchRetries(retry, o, at + 1, o(at).entries, 0) else retry
  }

  // What reading a list leaves alone.
  predicate ListKeeps(before: World, after: World) {
    && after.input == before.input && after.present == before.present && after.notify == before.notify
    && after.store.clientValid == before.store.clientValid
    && after.store.defaultCached == before.store.defaultCached
    && after.store.defaultProfile == before.store.defaultProfile
    && after.store.matched == before.store.matched
    && after.store.createRetry == before.store.createRetry
  }

  lemma {:induction false} FillTrace(w: World, o: Oracle, entries: seq<ListEntry>, i: nat)
    requires i <= |entries|
    ensures var d := FillFrom(w, o, entries, i);
            && d.verdict.Proceed?
            && d.world.trace == w.trace + Readings(o, w.asked, entries, i)
            && d.world.asked == w.asked + |Readings(o, w.asked, entries, i)|
            && d.world.store.fetchRetry == FetchRetries(w.store.fetchRetry, o, w.asked, entries, i)
            && ListKeeps(w, d.world)
    decreases |entries| - i
  {
    if i < |entries| && o(w.asked).Settled? {
      hide FillFrom, Kept;
      var s := o(w.asked).settings;
      FillOnward(w, o, entries, i, s);
      KeptWorld(w, entries[i], s);
      FillTrace(Kept(w, entries[i], s), o, entries, i + 1);
      Joined(w.trace, [Asked(GetProfileSettings(entries[i].id))], Readings(o, w.asked + 1, entries, i + 1));
    } else {
      FillStops(w, o, entries, i);
    }
  }

  lemma FillStops(w: World, o: Oracle, entries: seq<ListEntry>, i: nat)
    requires i <= |entries| && (i < |entries| ==> !o(w.asked).Settled?)
    ensures var d := FillFrom(w, o, entries, i);
            && d.verdict.Proceed?
            && d.world.trace == w.trace + Readings(o, w.asked, entries, i)
            && d.world.asked == w.asked + |Readings(o, w.asked, entries, i)|
            && d.world.store.fetchRetry == FetchRetries(w.store.fetchRetry, o, w.asked, entries, i)
            && ListKeeps(w, d.world)
  {
  }

  lemma KeptWorld(w: World, entry: ListEntry, s: Settings)
    ensures var k := Kept(w, entry, s);
            && k.trace == w.trace + [Asked(GetProfileSettings(entry.id))] && k.asked == w.asked + 1
            && k.store.fetchRetry == 0 && ListKeeps(w, k)
  {
  }

  // The world in which a list is waited for.
  function Listing(w: World): World {
    Ask(w.(store := w.store.(collected := false)), GetProfileList)
  }

  lemma EmptyList(op: Operation, w: World, o: Oracle)
    requires !op.Create? || w.store.table.None?
    requires !o(w.asked).Listed? || o(w.asked).entries == []
    ensures PerformReadList(op, w, o) == Outcome(Emptied(Listing(w)), Proceed)
  {
    hide Emptied, FillFrom;
  }

  lemma FullList(op: Operation, w: World, o: Oracle)
    requires !op.Create? || w.store.table.None?
    requires o(w.asked).Listed? && o(w.asked).entries != []
    ensures PerformReadList(op, w, o) ==
            FillFrom(Listing(w).(store := Listing(w).store.(table := Some([]))), o, o(w.asked).entries, 0)
  {
    hide Emptied, FillFrom;
  }

  lemma ListStep(op: Operation, w: World, o: Oracle)
    requires !op.Create? || w.store.table.None?
    ensures var d := PerformReadList(op, w, o);
            && d.verdict.Proceed?
            && d.world.trace == w.trace + ListRequests(o, w.asked)
            && d.world.asked == w.asked + |ListRequests(o, w.asked)|
            && d.world.store.fetchRetry == ListRetries(w.store.fetchRetry, o, w.asked)
            && ListKeeps(w, d.world)
  {
    hide PerformReadList, FillFrom;
    if o(w.asked).Listed? && o(w.asked).entries != [] {
      FullList(op, w, o);
      FillTrace(Listing(w).(store := Listing(w).store.(table := Some([]))), o, o(w.asked).entries, 0);
      Joined(w.trace, [Asked(GetProfileList)], Readings(o, w.asked + 1, o(w.asked).entries, 0));
    } else {
      EmptyList(op, w, o);
    }
  }

  // The caller's list, field by field: the modem's profiles in their order, the default one marked.
  lemma ListedProfiles(op: Operation, w: World, o: Oracle, entries: seq<ListEntry>, settings: seq<Settings>)
    requires !op.Create? || w.store.table.None?
    requires o(w.asked) == Listed(entries) && entries != []
    requires |settings| == |entries| && Answers(o, w.asked + 1, settings)
    ensures var table := PerformReadList(op, w, o).world.store.table;
            && table.Some? && |table.value| == |entries|
            && forall j :: 0 <= j < |entries| ==>
                 var p := table.value[j];
                 && p.id == entries[j].id && p.name == entries[j].name && p.kind == ThreeGpp
                 && Reads(p, settings[j])
                 && (p.isDefault <==> entries[j].id == w.store.defaultProfile.id)
  {
    ListRead(op, w, o, entries, settings);
  }

  // Without a list, or with an empty one, no profiles are left; a table that was there stays, empty.
  lemma NothingListed(op: Operation, w: World, o: Oracle)
    requires !op.Create? || w.store.table.None?
    requires !o(w.asked).Listed? || o(w.asked).entries == []
    ensures var after := PerformReadList(op, w, o).world.store;
            after.table == (if w.store.table.Some? then Some([]) else None) && after.collected
  {
    hide PerformReadList;
    EmptyList(op, w, o);
  }

  // ---- delete ----

  // The end of a task that gets to its notification.
  function Finish(callback: bool, p: Profile, status: Status): seq<Event> {
    (if callback then [Told(p.name, p.pdp, status)] else []) + [Released]
  }

  lemma EndingIs(w: World, status: Status)
    ensures Ending(w, status) == Finish(w.notify, w.input, status)
  {
  }

  lemma NotifyEnds(op: Operation, k: nat, w: World, o: Oracle)
    requires k + 1 == |Script(op)| && Script(op)[k].Notify?
    ensures Run(op, Script(op)[k..], w, o).trace == w.trace + Finish(w.notify, w.input, FinalStatus(op, w.store))
  {
    Continues(op, k, w, o);
    assert Script(op)[k + 1..] == [];
  }

  // A delete asks for a client if it has none, then for the removal of the profile it is given, and once that is accepted
  // for the list, and tells that the profile is deleted unless retries are pending then. It stops at the first failure.
  function DeleteEvents(w: World, p: Profile, callback: bool, o: Oracle): seq<Event> {
    var at := w.asked + |ClientRequests(w)|;
    ClientRequests(w) + if HasClient(w, o) then RemoveEvents(w.store, at, p, callback, o) else [Released]
  }

  function RemoveEvents(store: Store, at: nat, p: Profile, callback: bool, o: Oracle): seq<Event> {
    [Asked(DeleteProfile(p.id))] +
    if o(at).Accepted? then ListRequests(o, at + 1) + DeletedEnd(store, at + 1, p, callback, o) else [Released]
  }

  function DeletedEnd(store: Store, at: nat, p: Profile, callback: bool, o: Oracle): seq<Event> {
    Finish(callback, p, if store.createRetry == 0 && ListRetries(store.fetchRetry, o, at) == 0 then Deleted else NotReady)
  }

  lemma RemoveStep(w: World, o: Oracle)
    ensures var d := PerformRemove(w, o);
            && d.verdict == (if o(w.asked).Accepted? then Proceed else Skip)
            && d.world == w.(asked := w.asked + 1, trace := w.trace + [Asked(DeleteProfile(w.input.id))])
  {
  }

  lemma DeletedTail(w: World, o: Oracle)
    ensures Run(Delete, Script(Delete)[2..], w, o).trace ==
            w.trace + (ListRequests(o, w.asked) + DeletedEnd(w.store, w.asked, w.input, w.notify, o))
  {
    hide Run, HaltsAt, PerformReadList, ListRequests, ListRetries, Finish;
    Continues(Delete, 2, w, o);
    ListStep(Delete, w, o);
    NotifyEnds(Delete, 3, PerformReadList(Delete, w, o).world, o);
  }

  lemma RemoveTail(w: World, o: Oracle)
    ensures Run(Delete, Script(Delete)[1..], w, o).trace == w.trace + RemoveEvents(w.store, w.asked, w.input, w.notify, o)
  {
    hide Run, HaltsAt, PerformRemove, ListRequests, ListRetries, Finish;
    Continues(Delete, 1, w, o);
    RemoveStep(w, o);
    if o(w.asked).Accepted? {
      DeletedTail(w.(asked := w.asked + 1, trace := w.trace + [Asked(DeleteProfile(w.input.id))]), o);
    }
  }

  // A call on an open device, over all stores, profiles and answers.
  lemma DeleteCall(w: World, p: Profile, callback: bool, fromDb: Profile, inTime: bool, o: Oracle)
    ensures var end := Operated(w, Delete, Some(p), callback, true, fromDb, inTime, o).world;
            end.trace == w.trace + DeleteEvents(w, p, callback, o)
  {
    hide Run, HaltsAt, PerformAllocate, RemoveEvents;
    var start := Started(w, Delete, Some(p), callback, fromDb);
    assert Script(Delete)[0..] == Script(Delete);
    Continues(Delete, 0, start, o);
    ClientStep(start, o);
    if HasClient(start, o) {
      RemoveTail(PerformAllocate(start, o).world, o);
      SameRemoval(start.store, PerformAllocate(start, o).world.store, start.asked + |ClientRequests(start)|, p, callback, o);
    }
  }

  lemma SameRemoval(a: Store, b: Store, at: nat, p: Profile, callback: bool, o: Oracle)
    requires a.createRetry == b.createRetry && a.fetchRetry == b.fetchRetry
    ensures RemoveEvents(a, at, p, callback, o) == RemoveEvents(b, at, p, callback, o)
  {
  }

  predicate IsRemoval(e: Event) {
    e.Asked? && e.request.DeleteProfile?
  }

  lemma {:induction false} ReadingsRemoveNothing(o: Oracle, at: nat, entries: seq<ListEntry>, i: nat)
    requires i <= |entries|
    ensures forall e :: e in Readings(o, at, entries, i) ==> !IsRemoval(e)
    decreases |entries| - i
  {
    if i < |entries| {
      ReadingsRemoveNothing(o, at + 1, entries, i + 1);
    }
  }

  // A delete asks for one removal, that of the profile it is given, exactly if there is a client or one can be had, and
  // before anything else then. No other operation asks for any.
  lemma Removals(w: World, op: Operation, p: Profile, callback: bool, fromDb: Profile, inTime: bool, o: Oracle)
    ensures var end := Operated(w, op, Some(p), callback, true, fromDb, inTime, o).world;
            && w.trace <= end.trace
            && (forall i :: |w.trace| <= i < |end.trace| ==>
                  && (IsRemoval(end.trace[i]) <==>
                        && op.Delete? && (w.store.clientValid || o(w.asked).Accepted?)
                        && i == |w.trace| + if w.store.clientValid then 0 else 1)
                  && (IsRemoval(end.trace[i]) ==> end.trace[i].request.id == p.id))
            && (op.Delete? && (w.store.clientValid || o(w.asked).Accepted?) ==> |end.trace| > |w.trace| + 1)
  {
    if op.Delete? {
      DeleteCall(w, p, callback, fromDb, inTime, o);
      RemovalsIn(w, p, callback, o);
    } else {
      RunRemovesNothing(op, Script(op), Started(w, op, Some(p), callback, fromDb), o);
    }
  }

  lemma RemovalsIn(w: World, p: Profile, callback: bool, o: Oracle)
    ensures var events := DeleteEvents(w, p, callback, o);
            && (forall i :: 0 <= i < |events| ==>
                  && (IsRemoval(events[i]) <==> HasClient(w, o) && i == |ClientRequests(w)|)
                  && (IsRemoval(events[i]) ==> events[i].request.id == p.id))
            && (HasClient(w, o) ==> |events| > |ClientRequests(w)| + 1)
  {
    hide RemoveEvents;
    var at := w.asked + |ClientRequests(w)|;
    AfterRemoval(w.store, at, p, callback, o);
  }

  lemma AfterRemoval(store: Store, at: nat, p: Profile, callback: bool, o: Oracle)
    ensures var events := RemoveEvents(store, at, p, callback, o);
            && |events| > 1 && events[0] == Asked(DeleteProfile(p.id))
            && forall i :: 0 < i < |events| ==> !IsRemoval(events[i])
  {
    if o(at + 1).Listed? {
      ReadingsRemoveNothing(o, at + 2, o(at + 1).entries, 0);
    }
    var more := if o(at).Accepted? then ListRequests(o, at + 1) + DeletedEnd(store, at + 1, p, callback, o) else [Released];
    assert forall e :: e in more ==> !IsRemoval(e);
  }

  lemma {:induction false} RunRemovesNothing(op: Operation, stages: seq<Stage>, w: World, o: Oracle)
    requires Remove !in stages
    ensures var end := Run(op, stages, w, o);
            w.trace <= end.trace && forall i :: |w.trace| <= i < |end.trace| ==> !IsRemoval(end.trace[i])
    decreases |stages|
  {
    hide Perform;
    if stages != [] {
      var d := Perform(op, stages[0], w, o);
      StageAppends(op, stages[0], w, o);
      if d.verdict.Proceed? {
        RunRemovesNothing(op, stages[1..], d.world, o);
      }
    }
  }

  // ---- list ----

  // A list asks for a client if it has none, for the default profile unless it is cached, and for the list.
  function ListEvents(w: World, o: Oracle): seq<Event> {
    var at := w.asked + |ClientRequests(w)|;
    ClientRequests(w) + if HasClient(w, o) then DefaultThenList(w.(asked := at), o) else [Released]
  }

  function DefaultThenList(w: World, o: Oracle): seq<Event> {
    DefaultRequests(w, o)
    + (if HasDefault(w, o) then ListRequests(o, w.asked + |DefaultRequests(w, o)|) else [])
    + [Released]
  }

  lemma ListTail(w: World, o: Oracle)
    ensures Run(List, Script(List)[2..], w, o).trace == w.trace + (ListRequests(o, w.asked) + [Released])
  {
    hide HaltsAt, PerformReadList, ListRequests;
    Continues(List, 2, w, o);
    ListStep(List, w, o);
    assert Script(List)[3..] == [];
  }

  lemma DefaultTail(w: World, o: Oracle)
    ensures Run(List, Script(List)[1..], w, o).trace == w.trace + DefaultThenList(w, o)
  {
    hide Run, HaltsAt, PerformReadDefault, DefaultRequests, ListRequests, HasDefault;
    Continues(List, 1, w, o);
    DefaultStep(w, o);
    if HasDefault(w, o) {
      ListTail(PerformReadDefault(w, o).world, o);
      Grouped(w.trace, DefaultRequests(w, o), ListRequests(o, w.asked + |DefaultRequests(w, o)|), [Released]);
    } else {
      Grouped(w.trace, DefaultRequests(w, o), [], [Released]);
    }
  }

  lemma Grouped(a: seq<Event>, b: seq<Event>, c: seq<Event>, d: seq<Event>)
    ensures a + b + (c + d) == a + (b + c + d) && a + b + d == a + (b + [] + d)
  {
  }

  lemma ListCall(w: World, callback: bool, fromDb: Profile, inTime: bool, o: Oracle)
    ensures Operated(w, List, None, callback, true, fromDb, inTime, o).world.trace == w.trace + ListEvents(w, o)
  {
    hide Run, HaltsAt, PerformAllocate, DefaultThenList;
    var start := Started(w, List, None, callback, fromDb);
    assert Script(List)[0..] == Script(List);
    Continues(List, 0, start, o);
    ClientStep(start, o);
    if HasClient(start, o) {
      DefaultTail(PerformAllocate(start, o).world, o);
      SameDefault(PerformAllocate(start, o).world, w.(asked := w.asked + |ClientRequests(w)|), o);
    }
  }

  lemma SameDefault(a: World, b: World, o: Oracle)
    requires a.asked == b.asked && a.store.defaultCached == b.store.defaultCached
    ensures DefaultThenList(a, o) == DefaultThenList(b, o)
  {
  }

  // Whoever waits for a list, whatever an earlier one has left behind, is handed the table that is read exactly if there
  // is a client and a default profile, or they can be had, and the wait has not ended by then.
  lemma ListGiven(w: World, callback: bool, fromDb: Profile, inTime: bool, o: Oracle)
    ensures var given := Operated(w, List, None, callback, true, fromDb, inTime, o);
            var start := w.(store := w.store.(collected := false), input := BLANK, present := false, notify := false);
            var end := Run(List, Script(List), start, o);
            var complete := HasClient(w, o) && HasDefault(w.(asked := w.asked + |ClientRequests(w)|), o);
            if complete && inTime then given.profiles == (if end.store.table.Some? then end.store.table.value else [])
            else given == Returned(end, [])
  {
    hide Run, HaltsAt, PerformAllocate, PerformReadDefault, HasDefault;
    var start := Started(w, List, None, callback, fromDb);
    ListAnswered(start, o, inTime);
    assert Script(List)[0..] == Script(List);
    Continues(List, 0, start, o);
    ClientStep(start, o);
    if HasClient(start, o) {
      var ready := PerformAllocate(start, o).world;
      Continues(List, 1, ready, o);
      DefaultStep(ready, o);
      SameHas(w.(asked := w.asked + |ClientRequests(w)|), ready, o);
      if HasDefault(ready, o) {
        ListCollected(PerformReadDefault(ready, o).world, o);
      }
    }
  }

  lemma SameHas(a: World, b: World, o: Oracle)
    requires a.asked == b.asked && a.store.defaultCached == b.store.defaultCached
    ensures HasDefault(a, o) == HasDefault(b, o)
  {
  }

  // Without an open device nothing is asked for: a create, delete or modify tells at once that an unknown profile is not
  // ready, and a list gives nothing. A modify without a profile does nothing at all.
  lemma CallRefused(w: World, op: Operation, profile: Option<Profile>, callback: bool, deviceOpen: bool, fromDb: Profile,
                    inTime: bool, o: Oracle)
    requires op.Delete? ==> profile.Some?
    ensures !deviceOpen ==>
              Operated(w, op, profile, callback, deviceOpen, fromDb, inTime, o) ==
              Returned(w.(trace := w.trace + if callback && !op.List? then [Told("unknown", IPv4, NotReady)] else []), [])
    ensures deviceOpen && op.Modify? && profile.None? ==>
              Operated(w, op, profile, callback, deviceOpen, fromDb, inTime, o) == Returned(w, [])
  {
    assert w.trace + [] == w.trace;
  }

  // ---- modify ----

  // What a modify or create looks for: the given profile, or the cached default if that has no APN.
  function Sought(w: World, p: Profile): Profile {
    if w.store.table.Some? && p.apn == "" then w.store.defaultProfile else p
  }

  predicate IsListed(w: World, p: Profile) {
    w.store.table.Some? && exists j :: 0 <= j < |w.store.table.value| && Agrees(w.store.table.value[j], p)
  }

  // The status of a profile that was looked for: "not ready" while misses or failed fetches are pending.
  function Looked(createRetry: nat, fetchRetry: nat, matched: bool): Status {
    if createRetry != 0 || fetchRetry != 0 then NotReady else if matched then Ready else Created
  }

  // A miss is counted; the third in a row ends the count.
  function Misses(createRetry: nat): nat {
    if createRetry >= 2 then 0 else createRetry + 1
  }

  // A modify of a profile that no entry of the table agrees with: the profile sought is sent, and if the modem takes it
  // and it is to be the default, its number is set, after which nothing is told.
  function ChangeEvents(w: World, p: Profile, callback: bool, o: Oracle): seq<Event> {
    [Asked(ModifyProfile(p))] +
    if !o(w.asked).Accepted? then [Released]
    else if p.isDefault then [Asked(SetDefaultNumber(p.kind, p.id)), Released]
    else if w.store.table.Some? then Finish(callback, p, Looked(Misses(w.store.createRetry), 0, w.store.matched))
    else Finish(callback, p, Looked(w.store.createRetry, w.store.fetchRetry, w.store.matched))
  }

  lemma UnchangedTail(w: World, o: Oracle)
    requires w.present
    ensures Run(Modify, Script(Modify)[2..], w, o).trace ==
            w.trace + Finish(w.notify, w.input, Looked(w.store.createRetry, w.store.fetchRetry, w.store.matched))
  {
    hide Run, HaltsAt, PerformVerify, Finish;
    Continues(Modify, 2, w, o);
    Continues(Modify, 3, w, o);
    NotifyEnds(Modify, 4, w, o);
  }

  lemma ChangedTail(w: World, o: Oracle)
    requires !w.present
    ensures var end := Run(Modify, Script(Modify)[2..], w, o);
            && end.trace ==
               w.trace +
               ([Asked(ModifyProfile(w.input))] +
                if !o(w.asked).Accepted? then [Released]
                else if w.input.isDefault then [Asked(SetDefaultNumber(w.input.kind, w.input.id)), Released]
                else Finish(w.notify, w.input, Looked(w.store.createRetry, w.store.fetchRetry, w.store.matched)))
            && end.store.defaultProfile ==
               if o(w.asked).Accepted? && w.input.isDefault && o(w.asked + 1).Accepted? then w.input
               else w.store.defaultProfile
  {
    hide Run, HaltsAt, PerformChange, Finish;
    Continues(Modify, 2, w, o);
    ChangeStep(w, o);
    if o(w.asked).Accepted? {
      SetTail(w.(asked := w.asked + 1, trace := w.trace + [Asked(ModifyProfile(w.input))]), o);
    }
  }

  lemma ChangeStep(w: World, o: Oracle)
    requires !w.present
    ensures PerformChange(w, o) ==
            Outcome(w.(asked := w.asked + 1, trace := w.trace + [Asked(ModifyProfile(w.input))]),
                    if o(w.asked).Accepted? then Proceed else Skip)
  {
  }

  // After a change: the default is set, and then nothing is told; or the task notifies.
  lemma SetTail(w: World, o: Oracle)
    requires !w.present
    ensures var end := Run(Modify, Script(Modify)[3..], w, o);
            && end.trace ==
               w.trace +
               (if w.input.isDefault then [Asked(SetDefaultNumber(w.input.kind, w.input.id)), Released]
                else Finish(w.notify, w.input, Looked(w.store.createRetry, w.store.fetchRetry, w.store.matched)))
            && end.store.defaultProfile ==
               if w.input.isDefault && o(w.asked).Accepted? then w.input else w.store.defaultProfile
  {
    hide Run, HaltsAt, PerformVerify, Finish;
    Continues(Modify, 3, w, o);
    if !w.input.isDefault {
      NotifyEnds(Modify, 4, w, o);
      NotifyKeeps(Modify, 4, w, o);
    }
  }

  lemma NotifyKeeps(op: Operation, k: nat, w: World, o: Oracle)
    requires k + 1 == |Script(op)| && Script(op)[k].Notify?
    ensures Run(op, Script(op)[k..], w, o).store == w.store
  {
    Continues(op, k, w, o);
    assert Script(op)[k + 1..] == [];
  }

  // ---- the entry that is found ----

  // The first entry of the table that agrees, apart from the one to be changed if that is to be passed over, with the
  // default mark of the profile sought.
  predicate Finds(w: World, p: Profile, passes: bool, i: nat, found: Profile) {
    && w.store.table.Some? && i < |w.store.table.value|
    && Agrees(w.store.table.value[i], p)
    && (passes ==> w.store.table.value[i].id != p.id)
    && (forall j :: 0 <= j < i && Agrees(w.store.table.value[j], p) ==> passes && w.store.table.value[j].id == p.id)
    && found == w.store.table.value[i].(isDefault := w.store.table.value[i].isDefault || p.isDefault)
  }

  // A create takes over the first entry that agrees; a modify passes over the entry to be changed if another one agrees.
  // The entry gets the mark in the table too.
  lemma CheckAdopts(op: Operation, w: World) returns (i: nat)
    requires IsListed(w, Sought(w, w.input))
    ensures var p, after := Sought(w, w.input), PerformVerify(op, w).world;
            && Finds(w, p, op.Modify? && ListedElsewhere(w, p), i, after.input)
            && after.store.table == Some(w.store.table.value[i := after.input])
  {
    var table, p := w.store.table.value, Sought(w, w.input);
    match FirstMatch(table, p, op.Modify?, 0)
    case Some(k) =>
      i := k;
      AdoptsFirst(op, w, k);
      FirstOf(table, p, op.Modify?, k);
    case None =>
      SomeMatches(table, p);
      i := FirstMatch(table, p, false, 0).value;
      AdoptsSecond(op, w, i);
      FirstOf(table, p, false, i);
      NoneElsewhere(w, p);
  }

  lemma AdoptsFirst(op: Operation, w: World, i: nat)
    requires w.store.table.Some? && FirstMatch(w.store.table.value, Sought(w, w.input), op.Modify?, 0) == Some(i)
    ensures var table, p, after := w.store.table.value, Sought(w, w.input), PerformVerify(op, w).world;
            && after.input == table[i].(isDefault := table[i].isDefault || p.isDefault)
            && after.store.table == Some(table[i := after.input])
  {
    hide Agrees, FirstMatch;
  }

  lemma AdoptsSecond(op: Operation, w: World, i: nat)
    requires w.store.table.Some? && FirstMatch(w.store.table.value, Sought(w, w.input), op.Modify?, 0).None?
    requires FirstMatch(w.store.table.value, Sought(w, w.input), false, 0) == Some(i)
    ensures var table, p, after := w.store.table.value, Sought(w, w.input), PerformVerify(op, w).world;
            && after.input == table[i].(isDefault := table[i].isDefault || p.isDefault)
            && after.store.table == Some(table[i := after.input])
  {
    hide PerformVerify, Agrees, FirstMatch, Missing;
    var table, missed := w.store.table.value, Missing(w.(input := Sought(w, w.input), present := false));
    SecondScan(op, w);
    RecheckAdopts(missed, table, i);
  }

  lemma SecondScan(op: Operation, w: World)
    requires w.store.table.Some? && FirstMatch(w.store.table.value, Sought(w, w.input), op.Modify?, 0).None?
    ensures var missed := Missing(w.(input := Sought(w, w.input), present := false));
            PerformVerify(op, w).world == Wrapped(Recheck(missed, w.store.table.value)) && missed.input == Sought(w, w.input)
  {
    hide Agrees, FirstMatch, Recheck, Wrapped;
  }

  lemma RecheckAdopts(w: World, table: seq<Profile>, i: nat)
    requires FirstMatch(table, w.input, false, 0) == Some(i)
    ensures var after := Wrapped(Recheck(w, table));
            && after.input == table[i].(isDefault := table[i].isDefault || w.input.isDefault)
            && after.store.table == Some(table[i := after.input])
  {
    hide Agrees, FirstMatch;
  }

  lemma FirstOf(table: seq<Profile>, p: Profile, skip: bool, i: nat)
    requires FirstMatch(table, p, skip, 0) == Some(i)
    ensures Agrees(table[i], p) && (skip ==> table[i].id != p.id)
    ensures forall j :: 0 <= j < i && Agrees(table[j], p) ==> skip && table[j].id == p.id
  {
    hide Agrees;
    forall j | 0 <= j < i && Agrees(table[j], p)
      ensures skip && table[j].id == p.id
    {
      assert !Candidate(table[j], p, skip);
    }
  }

  lemma SomeMatches(table: seq<Profile>, p: Profile)
    requires exists j :: 0 <= j < |table| && Agrees(table[j], p)
    ensures FirstMatch(table, p, false, 0).Some?
  {
    hide Agrees;
    var j :| 0 <= j < |table| && Agrees(table[j], p);
    assert Candidate(table[j], p, false);
  }

  lemma NoneElsewhere(w: World, p: Profile)
    requires w.store.table.Some? && FirstMatch(w.store.table.value, p, true, 0).None?
    ensures !ListedElsewhere(w, p)
  {
    hide Agrees;
    forall j | 0 <= j < |w.store.table.value| && Agrees(w.store.table.value[j], p)
      ensures w.store.table.value[j].id == p.id
    {
      assert !Candidate(w.store.table.value[j], p, true);
    }
  }

  // What the check leaves alone.
  predicate CheckKeeps(before: World, after: World) {
    && after.asked == before.asked && after.notify == before.notify
    && after.store.defaultProfile == before.store.defaultProfile
    && after.store.clientValid == before.store.clientValid && after.store.defaultCached == before.store.defaultCached
  }

  lemma CheckLeaves(op: Operation, w: World)
    ensures CheckKeeps(w, PerformVerify(op, w).world)
    ensures PerformVerify(op, w).verdict ==
            if w.store.table.None? && !w.present && w.store.fetchRetry > 20 then Exit else Proceed
  {
    hide PerformVerify;
    CheckKept(op, w);
    CheckGoes(op, w);
  }

  lemma CheckKept(op: Operation, w: World)
    ensures CheckKeeps(w, PerformVerify(op, w).world)
  {
    hide Agrees, FirstMatch;
  }

  lemma CheckGoes(op: Operation, w: World)
    ensures PerformVerify(op, w).verdict ==
            if w.store.table.None? && !w.present && w.store.fetchRetry > 20 then Exit else Proceed
  {
    hide Agrees, FirstMatch, Adopted, Recheck, Missing, Wrapped;
  }

  lemma CheckWithoutTable(op: Operation, w: World)
    requires w.store.table.None?
    ensures PerformVerify(op, w).world == w
  {
  }

  // The check of a profile that no entry agrees with.
  lemma CheckMisses(op: Operation, w: World)
    requires w.store.table.Some? && !IsListed(w, Sought(w, w.input))
    ensures var after := PerformVerify(op, w).world;
            && !after.present && after.input == Sought(w, w.input) && after.trace == w.trace + [Missed]
            && after.store.createRetry == Misses(w.store.createRetry) && after.store.fetchRetry == 0
            && after.store.matched == w.store.matched && after.store.table == w.store.table
  {
    NoneMatches(w.store.table.value, Wanted(w), true);
    NoneMatches(w.store.table.value, Wanted(w), false);
    BothScansMiss(op, w);
  }

  lemma NoneMatches(table: seq<Profile>, p: Profile, skip: bool)
    requires forall j :: 0 <= j < |table| ==> !Agrees(table[j], p)
    ensures FirstMatch(table, p, skip, 0).None?
  {
  }

  // An entry other than the one to be changed agrees.
  predicate ListedElsewhere(w: World, p: Profile) {
    w.store.table.Some? &&
    var table := w.store.table.value;
    exists j :: 0 <= j < |table| && Agrees(table[j], p) && table[j].id != p.id
  }

  // The check of a modify for which an entry agrees: if it is another than the one to be changed, the first scan finds
  // it; otherwise a miss is noted before the second one does, which takes back the count.
  lemma ModifyFinds(w: World)
    requires IsListed(w, Sought(w, w.input))
    ensures var after, elsewhere := PerformVerify(Modify, w).world, ListedElsewhere(w, Sought(w, w.input));
            && after.present && after.store.matched
            && Agrees(after.input, Sought(w, w.input))
            && after.store.table.Some? && after.input in after.store.table.value
            && after.trace == w.trace + (if elsewhere then [] else [Missed])
            && after.store.createRetry == (if elsewhere then w.store.createRetry else 0)
            && after.store.fetchRetry == (if elsewhere then w.store.fetchRetry else 0)
  {
    hide PerformVerify, Agrees;
    VerifyDecidesByAgreement(Modify, w);
    var table, p := w.store.table.value, Sought(w, w.input);
    match FirstMatch(table, p, true, 0)
    case Some(i) =>
      FirstScanCounts(w, i);
      assert table[i].id != p.id;
    case None =>
      forall j | 0 <= j < |table| && Agrees(table[j], p)
        ensures table[j].id == p.id
      {
        assert !Candidate(table[j], p, true);
      }
      SecondScanCounts(w);
  }

  lemma FirstScanCounts(w: World, i: nat)
    requires w.store.table.Some? && FirstMatch(w.store.table.value, Sought(w, w.input), true, 0) == Some(i)
    ensures Agrees(w.store.table.value[i], Sought(w, w.input))
    ensures var after := PerformVerify(Modify, w).world;
            && after.trace == w.trace + []
            && after.store.createRetry == w.store.createRetry && after.store.fetchRetry == w.store.fetchRetry
  {
    assert w.trace + [] == w.trace;
  }

  lemma SecondScanCounts(w: World)
    requires w.store.table.Some? && FirstMatch(w.store.table.value, Sought(w, w.input), true, 0).None?
    requires PerformVerify(Modify, w).world.present
    ensures var after := PerformVerify(Modify, w).world;
            && after.trace == w.trace + [Missed]
            && after.store.createRetry == 0 && after.store.fetchRetry == 0
  {
  }

  // What a modify does once it has a client, given the entry it finds if one agrees.
  function ModifyEvents(w: World, p: Profile, callback: bool, found: Profile, o: Oracle): seq<Event> {
    var sought := Sought(w, p);
    if w.store.table.None? && w.store.fetchRetry > 20 then [ProcessExit]
    else if ListedElsewhere(w, sought) then
      Finish(callback, found, Looked(w.store.createRetry, w.store.fetchRetry, true))
    else if IsListed(w, sought) then [Missed] + Finish(callback, found, Looked(0, 0, true))
    else (if w.store.table.Some? then [Missed] else []) + ChangeEvents(w, sought, callback, o)
  }

  // The default profile it leaves cached: the one sought, if that was changed and set as the default.
  function ModifiedDefault(w: World, p: Profile, o: Oracle): Profile {
    var sought := Sought(w, p);
    if !(w.store.table.None? && w.store.fetchRetry > 20) && !IsListed(w, sought)
       && o(w.asked).Accepted? && sought.isDefault && o(w.asked + 1).Accepted? then sought
    else w.store.defaultProfile
  }

  lemma ModifyChecked(w: World, o: Oracle)
    requires !w.present
    ensures var d := PerformVerify(Modify, w);
            Run(Modify, Script(Modify)[1..], w, o) ==
            if d.verdict.Exit? then Log(d.world, ProcessExit) else Run(Modify, Script(Modify)[2..], d.world, o)
  {
    hide Run, HaltsAt, PerformAllocate, PerformVerify;
    CheckLeaves(Modify, w);
    Continues(Modify, 1, w, o);
  }

  lemma ModifyFound(w: World, o: Oracle) returns (i: nat, found: Profile)
    requires !w.present && IsListed(w, Sought(w, w.input))
    ensures Finds(w, Sought(w, w.input), ListedElsewhere(w, Sought(w, w.input)), i, found)
    ensures var end := Run(Modify, Script(Modify)[1..], w, o);
            && end.trace == w.trace + ModifyEvents(w, w.input, w.notify, found, o)
            && end.store.defaultProfile == w.store.defaultProfile
  {
    hide Run, PerformVerify, Agrees, Finish, Finds;
    var after := PerformVerify(Modify, w).world;
    found := after.input;
    i := CheckAdopts(Modify, w);
    ModifyChecked(w, o);
    CheckLeaves(Modify, w);
    ModifyFinds(w);
    UnchangedTail(after, o);
    UnchangedKeeps(after, o);
    Grouped(w.trace, [Missed], [], Finish(w.notify, found, Looked(0, 0, true)));
  }

  lemma UnchangedKeeps(w: World, o: Oracle)
    requires w.present
    ensures Run(Modify, Script(Modify)[2..], w, o).store.defaultProfile == w.store.defaultProfile
  {
    hide Run, HaltsAt, PerformVerify;
    Continues(Modify, 2, w, o);
    Continues(Modify, 3, w, o);
    NotifyKeeps(Modify, 4, w, o);
  }

  lemma MissedInTable(w: World, o: Oracle)
    requires !w.present && w.store.table.Some? && !IsListed(w, Sought(w, w.input))
    ensures var end := Run(Modify, Script(Modify)[1..], w, o);
            && end.trace == w.trace + ModifyEvents(w, w.input, w.notify, BLANK, o)
            && end.store.defaultProfile == ModifiedDefault(w, w.input, o)
  {
    hide PerformVerify, Run, Finish, Agrees;
    var after := PerformVerify(Modify, w).world;
    ModifyChecked(w, o);
    CheckLeaves(Modify, w);
    CheckMisses(Modify, w);
    ChangedTail(after, o);
    Joined(w.trace, [Missed], ChangeEvents(w, after.input, w.notify, o));
  }

  lemma MissedWithoutTable(w: World, o: Oracle)
    requires !w.present && w.store.table.None?
    ensures var end := Run(Modify, Script(Modify)[1..], w, o);
            && end.trace == w.trace + ModifyEvents(w, w.input, w.notify, BLANK, o)
            && end.store.defaultProfile == ModifiedDefault(w, w.input, o)
  {
    hide PerformVerify, Run, Finish;
    CheckWithoutTable(Modify, w);
    ModifyChecked(w, o);
    CheckLeaves(Modify, w);
    if w.store.fetchRetry <= 20 {
      ChangedTail(w, o);
      assert [] + ChangeEvents(w, w.input, w.notify, o) == ChangeEvents(w, w.input, w.notify, o);
    }
  }

  lemma Joined(a: seq<Event>, b: seq<Event>, c: seq<Event>)
    ensures a + b + c == a + (b + c)
  {
  }

  // A call on an open device, over all stores, profiles and answers.
  lemma ModifyCall(w: World, p: Profile, callback: bool, fromDb: Profile, inTime: bool, o: Oracle)
    returns (i: nat, found: Profile)
    ensures HasClient(w, o) && IsListed(w, Sought(w, p)) ==>
              Finds(w, Sought(w, p), ListedElsewhere(w, Sought(w, p)), i, found)
    ensures var end := Operated(w, Modify, Some(p), callback, true, fromDb, inTime, o).world;
            var ready := w.(asked := w.asked + |ClientRequests(w)|);
            && end.trace ==
               w.trace
               + (ClientRequests(w) + if HasClient(w, o) then ModifyEvents(ready, p, callback, found, o) else [Released])
            && end.store.defaultProfile == if HasClient(w, o) then ModifiedDefault(ready, p, o) else w.store.defaultProfile
  {
    hide Run, HaltsAt, PerformAllocate, PerformVerify, Agrees, Finish, ChangeEvents;
    var start := Started(w, Modify, Some(p), callback, fromDb);
    i, found := 0, BLANK;
    assert Script(Modify)[0..] == Script(Modify);
    Continues(Modify, 0, start, o);
    ClientStep(start, o);
    if HasClient(start, o) {
      var c := PerformAllocate(start, o).world;
      i, found := ModifyFrom(c, o);
      SameSearch(c, w.(asked := w.asked + |ClientRequests(w)|), p, callback, found, o);
      Joined(w.trace, ClientRequests(w), ModifyEvents(c, p, callback, found, o));
    }
  }

  lemma ModifyFrom(w: World, o: Oracle) returns (i: nat, found: Profile)
    requires !w.present
    ensures IsListed(w, Sought(w, w.input)) ==>
              Finds(w, Sought(w, w.input), ListedElsewhere(w, Sought(w, w.input)), i, found)
    ensures var end := Run(Modify, Script(Modify)[1..], w, o);
            && end.trace == w.trace + ModifyEvents(w, w.input, w.notify, found, o)
            && end.store.defaultProfile == ModifiedDefault(w, w.input, o)
  {
    hide Run, Agrees, Finish, ChangeEvents, Finds;
    i, found := 0, BLANK;
    if IsListed(w, Sought(w, w.input)) {
      i, found := ModifyFound(w, o);
    } else if w.store.table.Some? {
      MissedInTable(w, o);
    } else {
      MissedWithoutTable(w, o);
    }
  }

  lemma SameSearch(a: World, b: World, p: Profile, callback: bool, found: Profile, o: Oracle)
    requires a.asked == b.asked && a.store == b.store.(clientValid := a.store.clientValid)
    ensures ModifyEvents(a, p, callback, found, o) == ModifyEvents(b, p, callback, found, o)
    ensures ModifiedDefault(a, p, o) == ModifiedDefault(b, p, o)
    ensures IsListed(a, Sought(a, p)) == IsListed(b, Sought(b, p)) && Sought(a, p) == Sought(b, p)
    ensures a.store.table == b.store.table
  {
  }

  // ---- create ----

  // A create reads the default profile unless it is cached, and the list only if there is no table.
  predicate Opens(w: World, o: Oracle) {
    HasClient(w, o) && HasDefault(w.(asked := w.asked + |ClientRequests(w)|), o)
  }

  function OpeningEvents(w: World, o: Oracle): seq<Event> {
    var ready := w.(asked := w.asked + |ClientRequests(w)|);
    ClientRequests(w) +
    if !HasClient(w, o) then []
    else
      DefaultRequests(ready, o) +
      if HasDefault(ready, o) && w.store.table.None? then ListRequests(o, ready.asked + |DefaultRequests(ready, o)|) else []
  }

  // How a create comes to the check against the table.
  predicate Opened(w: World, o: Oracle, c: World) {
    && c.trace == w.trace + OpeningEvents(w, o) && c.asked == w.asked + |OpeningEvents(w, o)|
    && c.input == w.input && c.present == w.present && c.notify == w.notify
    && c.store.matched == w.store.matched && c.store.createRetry == w.store.createRetry
    && (var ready := w.(asked := w.asked + |ClientRequests(w)|);
        && (if w.store.defaultCached then c.store.defaultProfile == w.store.defaultProfile
            else DefaultIs(c.store.defaultProfile, ready, o))
        && (if w.store.table.Some? then c.store.table == w.store.table && c.store.fetchRetry == w.store.fetchRetry
            else c.store.fetchRetry == ListRetries(w.store.fetchRetry, o, ready.asked + |DefaultRequests(ready, o)|)))
  }

  lemma OpenList(w: World, o: Oracle) returns (c: World)
    ensures Run(Create, Script(Create)[2..], w, o) == Run(Create, Script(Create)[3..], c, o)
    ensures var events := if w.store.table.None? then ListRequests(o, w.asked) else [];
            c.trace == w.trace + events && c.asked == w.asked + |events| && ListKeeps(w, c)
    ensures if w.store.table.Some? then c == w else c.store.fetchRetry == ListRetries(w.store.fetchRetry, o, w.asked)
  {
    hide Run, HaltsAt, ListRequests;
    Continues(Create, 2, w, o);
    c := PerformReadList(Create, w, o).world;
    if w.store.table.None? {
      ListStep(Create, w, o);
    } else {
      assert w.trace + [] == w.trace;
    }
    hide PerformReadList;
  }

  lemma OpenDefault(w: World, o: Oracle) returns (c: World)
    requires HasDefault(w, o)
    ensures Run(Create, Script(Create)[1..], w, o) == Run(Create, Script(Create)[2..], c, o)
    ensures c.trace == w.trace + DefaultRequests(w, o) && c.asked == w.asked + |DefaultRequests(w, o)|
    ensures c == w.(asked := c.asked, trace := c.trace,
                    store := w.store.(defaultCached := true, defaultProfile := c.store.defaultProfile))
    ensures if w.store.defaultCached then c.store.defaultProfile == w.store.defaultProfile
            else DefaultIs(c.store.defaultProfile, w, o)
  {
    hide Run, HaltsAt, PerformReadDefault, DefaultRequests, DefaultIs;
    Continues(Create, 1, w, o);
    DefaultStep(w, o);
    DefaultRead(w, o);
    c := PerformReadDefault(w, o).world;
  }

  lemma CreateOpens(w: World, o: Oracle) returns (c: World)
    requires Opens(w, o)
    ensures Run(Create, Script(Create), w, o) == Run(Create, Script(Create)[3..], c, o) && Opened(w, o, c)
  {
    hide Run, HaltsAt, PerformAllocate, DefaultIs, DefaultRequests, ListRequests, ListRetries, HasDefault;
    assert Script(Create)[0..] == Script(Create);
    Continues(Create, 0, w, o);
    ClientStep(w, o);
    var ready := PerformAllocate(w, o).world;
    SameOpening(w, ready, o);
    var read := OpenDefault(ready, o);
    c := OpenList(read, o);
    var list := if w.store.table.None? then ListRequests(o, read.asked) else [];
    Grouped(w.trace, ClientRequests(w), DefaultRequests(ready, o), list);
    Joined(w.trace + ClientRequests(w), DefaultRequests(ready, o), list);
    Joined(w.trace, ClientRequests(w), DefaultRequests(ready, o) + list);
  }

  lemma SameOpening(w: World, ready: World, o: Oracle)
    requires ready.asked == w.asked + |ClientRequests(w)| && ready.store == w.store.(clientValid := ready.store.clientValid)
    ensures var v := w.(asked := w.asked + |ClientRequests(w)|);
            && HasDefault(ready, o) == HasDefault(v, o) && DefaultRequests(ready, o) == DefaultRequests(v, o)
            && forall p :: DefaultIs(p, ready, o) == DefaultIs(p, v, o)
  {
  }

  lemma CreateStops(w: World, o: Oracle)
    requires !Opens(w, o)
    ensures Run(Create, Script(Create), w, o).trace == w.trace + (OpeningEvents(w, o) + [Released])
  {
    hide Run, HaltsAt, PerformAllocate, PerformReadDefault, DefaultRequests, ListRequests, HasDefault;
    assert Script(Create)[0..] == Script(Create);
    Continues(Create, 0, w, o);
    ClientStep(w, o);
    if HasClient(w, o) {
      var ready := PerformAllocate(w, o).world;
      SameOpening(w, ready, o);
      Continues(Create, 1, ready, o);
      DefaultStep(ready, o);
      assert w.trace + ClientRequests(w) + DefaultRequests(ready, o) + [Released] ==
             w.trace + (ClientRequests(w) + (DefaultRequests(ready, o) + []) + [Released]);
    } else {
      assert w.trace + ClientRequests(w) + [Released] == w.trace + (ClientRequests(w) + [] + [Released]);
    }
  }

  // A create of a profile that is not there: it is sent, and what follows depends on the modem alone.
  function AddEvents(w: World, p: Profile, o: Oracle): seq<Event> {
    [Asked(CreateProfile(p))] +
    match o(w.asked)
    case Added(id, kind) => Closing(w.(asked := w.asked + 1, input := p.(id := id, kind := kind)), o)
    case _ => (if w.notify then [Told("unknown", IPv4, NotReady)] else []) + [Released]
  }

  // What a create does from the check on, given the entry it finds if one agrees. Nothing is asked for while misses or
  // failed fetches are pending.
  function CreateEvents(c: World, found: Profile, o: Oracle): seq<Event> {
    var sought := Sought(c, c.input);
    var pending := c.store.createRetry != 0 || c.store.fetchRetry != 0;
    if c.store.table.None? && c.store.fetchRetry > 20 then [ProcessExit]
    else if IsListed(c, sought) then
      if pending then Finish(c.notify, found, NotReady)
      else Closing(c.(input := found, store := c.store.(matched := true)), o)
    else if c.store.table.Some? then
      [Missed] + if Misses(c.store.createRetry) != 0 then Finish(c.notify, sought, NotReady) else AddEvents(c, sought, o)
    else if pending then Finish(c.notify, sought, NotReady)
    else AddEvents(c, sought, o)
  }

  lemma Adds(w: World, o: Oracle)
    requires Unhindered(w.store) && !w.present
    ensures Run(Create, Script(Create)[4..], w, o).trace == w.trace + AddEvents(w, w.input, o)
  {
    hide Run, HaltsAt, PerformVerify, Closing;
    if o(w.asked).Added? {
      ProfileAdded(w, o);
      Closes(Numbered(w, o), o);
      SameClosing(w, o);
      Joined(w.trace, [Asked(CreateProfile(w.input))], Closing(Numbered(w, o), o));
    } else {
      AddRefused(w, o);
    }
  }

  lemma AddRefused(w: World, o: Oracle)
    requires Unhindered(w.store) && !w.present && !o(w.asked).Added?
    ensures Run(Create, Script(Create)[4..], w, o).trace == w.trace + AddEvents(w, w.input, o)
  {
    hide Run, HaltsAt, PerformVerify, Closing;
    Continues(Create, 4, w, o);
  }

  lemma SameClosing(w: World, o: Oracle)
    requires o(w.asked).Added?
    ensures Closing(Numbered(w, o), o) ==
            Closing(w.(asked := w.asked + 1, input := w.input.(id := o(w.asked).id, kind := o(w.asked).kind)), o)
  {
  }

  lemma Holds(w: World, o: Oracle)
    requires !Unhindered(w.store)
    ensures Run(Create, Script(Create)[4..], w, o).trace == w.trace + Finish(w.notify, w.input, NotReady)
  {
    hide Run;
    HinderedTail(w, o);
    EndingIs(w, NotReady);
  }

  lemma CreateChecked(w: World, o: Oracle)
    requires !w.present
    ensures var d := PerformVerify(Create, w);
            Run(Create, Script(Create)[3..], w, o) ==
            if d.verdict.Exit? then Log(d.world, ProcessExit) else Run(Create, Script(Create)[4..], d.world, o)
  {
    hide Run, HaltsAt, PerformAllocate, PerformVerify;
    CheckLeaves(Create, w);
    Continues(Create, 3, w, o);
  }

  lemma CreateFound(w: World, o: Oracle) returns (i: nat, found: Profile)
    requires !w.present && IsListed(w, Sought(w, w.input))
    ensures Finds(w, Sought(w, w.input), false, i, found)
    ensures Run(Create, Script(Create)[3..], w, o).trace == w.trace + CreateEvents(w, found, o)
  {
    hide Run, Agrees, Closing, Finish;
    var after := PerformVerify(Create, w).world;
    found := after.input;
    i := CheckAdopts(Create, w);
    CheckLeaves(Create, w);
    hide PerformVerify;
    if Unhindered(w.store) {
      FoundCloses(w, o);
      SameFound(w, after, o);
    } else {
      FoundWhileHindered(w, o);
      EndingIs(after, NotReady);
    }
  }

  lemma SameFound(w: World, after: World, o: Oracle)
    requires after.asked == w.asked && after.notify == w.notify && after.store.matched
    ensures Closing(after, o) == Closing(w.(input := after.input, store := w.store.(matched := true)), o)
  {
  }

  lemma CreateMissed(w: World, o: Oracle)
    requires !w.present && w.store.table.Some? && !IsListed(w, Sought(w, w.input))
    ensures Run(Create, Script(Create)[3..], w, o).trace == w.trace + CreateEvents(w, BLANK, o)
  {
    hide Run, Agrees, Closing, Finish, PerformVerify;
    var after, p := PerformVerify(Create, w).world, Sought(w, w.input);
    CreateChecked(w, o);
    CheckLeaves(Create, w);
    CheckMisses(Create, w);
    if Unhindered(after.store) {
      Adds(after, o);
      SameAdding(w, after, p, o);
      Joined(w.trace, [Missed], AddEvents(w, p, o));
    } else {
      Holds(after, o);
      Joined(w.trace, [Missed], Finish(w.notify, p, NotReady));
    }
  }

  lemma SameAdding(w: World, after: World, p: Profile, o: Oracle)
    requires after.asked == w.asked && after.notify == w.notify && after.store.matched == w.store.matched
    ensures AddEvents(after, p, o) == AddEvents(w, p, o)
  {
  }

  lemma CreateWithoutTable(w: World, o: Oracle)
    requires !w.present && w.store.table.None?
    ensures Run(Create, Script(Create)[3..], w, o).trace == w.trace + CreateEvents(w, BLANK, o)
  {
    hide Run, PerformVerify, AddEvents, Finish;
    CheckWithoutTable(Create, w);
    CreateChecked(w, o);
    CheckLeaves(Create, w);
    if w.store.fetchRetry <= 20 {
      if Unhindered(w.store) {
        Adds(w, o);
      } else {
        Holds(w, o);
      }
    }
  }

  // A call on an open device, over all stores, profiles and answers. Without a profile, or with one that has no APN, the
  // one from the database is taken.
  lemma CreateCall(w: World, profile: Option<Profile>, callback: bool, fromDb: Profile, inTime: bool, o: Oracle)
    returns (c: World, i: nat, found: Profile)
    ensures var p := if profile.None? || profile.value.apn == "" then fromDb else profile.value;
            var start := w.(input := p, present := false, notify := callback);
            var trace := Operated(w, Create, profile, callback, true, fromDb, inTime, o).world.trace;
            if Opens(start, o) then
              && Opened(start, o, c)
              && (IsListed(c, Sought(c, p)) ==> Finds(c, Sought(c, p), false, i, found))
              && trace == c.trace + CreateEvents(c, found, o)
            else trace == w.trace + (OpeningEvents(start, o) + [Released])
  {
    hide Run, Opens, OpeningEvents, CreateEvents, Finds;
    var start := Started(w, Create, profile, callback, fromDb);
    c, i, found := start, 0, BLANK;
    if Opens(start, o) {
      c := CreateOpens(start, o);
      i, found := CreateFrom(c, o);
    } else {
      CreateStops(start, o);
    }
  }

  lemma CreateFrom(w: World, o: Oracle) returns (i: nat, found: Profile)
    requires !w.present
    ensures IsListed(w, Sought(w, w.input)) ==> Finds(w, Sought(w, w.input), false, i, found)
    ensures Run(Create, Script(Create)[3..], w, o).trace == w.trace + CreateEvents(w, found, o)
  {
    hide Run, Agrees, AddEvents, Closing, Finish, Finds;
    i, found := 0, BLANK;
    if IsListed(w, Sought(w, w.input)) {
      i, found := CreateFound(w, o);
    } else if w.store.table.Some? {
      CreateMissed(w, o);
    } else {
      CreateWithoutTable(w, o);
    }
  }

  // A create that sets the default profile makes it the cached one, exactly if the modem takes it.
  lemma DefaultKept(w: World, o: Oracle)
    ensures Run(Create, Script(Create)[5..], w, o).store.defaultProfile ==
            if Unhindered(w.store) && w.input.isDefault && o(w.asked).Accepted? then w.input else w.store.defaultProfile
  {
    hide Run, HaltsAt, PerformVerify;
    Continues(Create, 5, w, o);
    var d := PerformSetDefault(Create, w, o);
    if d.verdict.Proceed? {
      AttachKeepsDefault(d.world, o);
    }
  }

  lemma AttachKeepsDefault(w: World, o: Oracle)
    ensures Run(Create, Script(Create)[6..], w, o).store.defaultProfile == w.store.defaultProfile
  {
    hide Run, HaltsAt, PerformVerify;
    Continues(Create, 6, w, o);
    NotifyKeeps(Create, 7, PerformAttach(w, o).world, o);
  }
}
