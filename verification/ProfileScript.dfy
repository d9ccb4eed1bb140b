/**
 The four profile operations of the QMI back end (create, delete, modify, list) as straight-line scripts.

 A script is a list of stages performed one after the other. A stage that needs the modem asks it and uses the
 answer on the spot; there is no step counter, no case label and no callback here. ProfileTask.dfy holds the
 coroutine the back end really runs and proves that it does what these scripts say.
 */
module ProfileScript {
  import opened Wrappers

  datatype Operation = Create | Delete | Modify | List

  datatype PdpType = IPv4 | PPP | IPv6 | IPv4v6

  datatype Authentication = NoAuth | Pap | Chap

  datatype ProfileKind = ThreeGpp | ThreeGpp2

  datatype Profile = Profile(
    id: int, kind: ProfileKind, context: int, pdp: PdpType, auth: Authentication,
    name: string, apn: string, user: string, password: string,
    noRoaming: bool, apnDisabled: bool, isDefault: bool)

  // What zeroed memory reads as.
  const BLANK := Profile(0, ThreeGpp, 0, IPv4, NoAuth, "", "", "", "", false, false, false)

  datatype Status = NotReady | Configuring | Ready | Deleted | Created

  datatype ListEntry = ListEntry(id: int, name: string)

  datatype Settings = Settings(
    name: string, context: int, pdp: PdpType, auth: Authentication, apn: string, user: string, password: string,
    noRoaming: bool, apnDisabled: bool)

  datatype Request =
    | AllocateClient
    | GetDefaultNumber
    | GetDefaultSettings(id: int)
    | DeleteProfile(id: int)
    | GetProfileList
    | GetProfileSettings(id: int)
    | CreateProfile(profile: Profile)
    | ModifyProfile(profile: Profile)
    | SetDefaultNumber(kind: ProfileKind, id: int)
    | GetAttachList
    | SetAttachList(ids: seq<int>)

  // An answer of the modem. An answer that does not fit the request is treated as a refusal.
  datatype Reply =
    | Failed                                  // the call itself failed
    | Rejected                                // the modem answered with an error
    | Accepted
    | Number(number: int)
    | Settled(settings: Settings)
    | Listed(entries: seq<ListEntry>)
    | Added(id: int, kind: ProfileKind)
    | Attached(current: seq<int>, waiting: seq<int>, built: bool)  // built: the follow-up request could be filled in

  datatype Event =
    | Asked(request: Request)
    | Missed                                  // the wanted profile is not in the loaded table
    | Told(name: string, pdp: PdpType, status: Status)  // the status callback
    | Released                                // the task is unreferenced
    | ProcessExit                             // exit(0)

  // The part of the WDS context and of the file's static counters that the operations share.
  datatype Store = Store(
    clientValid: bool,
    defaultCached: bool,
    defaultProfile: Profile,
    table: Option<seq<Profile>>,              // pstProfileList with its first ui8ProfileCount entries
    collected: bool,                          // bIsProfileListCollectionDone
    fetchRetry: nat,                          // getProfileRetry
    matched: bool,                            // getProfileReset
    createRetry: nat)                         // getProfileRetryToCreate

  datatype World = World(
    store: Store, input: Profile, present: bool, notify: bool, asked: nat, trace: seq<Event>)

  // The k-th request of a run is answered by the k-th reply.
  type Oracle = nat -> Reply

  datatype Verdict = Proceed | Skip | Exit

  datatype Outcome = Outcome(world: World, verdict: Verdict)

  datatype Stage =
    Allocate | ReadDefault | Remove | ReadList | Verify | Add | Change | SetDefault | Attach | Notify

  // The scripts. A modify that sets the default profile stops there: see DefaultSetReply.
  function Script(op: Operation): seq<Stage> {
    match op
    case Create => [Allocate, ReadDefault, ReadList, Verify, Add, SetDefault, Attach, Notify]
    case Delete => [Allocate, Remove, ReadList, Notify]
    case Modify => [Allocate, Verify, Change, SetDefault, Notify]
    case List => [Allocate, ReadDefault, ReadList]
  }

  function Log(w: World, e: Event): World {
    w.(trace := w.trace + [e])
  }

  function Ask(w: World, request: Request): World {
    Log(w.(asked := w.asked + 1), Asked(request))
  }

  function Answer(w: World, o: Oracle): Reply
    requires w.asked > 0
  {
    o(w.asked - 1)
  }

  function Tell(w: World, name: string, pdp: PdpType, status: Status): World {
    if w.notify then Log(w, Told(name, pdp, status)) else w
  }

  // ---- stages ----

  function PerformAllocate(w: World, o: Oracle): Outcome {
    if w.store.clientValid then Outcome(w, Proceed) else ClientReply(Ask(w, AllocateClient), o)
  }

  function ClientReply(w: World, o: Oracle): Outcome
    requires w.asked > 0
  {
    if Answer(w, o).Accepted? then Outcome(w.(store := w.store.(clientValid := true)), Proceed) else Outcome(w, Skip)
  }

  function PerformReadDefault(w: World, o: Oracle): Outcome {
    if w.store.defaultCached then Outcome(w, Proceed) else NumberReply(Ask(w, GetDefaultNumber), o)
  }

  // The cached default profile is wiped as soon as an answer of any kind arrives.
  function NumberReply(w: World, o: Oracle): Outcome
    requires w.asked > 0
  {
    match Answer(w, o)
    case Number(n) =>
      var store := w.store.(defaultCached := false, defaultProfile := BLANK.(id := n));
      SettingsReply(Ask(w.(store := store), GetDefaultSettings(n)), o)
    case _ => Outcome(w.(store := w.store.(defaultCached := false, defaultProfile := BLANK)), Skip)
  }

  function SettingsReply(w: World, o: Oracle): Outcome
    requires w.asked > 0
  {
    match Answer(w, o)
    case Settled(s) =>
      var profile := WithSettings(w.store.defaultProfile, s).(name := s.name);
      Outcome(w.(store := w.store.(defaultCached := true, defaultProfile := profile)), Proceed)
    case _ => Outcome(w, Skip)
  }

  function WithSettings(p: Profile, s: Settings): Profile {
    p.(context := s.context, pdp := s.pdp, auth := s.auth, apn := s.apn, user := s.user, password := s.password,
       noRoaming := s.noRoaming, apnDisabled := s.apnDisabled)
  }

  function PerformRemove(w: World, o: Oracle): Outcome {
    RemoveReply(Ask(w, DeleteProfile(w.input.id)), o)
  }

  function RemoveReply(w: World, o: Oracle): Outcome
    requires w.asked > 0
  {
    Outcome(w, if Answer(w, o).Accepted? then Proceed else Skip)
  }

  function PerformReadList(op: Operation, w: World, o: Oracle): Outcome {
    if op.Create? && w.store.table.Some? then
      Outcome(w, Proceed)
    else
      ListReply(Ask(w.(store := w.store.(collected := false)), GetProfileList), o)
  }

  // A list that cannot be read leaves no profiles, but keeps a table that was there.
  function ListReply(w: World, o: Oracle): Outcome
    requires w.asked > 0
  {
    match Answer(w, o)
    case Listed(entries) =>
      if entries == [] then Outcome(Emptied(w), Proceed)
      else FillFrom(w.(store := w.store.(table := Some([]))), o, entries, 0)
    case _ => Outcome(Emptied(w), Proceed)
  }

  function Emptied(w: World): World {
    var table := if w.store.table.Some? then Some([]) else None;
    w.(store := w.store.(table := table, collected := true))
  }

  // The settings of entries[i..] are read one by one.
  function FillFrom(w: World, o: Oracle, entries: seq<ListEntry>, i: nat): Outcome
    requires i <= |entries|
    decreases |entries| - i, 1
  {
    if i == |entries| then
      Outcome(w.(store := w.store.(collected := true)), Proceed)
    else
      FillReply(Ask(w, GetProfileSettings(entries[i].id)), o, entries, i)
  }

  function FillReply(w: World, o: Oracle, entries: seq<ListEntry>, i: nat): Outcome
    requires i < |entries| && w.asked > 0
    decreases |entries| - i, 0
  {
    match Answer(w, o)
    case Settled(s) =>
      FillFrom(w.(store := Appended(w.store, Assemble(entries[i], s, w.store.defaultProfile.id))), o, entries, i + 1)
    case Failed => Outcome(Emptied(w), Proceed)
    case _ =>
      var store := w.store.(table := None, collected := true, fetchRetry := w.store.fetchRetry + 1);
      Outcome(w.(store := store), Proceed)
  }

  function Assemble(entry: ListEntry, s: Settings, defaultId: int): Profile {
    WithSettings(BLANK, s).(id := entry.id, name := entry.name, isDefault := entry.id == defaultId)
  }

  function Appended(store: Store, p: Profile): Store {
    store.(table := Some((if store.table.Some? then store.table.value else []) + [p]), fetchRetry := 0)
  }

  // ---- comparing profiles ----

  function LowerChar(c: char): char {
    if 'A' <= c <= 'Z' then c - 'A' + 'a' else c
  }

  function Lower(s: string): string {
    seq(|s|, i requires 0 <= i < |s| => LowerChar(s[i]))
  }

  predicate Agrees(p: Profile, q: Profile) {
    && Lower(p.apn) == Lower(q.apn)
    && p.user == q.user
    && p.password == q.password
    && p.pdp == q.pdp
    && p.auth == q.auth
  }

  // An entry the scan may stop at; a modify passes over the entry it is about to change.
  predicate Candidate(p: Profile, wanted: Profile, skipOwn: bool) {
    Agrees(p, wanted) && !(skipOwn && p.id == wanted.id)
  }

  function FirstMatch(table: seq<Profile>, wanted: Profile, skipOwn: bool, from: nat): (hit: Option<nat>)
    requires from <= |table|
    ensures hit.Some? ==> from <= hit.value < |table| && Candidate(table[hit.value], wanted, skipOwn)
    ensures forall j :: from <= j < (if hit.Some? then hit.value else |table|) ==> !Candidate(table[j], wanted, skipOwn)
    decreases |table| - from
  {
    if from == |table| then None
    else if Candidate(table[from], wanted, skipOwn) then Some(from)
    else FirstMatch(table, wanted, skipOwn, from + 1)
  }

  // ---- stages, continued ----

  function PerformVerify(op: Operation, w: World): Outcome {
    match w.store.table
    case None => Outcome(w, if !w.present && w.store.fetchRetry > 20 then Exit else Proceed)
    case Some(table) =>
      var looking := w.(input := if w.input.apn == "" then w.store.defaultProfile else w.input, present := false);
      match FirstMatch(table, looking.input, op.Modify?, 0)
      case Some(i) => Outcome(Adopted(looking, table, i), Proceed)
      case None => Outcome(Wrapped(Recheck(Missing(looking), table)), Proceed)
  }

  // The wanted profile becomes the table's entry i, which inherits the default mark.
  function Adopted(w: World, table: seq<Profile>, i: nat): World
    requires i < |table|
  {
    var entry := if w.input.isDefault then table[i].(isDefault := true) else table[i];
    w.(input := entry, present := true, store := w.store.(table := Some(table[i := entry]), matched := true))
  }

  function Missing(w: World): World {
    Log(w.(store := w.store.(fetchRetry := 0, createRetry := w.store.createRetry + 1)), Missed)
  }

  // The second scan of the same table, which no longer passes over the entry under change.
  function Recheck(w: World, table: seq<Profile>): World {
    match FirstMatch(table, w.input, false, 0)
    case Some(i) =>
      var found := Adopted(w, table, i);
      found.(store := found.store.(createRetry := 0))
    case None => w
  }

  function Wrapped(w: World): World {
    if w.store.createRetry > 2 then w.(store := w.store.(createRetry := 0)) else w
  }

  // Creating is held back while earlier passes are still being retried.
  predicate Unhindered(store: Store) {
    store.createRetry == 0 && store.fetchRetry == 0
  }

  function PerformAdd(w: World, o: Oracle): Outcome {
    if Unhindered(w.store) && !w.present then
      CreateReply(Ask(w, CreateProfile(w.input)), o)
    else
      Outcome(w, Proceed)
  }

  // The PDP type passed on failure is the IP family "unknown", which has the value of IPv4.
  function CreateReply(w: World, o: Oracle): Outcome
    requires w.asked > 0
  {
    match Answer(w, o)
    case Added(id, kind) => Outcome(w.(input := w.input.(id := id, kind := kind)), Proceed)
    case _ => Outcome(Tell(w, "unknown", IPv4, NotReady), Skip)
  }

  function PerformChange(w: World, o: Oracle): Outcome {
    if w.present then Outcome(w, Proceed) else ChangeReply(Ask(w, ModifyProfile(w.input)), o)
  }

  function ChangeReply(w: World, o: Oracle): Outcome
    requires w.asked > 0
  {
    Outcome(w, if Answer(w, o).Accepted? then Proceed else Skip)
  }

  function PerformSetDefault(op: Operation, w: World, o: Oracle): Outcome {
    if w.input.isDefault && (if op.Modify? then !w.present else Unhindered(w.store)) then
      DefaultSetReply(op, Ask(w, SetDefaultNumber(w.input.kind, w.input.id)), o)
    else
      Outcome(w, Proceed)
  }

  // After a modify the next step has no case label, so nothing more happens, not even the notification.
  function DefaultSetReply(op: Operation, w: World, o: Oracle): Outcome
    requires w.asked > 0
  {
    if Answer(w, o).Accepted? then
      Outcome(w.(store := w.store.(defaultProfile := w.input)), if op.Modify? then Skip else Proceed)
    else
      Outcome(w, Skip)
  }

  function PerformAttach(w: World, o: Oracle): Outcome {
    if Unhindered(w.store) && w.input.isDefault then
      AttachListReply(Ask(w, GetAttachList), o)
    else
      Outcome(w, Proceed)
  }

  function AttachListReply(w: World, o: Oracle): Outcome
    requires w.asked > 0
  {
    match Answer(w, o)
    case Attached(current, waiting, built) =>
      if w.input.id in current || w.input.id in waiting || !built then Outcome(w, Proceed)
      else AttachSetReply(Ask(w, SetAttachList([w.input.id])), o)
    case _ => Outcome(w, Proceed)
  }

  // A changed attach list makes the profile count as newly created.
  function AttachSetReply(w: World, o: Oracle): Outcome
    requires w.asked > 0
  {
    Outcome(if Answer(w, o).Accepted? then w.(store := w.store.(matched := false)) else w, Proceed)
  }

  function FinalStatus(op: Operation, store: Store): Status {
    if !Unhindered(store) then NotReady
    else if op.Delete? then Deleted
    else if store.matched then Ready
    else Created
  }

  function PerformNotify(op: Operation, w: World): Outcome {
    Outcome(Tell(w, w.input.name, w.input.pdp, FinalStatus(op, w.store)), Proceed)
  }

  function Perform(op: Operation, stage: Stage, w: World, o: Oracle): Outcome {
    match stage
    case Allocate => PerformAllocate(w, o)
    case ReadDefault => PerformReadDefault(w, o)
    case Remove => PerformRemove(w, o)
    case ReadList => PerformReadList(op, w, o)
    case Verify => PerformVerify(op, w)
    case Add => PerformAdd(w, o)
    case Change => PerformChange(w, o)
    case SetDefault => PerformSetDefault(op, w, o)
    case Attach => PerformAttach(w, o)
    case Notify => PerformNotify(op, w)
  }

  // ---- a whole task ----

  function Run(op: Operation, stages: seq<Stage>, w: World, o: Oracle): World
    decreases |stages|, 0
  {
    if stages == [] then Log(w, Released)
    else Then(op, Perform(op, stages[0], w, o), stages[1..], o)
  }

  function Then(op: Operation, done: Outcome, rest: seq<Stage>, o: Oracle): World
    decreases |rest|, 1
  {
    match done.verdict
    case Proceed => Run(op, rest, done.world, o)
    case Skip => Log(done.world, Released)
    case Exit => Log(done.world, ProcessExit)
  }

  // A fresh task; a create without a usable profile takes the one from the database.
  function Started(w: World, op: Operation, profile: Option<Profile>, callback: bool, fromDb: Profile): World
    requires op.Create? || op.List? || profile.Some?
  {
    var input :=
      if op.List? then BLANK
      else if op.Create? && (profile.None? || profile.value.apn == "") then fromDb
      else profile.value;
    var store := if op.List? then w.store.(collected := false) else w.store;
    w.(store := store, input := input, present := false, notify := callback && !op.List?)
  }

  // What a call brings back: the world after it, and for a list the profiles.
  datatype Returned = Returned(world: World, profiles: seq<Profile>)

  // The caller of a list waits until the list is complete, or for a limited time. A complete list is handed over and the
  // flag taken back; a table without profiles is freed.
  function Collected(w: World, inTime: bool): Returned {
    if inTime && w.store.collected then
      var profiles := if w.store.table.Some? then w.store.table.value else [];
      var table := if profiles == [] then None else w.store.table;
      Returned(w.(store := w.store.(collected := false, table := table)), profiles)
    else
      Returned(w, [])
  }

  // A call of the entry point. For a list, inTime says whether the task is done before the wait for it ends.
  function Operated(w: World, op: Operation, profile: Option<Profile>, callback: bool, deviceOpen: bool,
                    fromDb: Profile, inTime: bool, o: Oracle): Returned
    requires op.Delete? ==> profile.Some?
  {
    if !deviceOpen then
      Returned(if op.List? || !callback then w else Log(w, Told("unknown", IPv4, NotReady)), [])
    else if op.Modify? && profile.None? then Returned(w, [])
    else
      var end := Run(op, Script(op), Started(w, op, profile, callback, fromDb), o);
      if op.List? then Collected(end, inTime) else Returned(end, [])
  }
}
