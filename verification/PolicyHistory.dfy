/** What the log of a policy machine says about its past, with no machine at hand. */
module PolicyHistory {
  import opened Wrappers
  import opened PolicyModel
  import P = ProfileScript

  // The packet service of a family is up: it was reported up, and nothing has taken it down since.
  predicate PacketUp(log: Log, side: Side) {
    match log
    case Empty(_) => false
    case Then(past, last) =>
      match last
      case Got(PacketChanged(Some(s), connected)) => if s == side then connected else PacketUp(past, side)
      case Got(IpChanged(s, ready)) => (s != side || ready) && PacketUp(past, side)
      case Start(s) => s != side && PacketUp(past, side)
      case AskProfile => false
      case TearDown => false
      case GoDown => false
      case _ => PacketUp(past, side)
  }

  // A start of a family is pending: neither a packet report nor a lost address has followed it, nor a new profile request
  // or a teardown. A transition to DOWN does not end the wait.
  predicate Waiting(log: Log, side: Side) {
    match log
    case Empty(_) => false
    case Then(past, last) =>
      match last
      case Got(PacketChanged(Some(s), _)) => s != side && Waiting(past, side)
      case Got(IpChanged(s, ready)) => (s != side || ready) && Waiting(past, side)
      case Start(s) => s == side || Waiting(past, side)
      case AskProfile => false
      case TearDown => false
      case _ => Waiting(past, side)
  }

  // The registration status, as the reports and the machine's own writes leave it.
  function NasNow(log: Log): NasStatus {
    match log
    case Empty(_) => NasNotRegistered
    case Then(past, last) =>
      match last
      case Got(NasChanged(nas)) => if NasNow(past).NasRegistered? && nas.NasNotRegistered? then NasRegistering else nas
      case AskSlot => NasNotRegistered
      case DropNas => NasNotRegistered
      case AskMonitor => NasRegistering
      case SuspendNas => NasRegistering
      case Poll(registered) => if registered then NasNow(past) else NasRegistering
      case _ => NasNow(past)
  }

  // ---- what was reported and set last ----

  predicate PresentNow(log: Log) {
    match log
    case Empty(_) => false
    case Then(_, Got(DetectionChanged(present))) => present
    case Then(_, Detect(present)) => present
    case Then(past, _) => PresentNow(past)
  }

  predicate OnlineNow(log: Log) {
    match log
    case Empty(_) => false
    case Then(_, Got(OpenChanged(_, online))) => online
    case Then(past, _) => OnlineNow(past)
  }

  predicate WantedNow(log: Log) {
    match log
    case Empty(boot) => boot.wanted
    case Then(_, Got(ModemEnableSet(enable, _))) => enable
    case Then(past, _) => WantedNow(past)
  }

  // The modem is enabled if it was wanted and online when that was looked at last: at an open report, and at a setting
  // that the modem took.
  predicate EnabledNow(log: Log) {
    match log
    case Empty(_) => false
    case Then(_, Got(OpenChanged(_, _))) => WantedNow(log) && OnlineNow(log)
    case Then(_, Got(ModemEnableSet(_, true))) => WantedNow(log) && OnlineNow(log)
    case Then(past, _) => EnabledNow(past)
  }

  predicate IfEnableNow(log: Log) {
    match log
    case Empty(boot) => boot.ifEnable
    case Then(_, Got(InterfaceEnableSet(enable))) => enable
    case Then(past, _) => IfEnableNow(past)
  }

  predicate UpstreamNow(log: Log) {
    match log
    case Empty(boot) => boot.upstream
    case Then(_, Got(UpstreamSet(upstream))) => upstream
    case Then(past, _) => UpstreamNow(past)
  }

  // A family is being started: no report about its address or packet service has come since, nor a new profile request
  // or a teardown.
  predicate BeingStarted(log: Log, side: Side) {
    match log
    case Empty(_) => false
    case Then(past, Got(PacketChanged(Some(s), _))) => s != side && BeingStarted(past, side)
    case Then(past, Got(IpChanged(s, _))) => s != side && BeingStarted(past, side)
    case Then(past, Start(s)) => s == side || BeingStarted(past, side)
    case Then(_, AskProfile) => false
    case Then(_, TearDown) => false
    case Then(past, _) => BeingStarted(past, side)
  }

  // A family has the address last reported for it.
  predicate Addressed(log: Log, side: Side) {
    match log
    case Empty(_) => false
    case Then(past, Got(IpChanged(s, ready))) => if s == side then ready else Addressed(past, side)
    case Then(past, Start(s)) => s != side && Addressed(past, side)
    case Then(_, AskProfile) => false
    case Then(_, TearDown) => false
    case Then(past, _) => Addressed(past, side)
  }

  function OpenNow(log: Log): OpenStatus {
    match log
    case Empty(_) => OpenNotReady
    case Then(past, Got(DetectionChanged(_))) => OpenNotReady
    case Then(past, Got(OpenChanged(open, _))) => open
    case Then(past, AskOpen) => OpenInProgress
    case Then(past, _) => OpenNow(past)
  }

  function SlotNow(log: Log): SlotStatus {
    match log
    case Empty(_) => SlotNotReady
    case Then(past, Got(SlotChanged(slot))) => slot
    case Then(past, GoDown) => SlotNotReady
    case Then(past, AskSlot) => SlotSelecting
    case Then(past, _) => SlotNow(past)
  }

  function ProfileNow(log: Log): P.Status {
    match log
    case Empty(_) => P.NotReady
    case Then(past, Got(ProfileChanged(profile, _))) => profile
    case Then(past, AskProfile) => P.Configuring
    case Then(past, _) => ProfileNow(past)
  }

  function PdpNow(log: Log): P.PdpType {
    match log
    case Empty(_) => P.IPv4
    case Then(past, Got(ProfileChanged(_, pdp))) => pdp
    case Then(past, _) => PdpNow(past)
  }

  // ---- counts ----

  function Monitors(log: Log): nat {
    match log
    case Empty(_) => 0
    case Then(past, last) => Monitors(past) + if last.AskMonitor? then 1 else 0
  }

  // How often the status has become NOT_REGISTERED, counting the initial value.
  function Losses(log: Log): nat {
    match log
    case Empty(_) => 1
    case Then(past, _) =>
      Losses(past) + if NasNow(log).NasNotRegistered? && !NasNow(past).NasNotRegistered? then 1 else 0
  }

  // How often it has left NOT_REGISTERED by anything but a monitor request.
  function Escapes(log: Log): nat {
    match log
    case Empty(_) => 0
    case Then(past, last) =>
      Escapes(past)
        + if !last.AskMonitor? && NasNow(past).NasNotRegistered? && !NasNow(log).NasNotRegistered? then 1 else 0
  }

  // Every request to the HAL is made in the situation it is meant for: a slot is asked for when the device is open and
  // no slot is selected, the registration when it is lost and a slot is ready, a profile when the modem is registered
  // and there is none, the network is started only with the modem registered, and a family only when no start of it is
  // pending. A poll of the wait loop is good exactly if it sees the modem registered.
  predicate RequestsJustified(log: Log) {
    match log
    case Empty(_) => true
    case Then(past, last) =>
      && (last.AskSlot? ==> OpenNow(past).OpenReady? && SlotNow(past).SlotNotReady?)
      && (last.AskMonitor? ==> SlotNow(past).SlotReady? && NasNow(past).NasNotRegistered?)
      && (last.AskProfile? ==> NasNow(past).NasRegistered? && ProfileNow(past).NotReady?)
      && (last.Starting? ==> NasNow(past).NasRegistered?)
      && (last.Start? ==> !Waiting(past, last.side))
      && (last.Poll? ==> (last.registered <==> NasNow(past).NasRegistered?))
      && RequestsJustified(past)
  }

  lemma {:induction false} NasAccount(log: Log)
    requires RequestsJustified(log)
    ensures Monitors(log) + Escapes(log) + (if NasNow(log).NasNotRegistered? then 1 else 0) == Losses(log)
  {
    match log
    case Empty(_) =>
    case Then(past, _) => NasAccount(past);
  }

  // An earlier point of a history.
  predicate Within(earlier: Log, log: Log) {
    log == earlier || (log.Then? && Within(earlier, log.past))
  }

  function Pending(log: Log): nat {
    if NasNow(log).NasNotRegistered? then 1 else 0
  }

  // From any earlier point on, no more requests are made than losses are added or were pending.
  lemma {:induction false} RequestsNeedLosses(earlier: Log, log: Log)
    requires Within(earlier, log) && RequestsJustified(log)
    ensures RequestsJustified(earlier)
    ensures Monitors(earlier) <= Monitors(log) && Losses(earlier) <= Losses(log) && Escapes(earlier) <= Escapes(log)
    ensures Monitors(log) - Monitors(earlier) + Pending(log) <= Losses(log) - Losses(earlier) + Pending(earlier)
    decreases log
  {
    if log != earlier {
      RequestsNeedLosses(earlier, log.past);
    }
    NasAccount(log);
    NasAccount(earlier);
  }

  // ---- starting the network ----

  // No network start has been made since the last entry to CONNECTED.
  predicate Armed(log: Log) {
    match log
    case Empty(_) => false
    case Then(_, Connect) => true
    case Then(_, Starting) => false
    case Then(past, _) => Armed(past)
  }

  // The polls in a row that saw the modem registered, since the last entry to CONNECTED, start or loss.
  function Streak(log: Log): nat {
    match log
    case Empty(_) => 0
    case Then(_, Connect) => 0
    case Then(_, Starting) => 0
    case Then(past, Poll(registered)) => if registered then Streak(past) + 1 else 0
    case Then(past, _) => Streak(past)
  }

  // The first start after an entry to CONNECTED comes after three good polls in a row, any other start at once.
  predicate StartsSettled(log: Log) {
    match log
    case Empty(_) => true
    case Then(past, Starting) => Streak(past) == (if Armed(past) then 3 else 0) && StartsSettled(past)
    case Then(past, _) => StartsSettled(past)
  }

  // ---- coming up ----

  // CONNECTED is entered only with every family of the PDP type up.
  predicate ConnectsCarried(log: Log) {
    match log
    case Empty(_) => true
    case Then(past, last) =>
      && (last.Connect? ==> Carried(PdpNow(past), PacketUp(past, V4), PacketUp(past, V6)))
      && ConnectsCarried(past)
  }

  // A slot has been asked for since the last transition to DOWN.
  predicate Selected(log: Log) {
    match log
    case Empty(_) => false
    case Then(_, AskSlot) => true
    case Then(_, GoDown) => false
    case Then(past, _) => Selected(past)
  }

  // The modem has reported REGISTERED since the last slot request and the last transition to DOWN.
  predicate Registrations(log: Log) {
    match log
    case Empty(_) => false
    case Then(_, Got(NasChanged(NasRegistered))) => true
    case Then(_, AskSlot) => false
    case Then(_, GoDown) => false
    case Then(past, _) => Registrations(past)
  }

  // A family has been reported up since the last transition to DOWN.
  predicate PacketsSinceDown(log: Log, side: Side) {
    match log
    case Empty(_) => false
    case Then(_, GoDown) => false
    case Then(past, Got(PacketChanged(Some(s), connected))) => (s == side && connected) || PacketsSinceDown(past, side)
    case Then(past, _) => PacketsSinceDown(past, side)
  }

  // The modem has reported REGISTERED since the last transition to DOWN.
  predicate RegisteredSinceDown(log: Log) {
    match log
    case Empty(_) => false
    case Then(_, Got(NasChanged(NasRegistered))) => true
    case Then(_, GoDown) => false
    case Then(past, _) => RegisteredSinceDown(past)
  }

  // Since the last transition to DOWN a slot has been reported before the machine had asked for one.
  predicate UnsolicitedSinceDown(log: Log) {
    match log
    case Empty(_) => false
    case Then(_, GoDown) => false
    case Then(past, Got(SlotChanged(slot))) => (!slot.SlotNotReady? && !Selected(past)) || UnsolicitedSinceDown(past)
    case Then(past, _) => UnsolicitedSinceDown(past)
  }

  // As long as no slot is asked for, nothing but a transition to DOWN takes a registration report away.
  lemma {:induction false} UnselectedRegistrations(log: Log)
    ensures Registrations(log) ==> RegisteredSinceDown(log)
    ensures !Selected(log) ==> (Registrations(log) <==> RegisteredSinceDown(log))
  {
    match log
    case Empty(_) =>
    case Then(past, _) => UnselectedRegistrations(past);
  }

  lemma {:induction false} UpSinceDown(log: Log, side: Side)
    requires PacketUp(log, side)
    ensures PacketsSinceDown(log, side)
  {
    match log
    case Then(past, last) =>
      if PacketUp(past, side) {
        UpSinceDown(past, side);
      }
  }

  // ---- publication ----

  // The physical status has been read since the last publication.
  predicate ReadSincePublished(log: Log) {
    match log
    case Empty(_) => false
    case Then(_, Got(PhyRead)) => true
    case Then(_, Publish) => false
    case Then(past, _) => ReadSincePublished(past)
  }

  predicate NeverRead(log: Log) {
    match log
    case Empty(_) => true
    case Then(past, last) => last != Got(PhyRead) && NeverRead(past)
  }

  lemma {:induction false} NeverReadSince(log: Log)
    requires NeverRead(log)
    ensures !ReadSincePublished(log)
  {
    match log
    case Empty(_) =>
    case Then(past, _) => NeverReadSince(past);
  }
}
