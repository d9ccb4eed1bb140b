/**
 The cellular policy state machine, on values.

 Everything that changes the machine is an act: an asynchronous callback, a publication, a HAL request of a state
 function, a change of state. The machine has four components, and for each of them one function says what the acts do
 to it. Every act is kept in the log, so that the history properties of PolicyProofs.dfy can be read off the log alone.
 One turn of the thread loop is a sequence of acts; the callbacks that arrive while it sleeps or waits for the HAL are
 part of it.
 */
module PolicyModel {
  import opened Wrappers
  import P = ProfileScript

  datatype Phase = Down | Deactivated | Deregistered | Registered | Connected | Halted  // Halted: after exit(0)

  datatype OpenStatus = OpenNotReady | OpenInProgress | OpenReady

  datatype SlotStatus = SlotNotReady | SlotSelecting | SlotReady

  datatype NasStatus = NasNotRegistered | NasRegistering | NasRegistered

  datatype Side = V4 | V6

  datatype Callback =
    | DetectionChanged(present: bool)
    | OpenChanged(open: OpenStatus, online: bool)
    | SlotChanged(slot: SlotStatus)
    | NasChanged(nas: NasStatus)
    | ProfileChanged(profile: P.Status, pdp: P.PdpType)
    | IpChanged(side: Side, ready: bool)
    | PacketChanged(family: Option<Side>, connected: bool) // None: an IP family that is neither IPv4 nor IPv6
    | ModemEnableSet(enable: bool, applied: bool)          // applied: the modem took the new operating mode
    | InterfaceEnableSet(enable: bool)
    | UpstreamSet(upstream: bool)
    | PhyRead                                              // a read of X_RDK_PhyConnectedStatus refreshes it

  datatype Act =
    | Got(callback: Callback)
    | Publish
    | Detect(present: bool)
    | GoDown
    | AskOpen
    | AskSlot
    | AskMonitor
    | AskProfile
    | Poll(registered: bool)
    | Starting
    | Start(side: Side)
    | Connect
    | TearDown
    | Stop(side: Side)
    | DropNas
    | SuspendNas
    | Declare(phase: Phase)                                // the reported and the driven state
    | Enter(phase: Phase)                                  // the driven state alone
    | Exit

  // What the management interface has set before the start.
  datatype Settings = Settings(wanted: bool, ifEnable: bool, upstream: bool)

  datatype Log = Empty(boot: Settings) | Then(past: Log, last: Act)

  // The thread loop.
  datatype Thread = Thread(
    driven: Phase,                 // policy_sm_state
    reported: Phase,               // enCurrentSMState
    published: Phase,              // policy_sm_state_old
    iter: nat,
    maxWait: nat)

  // What the management interface shows and sets of the interface.
  datatype Face = Face(
    phy: bool,                     // X_RDK_PhyConnectedStatus
    link: bool,                    // X_RDK_LinkAvailableStatus
    ifEnable: bool,
    upstream: bool)

  datatype Modem = Modem(
    present: bool,
    open: OpenStatus,
    online: bool,                  // bModemMode
    wanted: bool,                  // X_RDK_Enable
    enabled: bool,                 // bRDKEnable
    slot: SlotStatus,
    nas: NasStatus,
    profile: P.Status,
    pdp: P.PdpType)

  // The bearer of one IP family.
  datatype Bearer = Bearer(starting: bool, waiting: bool, ready: bool, connected: bool)

  const IDLE := Bearer(false, false, false, false)

  datatype Machine = Machine(thread: Thread, face: Face, modem: Modem, v4: Bearer, v6: Bearer, log: Log)

  // ---- acts ----

  predicate Live(phase: Phase) {
    phase.Registered? || phase.Connected?
  }

  function ThreadAfter(l: Thread, a: Act): Thread {
    match a
    case Publish => l.(published := l.driven)
    case GoDown => l.(reported := Down, driven := Down)
    case Poll(registered) => l.(iter := if registered then l.iter + 1 else 0)
    case Starting => l.(maxWait := 0, iter := 0)
    case Connect => l.(reported := Connected, driven := Connected, maxWait := 3)
    case Declare(phase) => l.(reported := phase, driven := phase)
    case Enter(phase) => l.(driven := phase)
    case Exit => l.(driven := Halted)
    case _ => l
  }

  // CONNECTED is published without touching the physical status.
  function FaceAfter(f: Face, l: Thread, a: Act): Face {
    match a
    case Publish =>
      if l.driven.Halted? then f
      else f.(phy := if l.driven.Connected? then f.phy else l.driven.Registered?, link := l.driven.Connected?)
    case Got(InterfaceEnableSet(enable)) => f.(ifEnable := enable)
    case Got(UpstreamSet(upstream)) => f.(upstream := upstream)
    case Got(PhyRead) => f.(phy := Live(l.reported))
    case _ => f
  }

  function ModemAfter(d: Modem, a: Act): Modem {
    match a
    case Got(DetectionChanged(present)) => d.(present := present, open := OpenNotReady)
    case Got(OpenChanged(open, online)) => d.(open := open, online := online, enabled := d.wanted && online)
    case Got(SlotChanged(slot)) => d.(slot := slot)
    case Got(NasChanged(nas)) => d.(nas := NasReported(d.nas, nas))
    case Got(ProfileChanged(profile, pdp)) => d.(profile := profile, pdp := pdp)
    case Got(ModemEnableSet(enable, applied)) =>
      d.(wanted := enable, enabled := if applied then enable && d.online else d.enabled)
    case Detect(present) => d.(present := present)
    case GoDown => d.(slot := SlotNotReady)
    case AskOpen => d.(open := OpenInProgress)
    case AskSlot => d.(slot := SlotSelecting, nas := NasNotRegistered)
    case AskMonitor => d.(nas := NasRegistering)
    case AskProfile => d.(profile := P.Configuring)
    case Poll(registered) => if registered then d else d.(nas := NasRegistering)
    case DropNas => d.(nas := NasNotRegistered)
    case SuspendNas => d.(nas := NasRegistering)
    case _ => d
  }

  // A loss reported while registered is kept as a registration in progress.
  function NasReported(now: NasStatus, reported: NasStatus): NasStatus {
    if now.NasRegistered? && reported.NasNotRegistered? then NasRegistering else reported
  }

  function BearerAfter(b: Bearer, side: Side, a: Act): Bearer {
    match a
    case Got(IpChanged(s, ready)) =>
      if s == side then Bearer(false, b.waiting && ready, ready, b.connected && ready) else b
    case Got(PacketChanged(family, connected)) =>
      if family == Some(side) then Bearer(false, false, b.ready, connected) else b
    case GoDown => b.(connected := false)
    case AskProfile => IDLE
    case Start(s) => if s == side then Bearer(true, true, false, false) else b
    case TearDown => IDLE
    case _ => b
  }

  function Do(m: Machine, a: Act): Machine {
    Machine(ThreadAfter(m.thread, a), FaceAfter(m.face, m.thread, a), ModemAfter(m.modem, a),
            BearerAfter(m.v4, V4, a), BearerAfter(m.v6, V6, a), Then(m.log, a))
  }

  function Receive(m: Machine, callbacks: seq<Callback>): (r: Machine)
    ensures r.thread.iter == m.thread.iter && r.thread.maxWait == m.thread.maxWait
    decreases |callbacks|
  {
    if callbacks == [] then m else Receive(Do(m, Got(callbacks[0])), callbacks[1..])
  }

  // ---- one turn of the thread loop ----

  // What the outside does during a turn: the answers of the two HAL queries, and the callbacks that arrive during each
  // query, request and sleep.
  datatype Turn = Turn(
    devicePresent: bool,
    cardInvalid: bool,               // the card status was read, and it is not valid
    inquiry: seq<Callback>,          // while the card status is read
    nap: seq<Callback>,              // during the sleep before the device is opened, or the profile look-up
    during: seq<Callback>,           // during the first request of the turn
    after: seq<Callback>,            // during the second one
    polls: seq<seq<Callback>>)       // during each sleep of the wait loop

  predicate UsesV4(pdp: P.PdpType) {
    pdp.IPv4? || pdp.IPv4v6?
  }

  predicate UsesV6(pdp: P.PdpType) {
    pdp.IPv6? || pdp.IPv4v6?
  }

  // Every family of the PDP type is up. A PPP profile has none and is never carried.
  predicate Carried(pdp: P.PdpType, up4: bool, up6: bool) {
    !pdp.PPP? && (UsesV4(pdp) ==> up4) && (UsesV6(pdp) ==> up6)
  }

  function Deactivate(m: Machine, t: Turn): Machine {
    Do(Receive(Do(m, AskOpen), t.during), Enter(Deactivated))
  }

  function StateDown(m: Machine, t: Turn): Machine {
    var a := Do(m, Detect(t.devicePresent));
    var asks := a.modem.present && a.modem.open.OpenNotReady?;
    var b := if asks then Receive(Do(Receive(a, t.nap), AskOpen), t.during) else a;
    if b.modem.open.OpenReady? then Do(b, Declare(Deactivated)) else b
  }

  function StateDeactivated(m: Machine, t: Turn): Machine {
    if !m.modem.present then Do(m, GoDown)
    else
      var asks := m.modem.enabled && m.modem.open.OpenReady? && m.modem.slot.SlotNotReady?;
      var a := if asks then Receive(Do(m, AskSlot), t.during) else m;
      if a.modem.enabled && !a.modem.slot.SlotNotReady? then Do(a, Declare(Deregistered)) else a
  }

  function StateDeregistered(m: Machine, t: Turn): Machine {
    if !m.modem.present then Do(m, GoDown)
    else if !m.modem.enabled || m.modem.open.OpenNotReady? then Deactivate(m, t)
    else if m.modem.slot.SlotSelecting? || m.modem.nas.NasRegistering? || !m.face.ifEnable then m
    else
      var a := Receive(m, t.inquiry);
      if t.cardInvalid then a else Attach(a, t)
  }

  // The rest of the DEREGISTERED state, with a usable card.
  function Attach(m: Machine, t: Turn): Machine {
    var asks := m.modem.slot.SlotReady? && m.face.ifEnable && m.modem.nas.NasNotRegistered?;
    var a := if asks then Receive(Do(m, AskMonitor), t.during) else m;
    if a.modem.nas.NasRegistered? then Receive(Do(a, Declare(Registered)), t.nap) else a
  }

  function Lapse(m: Machine): Machine {
    Do(Do(m, DropNas), Declare(Deregistered))
  }

  function StateRegistered(m: Machine, t: Turn): Machine {
    if !m.modem.present then Do(m, GoDown)
    else if !m.modem.enabled || m.modem.open.OpenNotReady? then Deactivate(m, t)
    else if m.modem.slot.SlotNotReady? then Lapse(m)
    else
      var a := Receive(m, t.inquiry);
      if t.cardInvalid || !a.face.ifEnable then Lapse(a) else Attached(a, t)
  }

  predicate Busy(b: Bearer) {
    b.starting || b.waiting
  }

  // The rest of the REGISTERED state, with a usable card.
  function Attached(m: Machine, t: Turn): Machine {
    if !m.modem.nas.NasRegistered? then Do(Do(m, SuspendNas), Declare(Deregistered))
    else if m.modem.profile.NotReady? then Receive(Do(m, AskProfile), t.during)
    else if m.modem.profile.Created? then Do(m, Exit)
    else if m.modem.profile.Configuring? || Busy(m.v4) || Busy(m.v6) then m
    else if m.modem.profile.Ready? && m.face.upstream && !m.v4.connected && !m.v6.connected then
      var w := Wait(m, t.polls);
      if w.modem.nas.NasRegistered? then StartNetwork(Do(w, Starting), t) else Do(w, Declare(Deregistered))
    else if Carried(m.modem.pdp, m.v4.connected, m.v6.connected) then Do(m, Connect)
    else m
  }

  // The wait loop: one poll a second, given up at the first poll that does not see the modem registered.
  function Wait(m: Machine, polls: seq<seq<Callback>>): Machine
    requires m.modem.nas.NasRegistered?
    decreases m.thread.maxWait - m.thread.iter
  {
    if m.thread.iter >= m.thread.maxWait then m
    else
      var a := Receive(m, if polls == [] then [] else polls[0]);
      if a.modem.nas.NasRegistered? then Wait(Do(a, Poll(true)), if polls == [] then [] else polls[1..])
      else Do(a, Poll(false))
  }

  // The PDP type is looked at again after the first request.
  function StartNetwork(m: Machine, t: Turn): Machine {
    var a := if UsesV4(m.modem.pdp) then Receive(Do(m, Start(V4)), t.during) else m;
    if UsesV6(a.modem.pdp) then Receive(Do(a, Start(V6)), t.after) else a
  }

  function StateConnected(m: Machine, t: Turn): Machine {
    if !m.modem.present then Do(m, GoDown)
    else if m.modem.open.OpenNotReady? then Deactivate(m, t)
    else if !m.modem.enabled || m.modem.slot.SlotNotReady? || !m.face.ifEnable || !m.face.upstream || Broken(m) then
      StopNetwork(Do(m, TearDown), t)
    else m
  }

  predicate Broken(m: Machine) {
    (UsesV4(m.modem.pdp) && !m.v4.connected) || (UsesV6(m.modem.pdp) && !m.v6.connected)
  }

  function StopNetwork(m: Machine, t: Turn): Machine {
    var a := if UsesV4(m.modem.pdp) then Receive(Do(m, Stop(V4)), t.during) else m;
    var b := if UsesV6(a.modem.pdp) then Receive(Do(a, Stop(V6)), t.after) else a;
    Stopped(b)
  }

  function Stopped(m: Machine): Machine {
    if !m.modem.enabled then Do(m, Declare(Deactivated))
    else if !m.face.ifEnable then Lapse(m)
    else if !m.modem.nas.NasRegistered? then Do(Do(m, SuspendNas), Declare(Deregistered))
    else Do(m, Declare(Registered))
  }

  // The machine as a turn finds it: a new state is published before it is acted on.
  function Dispatched(m: Machine): Machine {
    if m.thread.published == m.thread.driven then m else Do(m, Publish)
  }

  function Dispatch(m: Machine, t: Turn): Machine {
    match m.thread.driven
    case Down => StateDown(m, t)
    case Deactivated => StateDeactivated(m, t)
    case Deregistered => StateDeregistered(m, t)
    case Registered => StateRegistered(m, t)
    case Connected => StateConnected(m, t)
    case Halted => m
  }

  // ---- runs ----

  datatype Input = Callback(callback: Callback) | Loop(turn: Turn)

  function Next(m: Machine, input: Input): Machine {
    if m.thread.driven.Halted? then m
    else
      match input
      case Callback(c) => Do(m, Got(c))
      case Loop(t) => Dispatch(Dispatched(m), t)
  }

  // The controller after initialisation and the thread's first transition to DOWN.
  function Boot(wanted: bool, ifEnable: bool, upstream: bool): Machine {
    var modem := Modem(false, OpenNotReady, false, wanted, false, SlotNotReady, NasNotRegistered, P.NotReady, P.IPv4);
    Do(Machine(Thread(Down, Down, Down, 0, 0), Face(false, false, ifEnable, upstream), modem, IDLE, IDLE,
               Empty(Settings(wanted, ifEnable, upstream))), GoDown)
  }

  function Run(m: Machine, inputs: seq<Input>): Machine
    decreases |inputs|
  {
    if inputs == [] then m else Run(Next(m, inputs[0]), inputs[1..])
  }
}
