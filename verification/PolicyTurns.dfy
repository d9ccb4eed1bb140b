/**
 Where a turn of the policy machine leads and what it asks for, for every state, every situation it can begin in and
 all callbacks that arrive on the way. The conditions are read off the history, not off the code of the states.
 */
module PolicyTurns {
  import opened PolicyModel
  import opened PolicyHistory
  import opened PolicyProofs
  import P = ProfileScript

  // ---- histories of a turn ----

  // The history as a turn finds it, and with callbacks added.
  function Found(m: Machine): Log {
    if m.thread.published == m.thread.driven then m.log else Then(m.log, Publish)
  }

  function Heard(log: Log, callbacks: seq<Callback>): Log
    decreases |callbacks|
  {
    if callbacks == [] then log else Heard(Then(log, Got(callbacks[0])), callbacks[1..])
  }

  // How often an act has been performed.
  function Times(log: Log, a: Act): nat {
    match log
    case Empty(_) => 0
    case Then(past, last) => Times(past, a) + if last == a then 1 else 0
  }

  lemma {:induction false} ReceiveLog(m: Machine, callbacks: seq<Callback>)
    ensures Receive(m, callbacks).log == Heard(m.log, callbacks)
    ensures Receive(m, callbacks).thread == m.thread
    decreases |callbacks|
  {
    if callbacks != [] {
      ReceiveLog(Do(m, Got(callbacks[0])), callbacks[1..]);
    }
  }

  lemma {:induction false} HeardTimes(log: Log, callbacks: seq<Callback>, a: Act)
    requires !a.Got?
    ensures Times(Heard(log, callbacks), a) == Times(log, a)
    decreases |callbacks|
  {
    if callbacks != [] {
      HeardTimes(Then(log, Got(callbacks[0])), callbacks[1..], a);
    }
  }

  // The fields of a machine are what its history says.
  predicate Remembers(m: Machine) {
    && m.modem.present == PresentNow(m.log)
    && m.modem.open == OpenNow(m.log)
    && m.modem.enabled == EnabledNow(m.log)
    && m.modem.slot == SlotNow(m.log)
    && m.modem.nas == NasNow(m.log)
    && m.modem.profile == ProfileNow(m.log)
    && m.modem.pdp == PdpNow(m.log)
    && m.face.ifEnable == IfEnableNow(m.log)
    && m.face.upstream == UpstreamNow(m.log)
    && Busy(m.v4) == Waiting(m.log, V4)
    && Busy(m.v6) == Waiting(m.log, V6)
    && m.v4.connected == PacketUp(m.log, V4)
    && m.v6.connected == PacketUp(m.log, V6)
  }

  lemma Recalls(m: Machine)
    requires Inv(m)
    ensures Remembers(m)
  {
  }

  lemma Listens(m: Machine, callbacks: seq<Callback>, a: Act)
    requires Inv(m) && !a.Got?
    ensures var r := Receive(m, callbacks);
            && Inv(r) && Remembers(r)
            && r.log == Heard(m.log, callbacks) && r.thread == m.thread && Times(r.log, a) == Times(m.log, a)
  {
    ReceiveKept(m, callbacks);
    ReceiveLog(m, callbacks);
    HeardTimes(m.log, callbacks, a);
    Recalls(Receive(m, callbacks));
  }

  // A request, and the callbacks that arrive during it.
  lemma Asks(m: Machine, request: Act, callbacks: seq<Callback>, a: Act)
    requires Inv(m) && Allowed(m, request) && !a.Got?
    ensures var r := Receive(Do(m, request), callbacks);
            && Inv(r) && Remembers(r)
            && r.log == Heard(Then(m.log, request), callbacks) && r.thread == ThreadAfter(m.thread, request)
            && Times(r.log, a) == Times(m.log, a) + (if request == a then 1 else 0)
  {
    ActKept(m, request);
    Listens(Do(m, request), callbacks, a);
  }

  // An act that is no callback.
  lemma Acts(m: Machine, x: Act, a: Act)
    requires Inv(m) && Allowed(m, x) && !a.Got?
    ensures var r := Do(m, x);
            && Inv(r) && r.thread == ThreadAfter(m.thread, x) && r.modem == ModemAfter(m.modem, x)
            && Times(r.log, a) == Times(m.log, a) + (if x == a then 1 else 0)
  {
    ActKept(m, x);
  }

  predicate Dispatchable(d: Machine) {
    Sound(d) && d.thread.published == d.thread.driven
  }

  lemma Recalled(m: Machine)
    requires Dispatchable(m)
    ensures Remembers(m)
  {
    Recalls(m);
  }

  // A turn begins with the invariant, and with the history as it is found.
  lemma Begins(m: Machine, a: Act) returns (d: Machine)
    requires Sound(m) && !m.thread.driven.Halted? && Counted(a)
    ensures d == Dispatched(m) && Dispatchable(d)
    ensures d.log == Found(m) && Times(d.log, a) == Times(m.log, a)
    ensures d.thread.driven == m.thread.driven && d.modem == m.modem && d.v4 == m.v4 && d.v6 == m.v6
    ensures d.face.ifEnable == m.face.ifEnable && d.face.upstream == m.face.upstream
  {
    hide Inv;
    d := Dispatched(m);
    DispatchedKept(m);
  }

  // The machine before a turn, at its dispatch and after it, with what the histories say of each.
  lemma Turns(m: Machine, t: Turn, a: Act) returns (d: Machine, n: Machine)
    requires Sound(m) && !m.thread.driven.Halted? && Counted(a)
    ensures n == Next(m, Loop(t)) == Dispatch(d, t)
    ensures Dispatchable(d) && d.log == Found(m) && Times(d.log, a) == Times(m.log, a)
    ensures d.thread.driven == m.thread.driven && d.modem == m.modem && d.v4 == m.v4 && d.v6 == m.v6
    ensures d.face.ifEnable == m.face.ifEnable && d.face.upstream == m.face.upstream
    ensures Remembers(m) && Remembers(d) && Remembers(n)
    ensures Usable(d.log) == Usable(m.log)
  {
    hide Inv, Dispatch, Dispatched;
    d := Begins(m, a);
    n := Next(m, Loop(t));
    NextKept(m, Loop(t));
    Recalls(m);
    Recalls(d);
    Recalls(n);
  }

  // What a turn is held to account for: what it can ask of the HAL, the end of the process, and a poll that ends the wait.
  predicate Counted(a: Act) {
    || a.AskOpen? || a.AskSlot? || a.AskMonitor? || a.AskProfile?
    || a == Poll(false) || a.Starting? || a.Start? || a.TearDown? || a.Stop? || a.Exit?
  }

  predicate Once(before: Log, after: Log, a: Act, asked: bool) {
    Times(after, a) == Times(before, a) + if asked then 1 else 0
  }

  // A turn begins without the device, or with a modem that is disabled or closed.
  predicate Unusable(log: Log) {
    PresentNow(log) && (!EnabledNow(log) || OpenNow(log).OpenNotReady?)
  }

  predicate Usable(log: Log) {
    PresentNow(log) && EnabledNow(log) && !OpenNow(log).OpenNotReady?
  }

  lemma DeactivateLeads(d: Machine, t: Turn, a: Act)
    requires Dispatchable(d) && Counted(a) && (d.thread.driven.Deregistered? || Live(d.thread.driven))
    ensures var n := Deactivate(d, t);
            n.thread.driven.Deactivated? && Once(d.log, n.log, a, a == AskOpen)
  {
    hide Inv, Receive, Heard, Remembers, PresentNow, EnabledNow, OpenNow, SlotNow, NasNow, ProfileNow, PdpNow,
         IfEnableNow, UpstreamNow, Waiting, PacketUp;
    Asks(d, AskOpen, t.during, a);
  }

  // ---- DOWN ----

  lemma DownAsks(d: Machine, t: Turn, a: Act) returns (b: Machine)
    requires Dispatchable(d) && d.thread.driven.Down? && Counted(a)
    ensures StateDown(d, t) == if b.modem.open.OpenReady? then Do(b, Declare(Deactivated)) else b
    ensures Inv(b) && b.thread == d.thread
    ensures var asks := t.devicePresent && d.modem.open.OpenNotReady?;
            && Once(d.log, b.log, a, a == AskOpen && asks)
            && (!asks ==> b.modem == d.modem.(present := t.devicePresent))
  {
    hide Inv, Do, Receive, Heard, Remembers, Times, PresentNow, EnabledNow, OpenNow, SlotNow, NasNow, ProfileNow,
         PdpNow, IfEnableNow, UpstreamNow, Waiting, PacketUp;
    b := Do(d, Detect(t.devicePresent));
    Acts(d, Detect(t.devicePresent), a);
    if b.modem.present && b.modem.open.OpenNotReady? {
      Listens(b, t.nap, a);
      Asks(Receive(b, t.nap), AskOpen, t.during, a);
      b := Receive(Do(Receive(b, t.nap), AskOpen), t.during);
    }
  }

  lemma DownLeads(d: Machine, t: Turn, a: Act)
    requires Dispatchable(d) && d.thread.driven.Down? && Counted(a)
    ensures var n := StateDown(d, t);
            var asks := t.devicePresent && d.modem.open.OpenNotReady?;
            && n.thread.driven == (if n.modem.open.OpenReady? then Deactivated else Down)
            && Once(d.log, n.log, a, a == AskOpen && asks)
            && (!asks ==> n.modem == d.modem.(present := t.devicePresent))
  {
    hide Inv, Do, StateDown, Times;
    var b := DownAsks(d, t, a);
    if b.modem.open.OpenReady? {
      Acts(b, Declare(Deactivated), a);
    }
  }

  // A turn in DOWN takes the presence of the device anew. It leaves for DEACTIVATED exactly if the device is open at the
  // end. It asks for the device to be opened exactly if there is one that is closed, and for nothing else.
  lemma TurnInDown(m: Machine, t: Turn, a: Act)
    requires Sound(m) && m.thread.driven.Down? && Counted(a)
    ensures var n := Next(m, Loop(t));
            var asks := t.devicePresent && OpenNow(m.log).OpenNotReady?;
            && (n.thread.driven.Deactivated? <==> OpenNow(n.log).OpenReady?)
            && (n.thread.driven.Down? <==> !OpenNow(n.log).OpenReady?)
            && Once(m.log, n.log, a, a == AskOpen && asks)
            && (!asks ==> n.modem == m.modem.(present := t.devicePresent))
  {
    hide Sound, StateDown, Times;
    var d, n := Turns(m, t, a);
    DownLeads(d, t, a);
  }

  // ---- DEACTIVATED ----

  lemma DeactivatedAsks(d: Machine, t: Turn, a: Act) returns (b: Machine)
    requires Dispatchable(d) && d.thread.driven.Deactivated? && Counted(a) && d.modem.present
    ensures StateDeactivated(d, t) ==
            if b.modem.enabled && !b.modem.slot.SlotNotReady? then Do(b, Declare(Deregistered)) else b
    ensures Inv(b) && b.thread == d.thread
    ensures var asks := d.modem.enabled && d.modem.open.OpenReady? && d.modem.slot.SlotNotReady?;
            Once(d.log, b.log, a, a == AskSlot && asks)
  {
    hide Inv, Do, Receive, Heard, Remembers, Times, PresentNow, EnabledNow, OpenNow, SlotNow, NasNow, ProfileNow,
         PdpNow, IfEnableNow, UpstreamNow, Waiting, PacketUp;
    b := d;
    if d.modem.enabled && d.modem.open.OpenReady? && d.modem.slot.SlotNotReady? {
      Asks(d, AskSlot, t.during, a);
      b := Receive(Do(d, AskSlot), t.during);
    }
  }

  lemma DeactivatedLeads(d: Machine, t: Turn, a: Act)
    requires Dispatchable(d) && d.thread.driven.Deactivated? && Counted(a)
    ensures var n := StateDeactivated(d, t);
            var asks := d.modem.present && d.modem.enabled && d.modem.open.OpenReady? && d.modem.slot.SlotNotReady?;
            && n.thread.driven == (if !d.modem.present then Down
                                   else if n.modem.enabled && !n.modem.slot.SlotNotReady? then Deregistered
                                   else Deactivated)
            && Once(d.log, n.log, a, a == AskSlot && asks)
  {
    hide Inv, Do, Times;
    if d.modem.present {
      var b := DeactivatedAsks(d, t, a);
      hide StateDeactivated;
      if b.modem.enabled && !b.modem.slot.SlotNotReady? {
        Acts(b, Declare(Deregistered), a);
      }
    } else {
      Acts(d, GoDown, a);
    }
  }

  // Without the device a turn in DEACTIVATED goes back to DOWN. Otherwise it leaves for DEREGISTERED exactly if, at the
  // end, the modem is enabled and a slot is ready or being selected. It asks for a slot exactly if the modem is enabled
  // and open and there is no slot.
  lemma TurnInDeactivated(m: Machine, t: Turn, a: Act)
    requires Sound(m) && m.thread.driven.Deactivated? && Counted(a)
    ensures var n := Next(m, Loop(t));
            var asks := Usable(m.log) && OpenNow(m.log).OpenReady? && SlotNow(m.log).SlotNotReady?;
            var selected := EnabledNow(n.log) && !SlotNow(n.log).SlotNotReady?;
            && (n.thread.driven.Down? <==> !PresentNow(m.log))
            && (n.thread.driven.Deregistered? <==> PresentNow(m.log) && selected)
            && (n.thread.driven.Deactivated? <==> PresentNow(m.log) && !selected)
            && Once(m.log, n.log, a, a == AskSlot && asks)
  {
    hide Sound, StateDeactivated, Times;
    var d, n := Turns(m, t, a);
    DeactivatedLeads(d, t, a);
  }

  // ---- DEREGISTERED ----

  // The history at the end of a reading of the card status, and of a registration request if one is made.
  function Met(seen: Log, asks: bool, request: Act, callbacks: seq<Callback>): Log {
    if asks then Heard(Then(seen, request), callbacks) else seen
  }

  lemma AttachAsks(b: Machine, t: Turn, a: Act) returns (c: Machine)
    requires Dispatchable(b) && b.thread.driven.Deregistered? && Counted(a)
    ensures Attach(b, t) == if c.modem.nas.NasRegistered? then Receive(Do(c, Declare(Registered)), t.nap) else c
    ensures Inv(c) && Remembers(c) && c.thread == b.thread
    ensures var asks := SlotNow(b.log).SlotReady? && IfEnableNow(b.log) && NasNow(b.log).NasNotRegistered?;
            c.log == Met(b.log, asks, AskMonitor, t.during) && Once(b.log, c.log, a, a == AskMonitor && asks)
  {
    hide Inv, Do, Receive, Heard, Times, PresentNow, EnabledNow, OpenNow, SlotNow, NasNow, ProfileNow, PdpNow,
         IfEnableNow, UpstreamNow, Waiting, PacketUp;
    Recalls(b);
    c := b;
    if b.modem.slot.SlotReady? && b.face.ifEnable && b.modem.nas.NasNotRegistered? {
      Asks(b, AskMonitor, t.during, a);
      c := Receive(Do(b, AskMonitor), t.during);
    }
  }

  lemma AttachLeads(b: Machine, t: Turn, a: Act)
    requires Dispatchable(b) && b.thread.driven.Deregistered? && Counted(a)
    ensures var n := Attach(b, t);
            var asks := SlotNow(b.log).SlotReady? && IfEnableNow(b.log) && NasNow(b.log).NasNotRegistered?;
            && n.thread.driven == (if NasNow(Met(b.log, asks, AskMonitor, t.during)).NasRegistered? then Registered
                                   else Deregistered)
            && Once(b.log, n.log, a, a == AskMonitor && asks)
  {
    hide Inv, Attach, Do, Receive, Heard, Met, Times, PresentNow, EnabledNow, OpenNow, SlotNow, NasNow,
         ProfileNow, PdpNow, IfEnableNow, UpstreamNow, Waiting, PacketUp;
    var c := AttachAsks(b, t, a);
    if c.modem.nas.NasRegistered? {
      Asks(c, Declare(Registered), t.nap, a);
    }
  }

  lemma UnblockedLeads(d: Machine, t: Turn, a: Act)
    requires Dispatchable(d) && d.thread.driven.Deregistered? && Counted(a) && Usable(d.log)
    ensures var n, seen := StateDeregistered(d, t), Heard(d.log, t.inquiry);
            var goes := Goes(d.log) && !t.cardInvalid;
            var asks := goes && SlotNow(seen).SlotReady? && IfEnableNow(seen) && NasNow(seen).NasNotRegistered?;
            && n.thread.driven == (if goes && NasNow(Met(seen, asks, AskMonitor, t.during)).NasRegistered? then Registered
                                   else Deregistered)
            && Once(d.log, n.log, a, a == AskMonitor && asks)
  {
    hide Sound, StateDeregistered, Receive, Heard, Attach, Met, Usable, SlotNow, NasNow, IfEnableNow, Goes, Times, Counted;
    var b := Inquires(d, t, a);
    Chooses(d, t);
    if Goes(d.log) && !t.cardInvalid {
      AttachLeads(b, t, a);
    }
  }

  // The card status is read.
  lemma Inquires(d: Machine, t: Turn, a: Act) returns (b: Machine)
    requires Dispatchable(d) && Counted(a)
    ensures b == Receive(d, t.inquiry) && Dispatchable(b) && Remembers(d) && Remembers(b)
    ensures b.thread == d.thread && b.log == Heard(d.log, t.inquiry) && Times(b.log, a) == Times(d.log, a)
  {
    hide Inv, Heard, Times;
    Recalls(d);
    b := Receive(d, t.inquiry);
    Listens(d, t.inquiry, a);
  }

  // Nothing is under way, and the interface is there.
  predicate Goes(log: Log) {
    !SlotNow(log).SlotSelecting? && !NasNow(log).NasRegistering? && IfEnableNow(log)
  }

  lemma Chooses(d: Machine, t: Turn)
    requires Remembers(d) && Usable(d.log)
    ensures StateDeregistered(d, t) ==
            if !Goes(d.log) then d
            else if t.cardInvalid then Receive(d, t.inquiry)
            else Attach(Receive(d, t.inquiry), t)
  {
    hide Do, Deactivate, Receive, Attach, PresentNow, EnabledNow, OpenNow, SlotNow, NasNow, IfEnableNow;
  }

  lemma DeregisteredLeads(d: Machine, t: Turn, a: Act)
    requires Dispatchable(d) && d.thread.driven.Deregistered? && Counted(a) && !Usable(d.log)
    ensures var n := StateDeregistered(d, t);
            && n.thread.driven == (if !PresentNow(d.log) then Down else Deactivated)
            && Once(d.log, n.log, a, a == AskOpen && PresentNow(d.log))
  {
    hide Inv, Deactivate, PresentNow, EnabledNow, OpenNow;
    Recalls(d);
    if d.modem.present {
      DeactivateLeads(d, t, a);
    }
  }

  // A turn in DEREGISTERED leaves for DOWN without the device, and for DEACTIVATED with a disabled or closed modem,
  // which it asks to be opened. Otherwise it waits while a slot is being selected, a registration is under way, the
  // interface is disabled or the card is not valid. If it need not wait, it asks for the registration exactly if that is
  // lost and a slot is ready, and leaves for REGISTERED exactly if the modem is registered then.
  lemma TurnInDeregistered(m: Machine, t: Turn, a: Act)
    requires Sound(m) && m.thread.driven.Deregistered? && Counted(a)
    ensures var n, seen := Next(m, Loop(t)), Heard(Found(m), t.inquiry);
            var goes := Usable(m.log) && !SlotNow(m.log).SlotSelecting? && !NasNow(m.log).NasRegistering?
                        && IfEnableNow(m.log) && !t.cardInvalid;
            var asks := goes && SlotNow(seen).SlotReady? && IfEnableNow(seen) && NasNow(seen).NasNotRegistered?;
            var arrives := goes && NasNow(Met(seen, asks, AskMonitor, t.during)).NasRegistered?;
            && (n.thread.driven.Down? <==> !PresentNow(m.log))
            && (n.thread.driven.Deactivated? <==> Unusable(m.log))
            && (n.thread.driven.Registered? <==> arrives)
            && (n.thread.driven.Deregistered? <==> Usable(m.log) && !arrives)
            && Once(m.log, n.log, a, (a == AskOpen && Unusable(m.log)) || (a == AskMonitor && asks))
  {
    hide Sound, StateDeregistered, Met, Heard, Times, SlotNow, NasNow, IfEnableNow, PresentNow, EnabledNow, OpenNow;
    var d, n := Turns(m, t, a);
    if Usable(m.log) {
      UnblockedLeads(d, t, a);
    } else {
      DeregisteredLeads(d, t, a);
    }
  }

  // ---- REGISTERED ----

  // No start of a family is pending.
  predicate Settled(log: Log) {
    !Waiting(log, V4) && !Waiting(log, V6)
  }

  // The network is to be started: there is a profile and an upstream, and no family is up.
  predicate ToStart(log: Log) {
    ProfileNow(log).Ready? && UpstreamNow(log) && Settled(log) && !PacketUp(log, V4) && !PacketUp(log, V6)
  }

  // Every family of the PDP type is up; the PPP type has none.
  predicate UpNow(log: Log) {
    match PdpNow(log)
    case IPv4 => PacketUp(log, V4)
    case IPv6 => PacketUp(log, V6)
    case IPv4v6 => PacketUp(log, V4) && PacketUp(log, V6)
    case PPP => false
  }

  // The network is up and may be taken for connected.
  predicate ToConnect(log: Log) {
    (ProfileNow(log).Ready? || ProfileNow(log).Deleted?) && Settled(log) && UpNow(log)
  }

  // What the REGISTERED state does with a usable card.
  lemma AttachedChooses(b: Machine, t: Turn)
    requires Remembers(b) && b.thread.driven.Registered?
    ensures Attached(b, t) ==
            if !NasNow(b.log).NasRegistered? then Do(Do(b, SuspendNas), Declare(Deregistered))
            else if ProfileNow(b.log).NotReady? then Receive(Do(b, AskProfile), t.during)
            else if ProfileNow(b.log).Created? then Do(b, Exit)
            else if ToStart(b.log) then
              var w := Wait(b, t.polls);
              if w.modem.nas.NasRegistered? then StartNetwork(Do(w, Starting), t) else Do(w, Declare(Deregistered))
            else if ToConnect(b.log) then Do(b, Connect)
            else b
  {
    hide Do, Receive, Wait, StartNetwork, NasNow, ProfileNow, PdpNow, Waiting, PacketUp;
  }

  // Where it leads, and what it asks for, unless the network is to be started.
  lemma AttachedLeads(b: Machine, t: Turn, a: Act)
    requires Dispatchable(b) && b.thread.driven.Registered? && Counted(a)
    requires NasNow(b.log).NasRegistered? && !ToStart(b.log)
    ensures var n := Attached(b, t);
            && n.thread.driven == (if ProfileNow(b.log).Created? then Halted
                                   else if ToConnect(b.log) then Connected
                                   else Registered)
            && Once(b.log, n.log, a,
                    (a == AskProfile && ProfileNow(b.log).NotReady?) || (a == Exit && ProfileNow(b.log).Created?))
  {
    hide Inv, Attached, Do, Receive, Times, NasNow, ProfileNow, ToConnect, ToStart, ThreadAfter, Allowed,
         PresentNow, EnabledNow, OpenNow, SlotNow, PdpNow, IfEnableNow, UpstreamNow, Waiting, PacketUp;
    Recalled(b);
    AttachedChooses(b, t);
    Exclusive(b.log);
    if ProfileNow(b.log).NotReady? {
      AsksProfile(b, t, a);
    } else if ProfileNow(b.log).Created? {
      Exits(b, a);
    } else if ToConnect(b.log) {
      Connects(b, a);
    }
  }

  lemma AsksProfile(b: Machine, t: Turn, a: Act)
    requires Dispatchable(b) && b.thread.driven.Registered? && Counted(a)
    requires NasNow(b.log).NasRegistered? && ProfileNow(b.log).NotReady?
    ensures var n := Receive(Do(b, AskProfile), t.during);
            n.thread.driven.Registered? && Once(b.log, n.log, a, a == AskProfile)
  {
    hide Inv, Do, Receive, Times, PresentNow, EnabledNow, OpenNow, SlotNow, NasNow, ProfileNow, PdpNow,
         IfEnableNow, UpstreamNow, Waiting, PacketUp;
    Recalls(b);
    Asks(b, AskProfile, t.during, a);
  }

  lemma Exits(b: Machine, a: Act)
    requires Dispatchable(b) && b.thread.driven.Registered? && Counted(a)
    ensures var n := Do(b, Exit);
            n.thread.driven.Halted? && Once(b.log, n.log, a, a == Exit)
  {
  }

  lemma Connects(b: Machine, a: Act)
    requires Dispatchable(b) && b.thread.driven.Registered? && Counted(a) && ToConnect(b.log)
    ensures var n := Do(b, Connect);
            n.thread.driven.Connected? && Times(n.log, a) == Times(b.log, a)
  {
  }

  // ---- starting the network ----

  // The wait makes no request. It ends with a bad poll exactly if it ends with the registration lost.
  lemma {:induction false} WaitAdds(m: Machine, polls: seq<seq<Callback>>, a: Act)
    requires m.modem.nas.NasRegistered? && Counted(a)
    ensures var w := Wait(m, polls);
            Once(m.log, w.log, a, a == Poll(false) && !w.modem.nas.NasRegistered?)
    decreases m.thread.maxWait - m.thread.iter
  {
    hide ModemAfter, BearerAfter, FaceAfter, Receive;
    if m.thread.iter < m.thread.maxWait {
      var callbacks := if polls == [] then [] else polls[0];
      var b := Receive(m, callbacks);
      ReceiveLog(m, callbacks);
      HeardTimes(m.log, callbacks, a);
      PollAdds(b, a);
      if b.modem.nas.NasRegistered? {
        WaitAdds(Do(b, Poll(true)), if polls == [] then [] else polls[1..], a);
      }
    }
  }

  // The history at the end of a wait of so many polls: each sleep brings its callbacks, and the first poll that does not
  // see the modem registered is the last.
  function Polled(log: Log, polls: seq<seq<Callback>>, left: nat): Log
    decreases left
  {
    if left == 0 then log
    else
      var heard := Heard(log, if polls == [] then [] else polls[0]);
      if NasNow(heard).NasRegistered? then Polled(Then(heard, Poll(true)), if polls == [] then [] else polls[1..], left - 1)
      else Then(heard, Poll(false))
  }

  // A turn waits for three polls exactly if no start has been made since CONNECTED was last entered.
  function WaitEnd(seen: Log, t: Turn): Log {
    Polled(seen, t.polls, if Armed(seen) then 3 else 0)
  }

  lemma {:induction false} WaitLog(m: Machine, polls: seq<seq<Callback>>)
    requires Inv(m) && m.modem.nas.NasRegistered? && m.thread.iter <= m.thread.maxWait
    ensures Wait(m, polls).log == Polled(m.log, polls, m.thread.maxWait - m.thread.iter)
    decreases m.thread.maxWait - m.thread.iter
  {
    hide Inv, Receive, Heard, NasNow;
    if m.thread.iter < m.thread.maxWait {
      var callbacks := if polls == [] then [] else polls[0];
      Listens(m, callbacks, AskOpen);
      var b := Receive(m, callbacks);
      if b.modem.nas.NasRegistered? {
        ActKept(b, Poll(true));
        WaitLog(Do(b, Poll(true)), if polls == [] then [] else polls[1..]);
      }
    }
  }

  lemma PollAdds(b: Machine, a: Act)
    requires Counted(a)
    ensures Do(b, Poll(true)).modem == b.modem
    ensures !Do(b, Poll(false)).modem.nas.NasRegistered?
    ensures Times(Do(b, Poll(true)).log, a) == Times(b.log, a)
    ensures Times(Do(b, Poll(false)).log, a) == Times(b.log, a) + if a == Poll(false) then 1 else 0
  {
  }

  // The end of a wait.
  lemma Waits(b: Machine, t: Turn, a: Act) returns (w: Machine)
    requires Dispatchable(b) && b.thread.driven.Registered? && Counted(a) && NasNow(b.log).NasRegistered? && Settled(b.log)
    ensures b.modem.nas.NasRegistered? && w == Wait(b, t.polls)
    ensures Inv(w) && Remembers(w) && w.thread == b.thread.(iter := w.thread.iter)
    ensures w.modem.nas.NasRegistered? ==> w.thread.iter == w.thread.maxWait && !w.v4.waiting && !w.v6.waiting
    ensures Once(b.log, w.log, a, a == Poll(false) && !w.modem.nas.NasRegistered?)
    ensures w.log == WaitEnd(b.log, t)
  {
    Recalls(b);
    w := Wait(b, t.polls);
    WaitLog(b, t.polls);
    WaitAdds(b, t.polls, a);
    WaitKeeps(b, t.polls);
    Recalls(w);
  }

  lemma StartsFamily(s: Machine, side: Side, callbacks: seq<Callback>, a: Act) returns (b: Machine)
    requires Inv(s) && s.thread.driven.Registered? && Counted(a)
    requires !(if side.V4? then s.v4 else s.v6).waiting
    ensures b == Receive(Do(s, Start(side)), callbacks)
    ensures Inv(b) && Remembers(b) && b.thread == s.thread && b.log == Heard(Then(s.log, Start(side)), callbacks)
    ensures Once(s.log, b.log, a, a == Start(side))
  {
    hide Inv, Remembers, Do, Receive, Heard, Times;
    Asks(s, Start(side), callbacks, a);
    b := Receive(Do(s, Start(side)), callbacks);
  }

  lemma OtherStaysFree(s: Machine, callbacks: seq<Callback>)
    requires Inv(s) && s.thread.driven.Registered? && !s.v4.waiting && !s.v6.waiting
    ensures !Receive(Do(s, Start(V4)), callbacks).v6.waiting
  {
    RequestKept(s, Start(V4), callbacks);
  }

  // The families that are started: those of the PDP type, which is looked at again after the first start.
  lemma Starts(s: Machine, t: Turn, a: Act) returns (met: Log)
    requires Inv(s) && s.thread.driven.Registered? && !s.v4.waiting && !s.v6.waiting && Counted(a)
    ensures var pdp := PdpNow(s.log);
            met == Met(s.log, pdp.IPv4? || pdp.IPv4v6?, Start(V4), t.during)
    ensures var pdp, again, n := PdpNow(s.log), PdpNow(met), StartNetwork(s, t);
            && n.thread == s.thread
            && n.log == Met(met, again.IPv6? || again.IPv4v6?, Start(V6), t.after)
            && Once(s.log, n.log, a,
                    || (a == Start(V4) && (pdp.IPv4? || pdp.IPv4v6?))
                    || (a == Start(V6) && (again.IPv6? || again.IPv4v6?)))
  {
    hide Inv, Do, Receive, Heard, Times, PdpNow, Counted, PresentNow, EnabledNow, OpenNow, SlotNow, NasNow,
         ProfileNow, IfEnableNow, UpstreamNow, Waiting, PacketUp;
    Recalls(s);
    var b := s;
    if UsesV4(s.modem.pdp) {
      OtherStaysFree(s, t.during);
      b := StartsFamily(s, V4, t.during, a);
    }
    met := b.log;
    if UsesV6(b.modem.pdp) {
      var _ := StartsFamily(b, V6, t.after, a);
    }
  }

  // The history between the two starts of a network that is started after the history w.
  function BetweenStarts(w: Log, t: Turn): Log {
    Met(Then(w, Starting), PdpNow(w).IPv4? || PdpNow(w).IPv4v6?, Start(V4), t.during)
  }

  // What is asked for then: the families of the PDP type, which is looked at again after the first request.
  predicate AsksToStart(w: Log, t: Turn, a: Act) {
    var pdp, again := PdpNow(w), PdpNow(BetweenStarts(w, t));
    || a == Starting
    || (a == Start(V4) && (pdp.IPv4? || pdp.IPv4v6?))
    || (a == Start(V6) && (again.IPv6? || again.IPv4v6?))
  }

  lemma Begun(w: Machine, t: Turn, a: Act)
    requires Inv(w) && w.thread.driven.Registered? && w.thread.iter == w.thread.maxWait && w.modem.nas.NasRegistered?
    requires !w.v4.waiting && !w.v6.waiting && Counted(a)
    ensures var n := StartNetwork(Do(w, Starting), t);
            n.thread.driven.Registered? && Once(w.log, n.log, a, AsksToStart(w.log, t, a))
  {
    hide Inv, StartNetwork, Met, Heard, PresentNow, EnabledNow, OpenNow, SlotNow, NasNow, ProfileNow, PdpNow,
         IfEnableNow, UpstreamNow, Waiting, PacketUp;
    SamePdp(w.log);
    Acts(w, Starting, a);
    assert Do(w, Starting).v4 == w.v4 && Do(w, Starting).v6 == w.v6;
    var met := Starts(Do(w, Starting), t, a);
  }

  lemma SamePdp(log: Log)
    ensures PdpNow(Then(log, Starting)) == PdpNow(log)
  {
  }

  lemma GivesUp(w: Machine, a: Act)
    requires Counted(a)
    ensures var n := Do(w, Declare(Deregistered));
            n.thread.driven.Deregistered? && Times(n.log, a) == Times(w.log, a)
  {
  }

  lemma StartLeads(b: Machine, t: Turn, a: Act)
    requires Dispatchable(b) && b.thread.driven.Registered? && Counted(a)
    requires NasNow(b.log).NasRegistered? && ToStart(b.log)
    ensures var n, w := Attached(b, t), WaitEnd(b.log, t);
            var held := NasNow(w).NasRegistered?;
            && n.thread.driven == (if held then Registered else Deregistered)
            && Once(b.log, n.log, a, if held then AsksToStart(w, t, a) else a == Poll(false))
  {
    hide Inv, Attached, Do, Wait, WaitEnd, StartNetwork, Times, NasNow, ProfileNow, PdpNow, Armed, Waiting, PacketUp,
         AsksToStart, BetweenStarts, Counted, PresentNow, EnabledNow, OpenNow, SlotNow, IfEnableNow, UpstreamNow,
         Sound, ToStart;
    Recalled(b);
    AttachedChooses(b, t);
    ToStartSettled(b.log);
    var end := Waits(b, t, a);
    if end.modem.nas.NasRegistered? {
      Begun(end, t, a);
      NoPoll(end.log, t, a);
    } else {
      GivesUp(end, a);
    }
  }

  lemma ToStartSettled(log: Log)
    ensures ToStart(log) ==> Settled(log) && !ProfileNow(log).NotReady? && !ProfileNow(log).Created?
  {
  }

  lemma NoPoll(w: Log, t: Turn, a: Act)
    ensures AsksToStart(w, t, a) ==> a != Poll(false)
  {
  }

  lemma SentBack(b: Machine, a: Act)
    requires Dispatchable(b) && b.thread.driven.Registered? && Counted(a)
    ensures Lapse(b).thread.driven.Deregistered? && Times(Lapse(b).log, a) == Times(b.log, a)
    ensures var n := Do(Do(b, SuspendNas), Declare(Deregistered));
            n.thread.driven.Deregistered? && Times(n.log, a) == Times(b.log, a)
  {
    hide Sound, BearerAfter, FaceAfter, ModemAfter;
  }

  lemma RegisteredUnusable(d: Machine, t: Turn, a: Act)
    requires Dispatchable(d) && d.thread.driven.Registered? && Counted(a) && !Usable(d.log)
    ensures var n := StateRegistered(d, t);
            && n.thread.driven == (if !PresentNow(d.log) then Down else Deactivated)
            && Once(d.log, n.log, a, a == AskOpen && PresentNow(d.log))
  {
    hide Inv, Deactivate, Lapse, Attached, Receive, PresentNow, EnabledNow, OpenNow, SlotNow, NasNow, ProfileNow,
         PdpNow, IfEnableNow, UpstreamNow, Waiting, PacketUp;
    Recalls(d);
    if d.modem.present {
      DeactivateLeads(d, t, a);
    }
  }

  // The card can be used, and the interface and the registration are there, once the card status has been read.
  predicate InService(log: Log, seen: Log, t: Turn) {
    Usable(log) && !SlotNow(log).SlotNotReady? && !t.cardInvalid && IfEnableNow(seen) && NasNow(seen).NasRegistered?
  }

  lemma RegisteredOnward(d: Machine, t: Turn, a: Act) returns (b: Machine)
    requires Dispatchable(d) && d.thread.driven.Registered? && Counted(a) && Usable(d.log)
    ensures Dispatchable(b) && b.thread.driven.Registered? && b.log == Heard(d.log, t.inquiry)
    ensures Times(b.log, a) == Times(d.log, a)
    ensures var n := StateRegistered(d, t);
            if InService(d.log, b.log, t) then n == Attached(b, t)
            else n.thread.driven.Deregistered? && Times(n.log, a) == Times(d.log, a)
  {
    hide Inv, Lapse, Do, Receive, Heard, Times, PresentNow, EnabledNow, OpenNow, SlotNow, NasNow, IfEnableNow;
    Recalls(d);
    b := Receive(d, t.inquiry);
    Listens(d, t.inquiry, a);
    SentBack(d, a);
    SentBack(b, a);
    AttachedChooses(b, t);
    hide Attached;
  }

  // What a turn in REGISTERED asks for with a card that can be used.
  predicate ServingAsks(seen: Log, t: Turn, a: Act) {
    var w := WaitEnd(seen, t);
    || (a == AskProfile && ProfileNow(seen).NotReady?)
    || (a == Exit && ProfileNow(seen).Created?)
    || (ToStart(seen) && if NasNow(w).NasRegistered? then AsksToStart(w, t, a) else a == Poll(false))
  }

  // Where it leads then.
  function ServingEnds(seen: Log, t: Turn): Phase {
    if ProfileNow(seen).Created? then Halted
    else if ToConnect(seen) then Connected
    else if ToStart(seen) && !NasNow(WaitEnd(seen, t)).NasRegistered? then Deregistered
    else Registered
  }

  // The branches exclude each other.
  lemma Exclusive(log: Log)
    ensures ToStart(log) ==> !ToConnect(log) && !ProfileNow(log).Created? && !ProfileNow(log).NotReady?
    ensures ToConnect(log) ==> !ProfileNow(log).Created? && !ProfileNow(log).NotReady?
  {
  }

  lemma ServingLeads(b: Machine, t: Turn, a: Act)
    requires Dispatchable(b) && b.thread.driven.Registered? && Counted(a) && NasNow(b.log).NasRegistered?
    ensures var n := Attached(b, t);
            n.thread.driven == ServingEnds(b.log, t) && Once(b.log, n.log, a, ServingAsks(b.log, t, a))
  {
    hide Sound, Attached, Times, NasNow, ProfileNow, ToStart, ToConnect, WaitEnd, AsksToStart, Counted;
    Exclusive(b.log);
    if ToStart(b.log) {
      StartLeads(b, t, a);
    } else {
      AttachedLeads(b, t, a);
    }
  }

  lemma RegisteredLeads(d: Machine, t: Turn, a: Act)
    requires Dispatchable(d) && d.thread.driven.Registered? && Counted(a) && Usable(d.log)
    ensures var n, seen := StateRegistered(d, t), Heard(d.log, t.inquiry);
            && n.thread.driven == (if InService(d.log, seen, t) then ServingEnds(seen, t) else Deregistered)
            && Once(d.log, n.log, a, InService(d.log, seen, t) && ServingAsks(seen, t, a))
  {
    hide Sound, Attached, StateRegistered, Heard, Times, Usable, SlotNow, IfEnableNow, NasNow, ServingAsks, ServingEnds,
         Counted;
    var b := RegisteredOnward(d, t, a);
    if InService(d.log, b.log, t) {
      ServingLeads(b, t, a);
    }
  }

  // A turn in REGISTERED leaves for DOWN without the device, and for DEACTIVATED with a disabled or closed modem, which
  // it asks to be opened. It goes back to DEREGISTERED if the slot, the card, the interface or the registration is lost.
  // Otherwise: without a profile it asks for one; with one that has just been created the process ends; if the network is
  // to be started it is, for the families of the PDP type, once a wait that is due is over, unless the registration is
  // lost during the wait; and it leaves for CONNECTED exactly if no start is pending and all families of the PDP type
  // are up.
  lemma TurnInRegistered(m: Machine, t: Turn, a: Act)
    requires Sound(m) && m.thread.driven.Registered? && Counted(a)
    ensures var n, seen := Next(m, Loop(t)), Heard(Found(m), t.inquiry);
            var serves := InService(m.log, seen, t);
            && n.thread.driven == (if !PresentNow(m.log) then Down
                                   else if Unusable(m.log) then Deactivated
                                   else if !serves then Deregistered
                                   else ServingEnds(seen, t))
            && Once(m.log, n.log, a, (a == AskOpen && Unusable(m.log)) || (serves && ServingAsks(seen, t, a)))
  {
    hide Sound, StateRegistered, Heard, Times, PresentNow, EnabledNow, OpenNow, NasNow, IfEnableNow, ProfileNow, SlotNow,
         PdpNow, UpstreamNow, Waiting, PacketUp, ServingAsks, ServingEnds, Counted;
    var d, n := Turns(m, t, a);
    if Usable(m.log) {
      RegisteredLeads(d, t, a);
    } else {
      RegisteredUnusable(d, t, a);
    }
  }

  // From REGISTERED, CONNECTED is entered exactly if the device, the modem, the slot, the card, the interface and the
  // registration are there, a profile is selected, no start of a family is pending and every family of the PDP type has
  // been reported up and not been lost.
  lemma EntersConnected(m: Machine, t: Turn)
    requires Sound(m) && m.thread.driven.Registered?
    ensures var seen := Heard(Found(m), t.inquiry);
            var pdp := PdpNow(seen);
            Next(m, Loop(t)).thread.driven.Connected? <==>
              && PresentNow(m.log) && EnabledNow(m.log) && !OpenNow(m.log).OpenNotReady? && !SlotNow(m.log).SlotNotReady?
              && !t.cardInvalid && IfEnableNow(seen) && NasNow(seen).NasRegistered?
              && (ProfileNow(seen).Ready? || ProfileNow(seen).Deleted?)
              && !Waiting(seen, V4) && !Waiting(seen, V6)
              && !pdp.PPP?
              && (pdp.IPv4? || pdp.IPv4v6? ==> PacketUp(seen, V4))
              && (pdp.IPv6? || pdp.IPv4v6? ==> PacketUp(seen, V6))
  {
    hide Sound, Next;
    TurnInRegistered(m, t, Exit);
    Exclusive(Heard(Found(m), t.inquiry));
  }

  // ---- CONNECTED ----

  // Nothing asks for the network to be stopped: the modem is enabled, the slot is not lost, the interface and the
  // upstream are there, and no family of the PDP type is down.
  predicate Undisturbed(log: Log) {
    && EnabledNow(log) && !SlotNow(log).SlotNotReady? && IfEnableNow(log) && UpstreamNow(log)
    && (PdpNow(log).IPv4? || PdpNow(log).IPv4v6? ==> PacketUp(log, V4))
    && (PdpNow(log).IPv6? || PdpNow(log).IPv4v6? ==> PacketUp(log, V6))
  }

  // What a teardown asks for: the families of the PDP type are stopped, which is looked at again after the first request.
  predicate AsksToStop(torn: Log, met: Log, a: Act) {
    var pdp, again := PdpNow(torn), PdpNow(met);
    || a == TearDown
    || (a == Stop(V4) && (pdp.IPv4? || pdp.IPv4v6?))
    || (a == Stop(V6) && (again.IPv6? || again.IPv4v6?))
  }

  function BetweenStops(torn: Log, t: Turn): Log {
    Met(torn, PdpNow(torn).IPv4? || PdpNow(torn).IPv4v6?, Stop(V4), t.during)
  }

  lemma StopsFamily(s: Machine, side: Side, callbacks: seq<Callback>, a: Act) returns (b: Machine)
    requires Inv(s) && Counted(a)
    ensures b == Receive(Do(s, Stop(side)), callbacks)
    ensures Inv(b) && Remembers(b) && b.thread == s.thread && b.log == Heard(Then(s.log, Stop(side)), callbacks)
    ensures Once(s.log, b.log, a, a == Stop(side))
  {
    hide Inv, Remembers, Do, Receive, Heard, Times;
    Asks(s, Stop(side), callbacks, a);
    b := Receive(Do(s, Stop(side)), callbacks);
  }

  lemma FirstStops(s: Machine, t: Turn, a: Act) returns (b: Machine)
    requires Inv(s) && Counted(a)
    ensures b == if UsesV4(s.modem.pdp) then Receive(Do(s, Stop(V4)), t.during) else s
    ensures Inv(b) && Remembers(b) && b.thread == s.thread && b.log == BetweenStops(s.log, t)
    ensures Once(s.log, b.log, a, a == Stop(V4) && (PdpNow(s.log).IPv4? || PdpNow(s.log).IPv4v6?))
  {
    hide Inv, Do, Receive, Heard, Times, PdpNow, Counted;
    Recalls(s);
    b := s;
    if UsesV4(s.modem.pdp) {
      b := StopsFamily(s, V4, t.during, a);
    }
  }

  // The history at the end of a teardown decides where it leads.
  lemma StopLeads(s: Machine, t: Turn, a: Act) returns (b: Machine)
    requires Inv(s) && Counted(a)
    ensures StopNetwork(s, t) == Stopped(b) && Inv(b) && Remembers(b) && b.thread == s.thread
    ensures var pdp, met := PdpNow(s.log), BetweenStops(s.log, t);
            var again := PdpNow(met);
            && b.log == Met(met, again.IPv6? || again.IPv4v6?, Stop(V6), t.after)
            && Once(s.log, b.log, a,
                    || (a == Stop(V4) && (pdp.IPv4? || pdp.IPv4v6?))
                    || (a == Stop(V6) && (again.IPv6? || again.IPv4v6?)))
  {
    hide Inv, Do, Receive, Heard, Stopped, Times, PdpNow, Counted;
    b := FirstStops(s, t, a);
    if UsesV6(b.modem.pdp) {
      b := StopsFamily(b, V6, t.after, a);
    }
  }

  lemma StoppedLeads(b: Machine)
    ensures var n := Stopped(b);
            && n.thread.driven == (if !n.modem.enabled then Deactivated
                                   else if n.face.ifEnable && n.modem.nas.NasRegistered? then Registered
                                   else Deregistered)
            && (n.modem.enabled == b.modem.enabled && n.face.ifEnable == b.face.ifEnable)
            && n.modem.nas == (if !b.modem.enabled || (b.face.ifEnable && b.modem.nas.NasRegistered?) then b.modem.nas
                               else if !b.face.ifEnable then NasNotRegistered
                               else NasRegistering)
  {
    hide BearerAfter;
  }

  lemma StoppedAsks(b: Machine, a: Act)
    requires Counted(a)
    ensures Times(Stopped(b).log, a) == Times(b.log, a)
  {
    hide BearerAfter, FaceAfter, ModemAfter, ThreadAfter;
  }

  lemma TearsDown(d: Machine, t: Turn, a: Act) returns (s: Machine)
    requires Dispatchable(d) && d.thread.driven.Connected? && Counted(a)
    requires PresentNow(d.log) && !OpenNow(d.log).OpenNotReady? && !Undisturbed(d.log)
    ensures StateConnected(d, t) == StopNetwork(s, t)
    ensures Inv(s) && s.log == Then(d.log, TearDown) && Once(d.log, s.log, a, a == TearDown)
  {
    hide Inv, Do, StateConnected, StopNetwork, PresentNow, OpenNow, Undisturbed, EnabledNow, SlotNow, NasNow,
         ProfileNow, PdpNow, IfEnableNow, UpstreamNow, Waiting, PacketUp;
    s := Do(d, TearDown);
    Disturbed(d, t);
    TornLog(d);
    Acts(d, TearDown, a);
  }

  lemma Disturbed(d: Machine, t: Turn)
    requires Inv(d) && d.thread.driven.Connected?
    requires PresentNow(d.log) && !OpenNow(d.log).OpenNotReady? && !Undisturbed(d.log)
    ensures StateConnected(d, t) == StopNetwork(Do(d, TearDown), t)
  {
    hide Inv, Do, StopNetwork, PresentNow, EnabledNow, OpenNow, SlotNow, IfEnableNow, UpstreamNow, PdpNow, PacketUp;
    Recalls(d);
  }

  lemma TornLog(d: Machine)
    ensures Do(d, TearDown).log == Then(d.log, TearDown)
  {
  }

  lemma ConnectedLeads(d: Machine, t: Turn, a: Act)
    requires Dispatchable(d) && d.thread.driven.Connected? && Counted(a)
    requires PresentNow(d.log) && !OpenNow(d.log).OpenNotReady? && !Undisturbed(d.log)
    ensures var n, torn := StateConnected(d, t), Then(d.log, TearDown);
            && n.thread.driven == (if !n.modem.enabled then Deactivated
                                   else if n.face.ifEnable && n.modem.nas.NasRegistered? then Registered
                                   else Deregistered)
            && Once(d.log, n.log, a, AsksToStop(torn, BetweenStops(torn, t), a))
  {
    hide Sound, Inv, StateConnected, StopNetwork, Stopped, BetweenStops, PdpNow, Undisturbed, Counted;
    var s := TearsDown(d, t, a);
    var b := StopLeads(s, t, a);
    StoppedLeads(b);
    StoppedAsks(b, a);
  }

  lemma ConnectedStays(d: Machine, t: Turn, a: Act)
    requires Dispatchable(d) && d.thread.driven.Connected? && Counted(a)
    requires !PresentNow(d.log) || OpenNow(d.log).OpenNotReady? || Undisturbed(d.log)
    ensures var n := StateConnected(d, t);
            && n.thread.driven == (if !PresentNow(d.log) then Down
                                   else if OpenNow(d.log).OpenNotReady? then Deactivated
                                   else Connected)
            && Once(d.log, n.log, a, a == AskOpen && PresentNow(d.log) && OpenNow(d.log).OpenNotReady?)
  {
    hide Inv, Deactivate, Receive, StopNetwork, PresentNow, EnabledNow, OpenNow, SlotNow, IfEnableNow, UpstreamNow, PdpNow,
         PacketUp;
    Recalls(d);
    if d.modem.present && d.modem.open.OpenNotReady? {
      DeactivateLeads(d, t, a);
    }
  }

  // A turn in CONNECTED ends there exactly if, as it begins, the device is present and not closed, the modem is enabled,
  // the slot is not lost, the interface and the upstream are there and every family of the PDP type is up. Without the
  // device it leads to DOWN, with a closed one to DEACTIVATED. Otherwise the network is stopped, for the families of the
  // PDP type, and the end of the turn decides: DEACTIVATED with the modem disabled, REGISTERED with the interface there
  // and the modem registered, DEREGISTERED otherwise.
  lemma TurnInConnected(m: Machine, t: Turn, a: Act)
    requires Sound(m) && m.thread.driven.Connected? && Counted(a)
    ensures var n, torn := Next(m, Loop(t)), Then(Found(m), TearDown);
            var removed, closed := !PresentNow(m.log), PresentNow(m.log) && OpenNow(m.log).OpenNotReady?;
            var stops := !removed && !closed && !Undisturbed(m.log);
            && (n.thread.driven.Connected? <==> !removed && !closed && Undisturbed(m.log))
            && (n.thread.driven.Down? <==> removed)
            && (n.thread.driven.Deactivated? <==> closed || (stops && !EnabledNow(n.log)))
            && (n.thread.driven.Registered? <==>
                  stops && EnabledNow(n.log) && IfEnableNow(n.log) && NasNow(n.log).NasRegistered?)
            && (n.thread.driven.Deregistered? <==>
                  stops && EnabledNow(n.log) && !(IfEnableNow(n.log) && NasNow(n.log).NasRegistered?))
            && Once(m.log, n.log, a, (a == AskOpen && closed) || (stops && AsksToStop(torn, BetweenStops(torn, t), a)))
  {
    hide Sound, StateConnected, Times, PresentNow, EnabledNow, OpenNow, NasNow, IfEnableNow, SlotNow, PdpNow, UpstreamNow,
         PacketUp, BetweenStops, AsksToStop, Counted;
    var d, n := Turns(m, t, a);
    assert Undisturbed(d.log) == Undisturbed(m.log);
    if PresentNow(m.log) && !OpenNow(m.log).OpenNotReady? && !Undisturbed(m.log) {
      ConnectedLeads(d, t, a);
    } else {
      ConnectedStays(d, t, a);
    }
  }
}