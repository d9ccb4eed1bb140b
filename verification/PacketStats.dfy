/** Accounting of the bytes sent and received: in all, and in router mode, since the last reset. */
module PacketStats {
  import opened Wrappers

  const LIMIT := 0x1_0000_0000_0000_0000

  // Counters are 64 bits wide. Sums and differences of this type are proved not to wrap.
  type U64 = n: int | 0 <= n < LIMIT

  datatype Bytes = Bytes(sent: U64, received: U64)

  const ZERO := Bytes(0, 0)

  datatype Stats = Stats(total: Bytes, routed: Bytes, resets: U64)

  // The counters as read, and whether the device was in router mode.
  datatype Sample = Sample(bytes: Bytes, router: bool)

  predicate Backwards(before: Bytes, now: Bytes) {
    now.sent < before.sent || now.received < before.received
  }

  // ---- what the accounts should be ----

  // The first sample since the last one that went backwards.
  function Start(samples: seq<Sample>): (k: nat)
    ensures samples != [] ==> k < |samples|
    ensures forall i :: k < i < |samples| ==> !Backwards(samples[i - 1].bytes, samples[i].bytes)
    ensures 0 < k < |samples| ==> Backwards(samples[k - 1].bytes, samples[k].bytes)
  {
    if |samples| <= 1 then 0
    else
      var n := |samples| - 1;
      if Backwards(samples[n - 1].bytes, samples[n].bytes) then n else Start(samples[..n])
  }

  function SentIn(samples: seq<Sample>, from: nat, i: nat): int
    requires from <= i < |samples|
  {
    samples[i].bytes.sent - if i == from then 0 else samples[i - 1].bytes.sent
  }

  function ReceivedIn(samples: seq<Sample>, from: nat, i: nat): int
    requires from <= i < |samples|
  {
    samples[i].bytes.received - if i == from then 0 else samples[i - 1].bytes.received
  }

  // The bytes sent in one mode from a sample on, up to the end-th.
  function SentBy(samples: seq<Sample>, from: nat, end: nat, router: bool): int
    requires from <= end <= |samples|
    decreases end
  {
    if end == from then 0
    else
      SentBy(samples, from, end - 1, router)
        + if samples[end - 1].router == router then SentIn(samples, from, end - 1) else 0
  }

  function ReceivedBy(samples: seq<Sample>, from: nat, end: nat, router: bool): int
    requires from <= end <= |samples|
    decreases end
  {
    if end == from then 0
    else
      ReceivedBy(samples, from, end - 1, router)
        + if samples[end - 1].router == router then ReceivedIn(samples, from, end - 1) else 0
  }

  function Latest(samples: seq<Sample>): Bytes {
    if samples == [] then ZERO else samples[|samples| - 1].bytes
  }

  function Falls(samples: seq<Sample>): nat {
    if |samples| <= 1 then 0
    else
      var n := |samples| - 1;
      Falls(samples[..n]) + if Backwards(samples[n - 1].bytes, samples[n].bytes) then 1 else 0
  }

  // ---- one sample ----

  function Increment(n: U64): U64 {
    (n + 1) % LIMIT
  }

  function Reset(s: Stats): Stats {
    Stats(ZERO, ZERO, Increment(s.resets))
  }

  predicate Consistent(s: Stats) {
    s.routed.sent <= s.total.sent && s.routed.received <= s.total.received
  }

  function Counted(s: Stats, x: Sample): (r: Stats)
    requires Consistent(s)
    ensures Consistent(r) && r.total == x.bytes
  {
    var a := if Backwards(s.total, x.bytes) then Reset(s) else s;
    var routed := if x.router then Bytes(a.routed.sent + (x.bytes.sent - a.total.sent),
                                         a.routed.received + (x.bytes.received - a.total.received))
                  else a.routed;
    Stats(x.bytes, routed, a.resets)
  }

  function After(resets: U64, samples: seq<Sample>): (s: Stats)
    ensures Consistent(s)
  {
    if samples == [] then Stats(ZERO, ZERO, resets)
    else Counted(After(resets, samples[..|samples| - 1]), samples[|samples| - 1])
  }

  lemma {:induction false} SentPrefix(samples: seq<Sample>, more: Sample, from: nat, end: nat, router: bool)
    requires from <= end <= |samples|
    ensures SentBy(samples + [more], from, end, router) == SentBy(samples, from, end, router)
    ensures ReceivedBy(samples + [more], from, end, router) == ReceivedBy(samples, from, end, router)
    decreases end
  {
    if from < end {
      SentPrefix(samples, more, from, end - 1, router);
    }
  }

  // Every byte since the last reset was sent in one mode or the other.
  lemma {:induction false} NothingLost(samples: seq<Sample>, from: nat, end: nat)
    requires from < end <= |samples|
    ensures SentBy(samples, from, end, true) + SentBy(samples, from, end, false) == samples[end - 1].bytes.sent
    ensures ReceivedBy(samples, from, end, true) + ReceivedBy(samples, from, end, false) == samples[end - 1].bytes.received
    decreases end
  {
    if from + 1 < end {
      NothingLost(samples, from, end - 1);
    } else {
      assert SentBy(samples, from, from, true) == 0 && SentBy(samples, from, from, false) == 0;
      assert ReceivedBy(samples, from, from, true) == 0 && ReceivedBy(samples, from, from, false) == 0;
    }
  }

  lemma {:induction false} TotalIsLatest(resets: U64, samples: seq<Sample>)
    ensures After(resets, samples).total == Latest(samples)
  {
  }

  lemma {:induction false} FallsCounted(resets: U64, samples: seq<Sample>)
    ensures After(resets, samples).resets == (resets + Falls(samples)) % LIMIT
  {
    if samples != [] {
      var n := |samples| - 1;
      FallsCounted(resets, samples[..n]);
      TotalIsLatest(resets, samples[..n]);
    }
  }

  lemma {:induction false} RoutedCounted(resets: U64, samples: seq<Sample>)
    ensures var s, k, n := After(resets, samples), Start(samples), |samples|;
            s.routed.sent == SentBy(samples, k, n, true) && s.routed.received == ReceivedBy(samples, k, n, true)
  {
    if samples != [] {
      var n := |samples| - 1;
      var past, last := samples[..n], samples[n];
      RoutedCounted(resets, past);
      TotalIsLatest(resets, past);
      assert samples == past + [last];
      if Start(samples) < n {
        SentPrefix(past, last, Start(past), n, true);
      }
    }
  }

  // Over any samples: the totals are the latest ones, the router-mode counts are what was sent and received in router
  // mode since the samples last went backwards, and each such fall is counted once.
  lemma ByteAccounts(resets: U64, samples: seq<Sample>)
    ensures var s, k, n := After(resets, samples), Start(samples), |samples|;
            && s.total == Latest(samples)
            && s.routed.sent == SentBy(samples, k, n, true)
            && s.routed.received == ReceivedBy(samples, k, n, true)
            && s.resets == (resets + Falls(samples)) % LIMIT
            && Consistent(s)
  {
    TotalIsLatest(resets, samples);
    FallsCounted(resets, samples);
    RoutedCounted(resets, samples);
  }

  // The router-mode counts and what was carried in the other mode add up to the totals.
  lemma Conservation(resets: U64, samples: seq<Sample>)
    requires samples != []
    ensures var s, k, n := After(resets, samples), Start(samples), |samples|;
            && s.routed.sent + SentBy(samples, k, n, false) == s.total.sent
            && s.routed.received + ReceivedBy(samples, k, n, false) == s.total.received
  {
    ByteAccounts(resets, samples);
    NothingLost(samples, Start(samples), |samples|);
  }

  // Losing the connection counts as a reset whenever anything was counted before.
  lemma DisconnectResets(resets: U64, samples: seq<Sample>, router: bool)
    ensures var s, off := After(resets, samples), After(resets, samples + [Sample(ZERO, router)]);
            && off.total == ZERO && off.routed == (if s.total == ZERO then s.routed else ZERO)
            && off.resets == (if s.total == ZERO then s.resets else Increment(s.resets))
  {
    var all := samples + [Sample(ZERO, router)];
    assert all[..|all| - 1] == samples;
  }

  // ---- the statistics ----

  class Statistics {
    var info: Bytes                // the interface's counters
    var total: Bytes
    var routed: Bytes
    var resets: U64

    ghost function View(): Stats
      reads this
    {
      Stats(total, routed, resets)
    }

    // Reads the counters. Without a connection they are zeroed; if the modem does not answer they stay as they were.
    method ReadCounters(connected: bool, counters: Option<Bytes>) returns (ok: bool)
      modifies this`info
      ensures info == if !connected then ZERO else if counters.Some? then counters.value else old(info)
      ensures ok <==> !connected || counters.Some?
    {
      if connected {
        if counters.Some? {
          info := counters.value;
          return true;
        }
      } else {
        info := ZERO;
        return true;
      }
      return false;
    }

    method Update(connected: bool, counters: Option<Bytes>, bus: bool, router: bool) returns (ok: bool)
      requires Consistent(View())
      modifies this
      ensures Consistent(View())
      ensures info == if !connected then ZERO else if counters.Some? then counters.value else old(info)
      ensures View() == if bus then Counted(old(View()), Sample(info, router)) else old(View())
    {
      ok := ReadCounters(connected, counters);
      if !bus {
        return;
      }
      if total.sent > info.sent || total.received > info.received {
        total := ZERO;
        routed := ZERO;
        resets := Increment(resets);
      }
      if total.sent != info.sent {
        if router {
          routed := routed.(sent := routed.sent + (info.sent - total.sent));
        }
        total := total.(sent := info.sent);
      }
      if total.received != info.received {
        if router {
          routed := routed.(received := routed.received + (info.received - total.received));
        }
        total := total.(received := info.received);
      }
    }
  }
}
