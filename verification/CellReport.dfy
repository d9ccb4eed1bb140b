/**
 The cell table: a report of neighbouring cells is flattened into a table of at most twenty, the HAL hands out a copy
 with the serving cell marked, and the manager keeps a second copy for reads that need not be fresh.
 */
module CellReport {
  import opened Wrappers

  const MAX_CELLS := 20

  // A cell as the modem reports it, with signals in tenths.
  datatype RawCell = RawCell(id: int, rsrp: int, rsrq: int, rssi: int)

  // The cells of one other frequency; there may be no list of them.
  datatype Group = Group(rfcn: int, cells: Option<seq<RawCell>>)

  datatype Report =
    | Refused                                     // no answer, or an error
    | Partial                                     // an answer without the intra-frequency part
    | Full(area: int, globalId: int, rfcn: int, servingId: int, intra: seq<RawCell>, advance: Option<int>,
           inter: seq<Group>)

  datatype Cell = Cell(id: int, rfcn: int, rsrp: int, rsrq: int, rssi: int)

  // What the NAS context keeps of the last report that had cells.
  datatype Table = Table(cells: seq<Cell>, area: int, globalId: int, rfcn: int, servingId: int, advance: int)

  const MISSING_SIGNAL := -32768

  // Tenths become whole units; the fraction is cut off towards zero when the value is stored as an integer.
  function Units(tenths: int): (u: int)
    ensures tenths != MISSING_SIGNAL && tenths >= 0 ==> 10 * u <= tenths < 10 * u + 10
    ensures tenths != MISSING_SIGNAL && tenths <= 0 ==> 10 * u - 10 < tenths <= 10 * u
    ensures tenths == MISSING_SIGNAL ==> u == 0
  {
    if tenths == MISSING_SIGNAL then 0 else if tenths >= 0 then tenths / 10 else -((-tenths) / 10)
  }

  function Stored(c: RawCell, rfcn: int): Cell {
    Cell(c.id, rfcn, Units(c.rsrp), Units(c.rsrq), Units(c.rssi))
  }

  function StoredAll(cells: seq<RawCell>, rfcn: int): (s: seq<Cell>)
    ensures |s| == |cells|
  {
    seq(|cells|, i requires 0 <= i < |cells| => Stored(cells[i], rfcn))
  }

  function GroupCells(g: Group): seq<RawCell> {
    if g.cells.Some? then g.cells.value else []
  }

  // The groups in their order, one after the other.
  function Flattened(groups: seq<Group>): seq<Cell> {
    if groups == [] then []
    else
      var last := groups[|groups| - 1];
      Flattened(groups[..|groups| - 1]) + StoredAll(GroupCells(last), last.rfcn)
  }

  function AllCells(r: Report): seq<Cell>
    requires r.Full?
  {
    StoredAll(r.intra, r.rfcn) + Flattened(r.inter)
  }

  // As much of a sequence as there is room for.
  function Fitting(s: seq<Cell>, room: nat): (r: seq<Cell>)
    ensures |r| <= room && r <= s
    ensures |s| <= room ==> r == s
    ensures |s| >= room ==> |r| == room
  {
    if |s| <= room then s else s[..room]
  }

  lemma FittingMore(a: seq<Cell>, b: seq<Cell>, room: nat)
    ensures Fitting(Fitting(a, room) + b, room) == Fitting(a + b, room)
    ensures |a| >= room ==> Fitting(a + b, room) == Fitting(a, room)
  {
  }

  // A report without cells changes nothing.
  function Taken(t: Table, r: Report): Table {
    if !r.Full? || AllCells(r) == [] then t
    else
      var advance := if r.advance.Some? then r.advance.value else 0;
      Table(Fitting(AllCells(r), MAX_CELLS), r.area, r.globalId, r.rfcn, r.servingId, advance)
  }

  // ---- the HAL's copy ----

  // What the HAL is told about the network besides the table.
  datatype Network = Network(rat: string, mcc: nat, mnc: nat, operator: string)

  datatype HalCell = HalCell(
    id: int, rfcn: int, rsrp: int, rsrq: int, rssi: int, rat: string, serving: bool,
    globalId: int, area: int, advance: int, mcc: nat, mnc: nat, operator: string)

  // The serving cell alone carries the identity of the network.
  function Shown(t: Table, c: Cell, n: Network): HalCell {
    if c.id == t.servingId && c.rfcn == t.rfcn then
      HalCell(c.id, c.rfcn, c.rsrp, c.rsrq, c.rssi, n.rat, true, t.globalId, t.area, t.advance, n.mcc, n.mnc, n.operator)
    else
      HalCell(c.id, c.rfcn, c.rsrp, c.rsrq, c.rssi, n.rat, false, 0, 0, 0, 0, 0, "")
  }

  function ShownAll(t: Table, n: Network): (s: seq<HalCell>)
    ensures |s| == |t.cells|
  {
    seq(|t.cells|, i requires 0 <= i < |t.cells| => Shown(t, t.cells[i], n))
  }

  // The pipeline from the report on: its first twenty cells come out of the HAL in order, with the channel and signals
  // of the report; the one that has the serving identity and channel carries the network's identity, no other does.
  lemma ReportShown(t: Table, r: Report, n: Network, i: nat)
    requires r.Full? && i < |AllCells(r)| && i < 20
    ensures var s, c := ShownAll(Taken(t, r), n), AllCells(r)[i];
            var serving := c.id == r.servingId && c.rfcn == r.rfcn;
            && |s| == (if |AllCells(r)| < 20 then |AllCells(r)| else 20)
            && (s[i].id, s[i].rfcn, s[i].rsrp, s[i].rsrq, s[i].rssi) == (c.id, c.rfcn, c.rsrp, c.rsrq, c.rssi)
            && s[i].rat == n.rat && s[i].serving == serving
            && (s[i].globalId, s[i].area) == (if serving then (r.globalId, r.area) else (0, 0))
            && s[i].advance == (if serving && r.advance.Some? then r.advance.value else 0)
            && (s[i].mcc, s[i].mnc, s[i].operator) == (if serving then (n.mcc, n.mnc, n.operator) else (0, 0, ""))
  {
  }

  // The intra-frequency cells come out first, on the channel of the report.
  lemma IntraCellShown(t: Table, r: Report, n: Network, k: nat)
    requires r.Full? && k < |r.intra| && k < MAX_CELLS
    ensures var s, raw := ShownAll(Taken(t, r), n), r.intra[k];
            && k < |s|
            && (s[k].id, s[k].rfcn) == (raw.id, r.rfcn)
            && (s[k].rsrp, s[k].rsrq, s[k].rssi) == (Units(raw.rsrp), Units(raw.rsrq), Units(raw.rssi))
  {
    assert AllCells(r)[k] == Stored(r.intra[k], r.rfcn);
  }

  // A report that failed, lacks its intra-frequency part or has no cells at all leaves the table as it was.
  lemma TableStays(t: Table, r: Report)
    requires r.Full? ==> r.intra == [] && forall g :: 0 <= g < |r.inter| ==> GroupCells(r.inter[g]) == []
    ensures Taken(t, r) == t
  {
    if r.Full? {
      NothingFlattened(r.inter);
    }
  }

  lemma {:induction false} NothingFlattened(groups: seq<Group>)
    requires forall g :: 0 <= g < |groups| ==> GroupCells(groups[g]) == []
    ensures Flattened(groups) == []
  {
    if groups != [] {
      NothingFlattened(groups[..|groups| - 1]);
    }
  }

  // Where a raw cell comes out: intra-frequency cells first, then the groups in order.
  lemma RawCellShown(t: Table, r: Report, n: Network, g: nat, k: nat)
    requires r.Full? && g < |r.inter| && k < |GroupCells(r.inter[g])|
    requires |r.intra| + |Flattened(r.inter[..g])| + k < MAX_CELLS
    ensures var at, raw := |r.intra| + |Flattened(r.inter[..g])| + k, GroupCells(r.inter[g])[k];
            var s := ShownAll(Taken(t, r), n);
            && at < |s|
            && (s[at].id, s[at].rfcn) == (raw.id, r.inter[g].rfcn)
            && (s[at].rsrp, s[at].rsrq, s[at].rssi) == (Units(raw.rsrp), Units(raw.rsrq), Units(raw.rssi))
  {
    FlattenedAt(r.inter, g, k);
  }

  // The intra-frequency cells come first; the cells of group g follow those of all groups before it.
  lemma {:induction false} FlattenedAt(groups: seq<Group>, g: nat, k: nat)
    requires g < |groups| && k < |GroupCells(groups[g])|
    ensures var at := |Flattened(groups[..g])| + k;
            at < |Flattened(groups)| && Flattened(groups)[at] == Stored(GroupCells(groups[g])[k], groups[g].rfcn)
    decreases |groups|
  {
    if g < |groups| - 1 {
      assert groups[..|groups| - 1][..g] == groups[..g];
      FlattenedAt(groups[..|groups| - 1], g, k);
    }
  }

  class NasContext {
    var cells: array<Cell>
    var count: nat
    var area: int
    var globalId: int
    var rfcn: int
    var servingId: int
    var advance: int

    ghost predicate Valid()
      reads this
    {
      count == cells.Length <= MAX_CELLS
    }

    ghost function View(): Table
      requires Valid()
      reads this, cells
    {
      Table(cells[..], area, globalId, rfcn, servingId, advance)
    }

    // The number of cells of other frequencies.
    method CountInter(groups: seq<Group>) returns (n: nat)
      ensures n == |Flattened(groups)|
    {
      n := 0;
      for i := 0 to |groups|
        invariant n == |Flattened(groups[..i])|
      {
        assert groups[..i + 1][..i] == groups[..i];
        if groups[i].cells.Some? {
          n := n + |groups[i].cells.value|;
        }
      }
      assert groups[..|groups|] == groups;
    }

    // Copies raw cells into the new table from an index on, as far as there is room.
    method Copy(raw: seq<RawCell>, channel: int, into: array<Cell>, from: nat) returns (idx: nat)
      requires from <= into.Length
      modifies into
      ensures from <= idx <= into.Length
      ensures into[..idx] == Fitting(old(into[..from]) + StoredAll(raw, channel), into.Length)
    {
      idx := from;
      var i := 0;
      while i < |raw| && idx < into.Length
        invariant i <= |raw| && idx == from + i <= into.Length
        invariant into[..idx] == old(into[..from]) + StoredAll(raw, channel)[..i]
      {
        into[idx] := Stored(raw[i], channel);
        idx := idx + 1;
        i := i + 1;
      }
    }

    // Copies the groups one after the other, as far as there is room.
    method CopyGroups(groups: seq<Group>, into: array<Cell>, from: nat) returns (idx: nat)
      requires from <= into.Length
      modifies into
      ensures from <= idx <= into.Length
      ensures into[..idx] == Fitting(old(into[..from]) + Flattened(groups), into.Length)
    {
      idx := from;
      ghost var before := into[..from];
      var i := 0;
      while i < |groups| && idx < into.Length
        invariant i <= |groups| && from <= idx <= into.Length
        invariant into[..idx] == Fitting(before + Flattened(groups[..i]), into.Length)
      {
        idx := CopyGroup(groups, i, into, idx, before);
        i := i + 1;
      }
      GroupsFit(before, groups, i, into.Length);
    }

    method CopyGroup(groups: seq<Group>, i: nat, into: array<Cell>, from: nat, ghost before: seq<Cell>) returns (idx: nat)
      requires i < |groups| && from <= into.Length
      requires into[..from] == Fitting(before + Flattened(groups[..i]), into.Length)
      modifies into
      ensures from <= idx <= into.Length
      ensures into[..idx] == Fitting(before + Flattened(groups[..i + 1]), into.Length)
    {
      GroupFits(before, groups, i, into.Length);
      idx := from;
      if groups[i].cells.Some? {
        idx := Copy(groups[i].cells.value, groups[i].rfcn, into, from);
      } else {
        assert into[..from] + StoredAll([], groups[i].rfcn) == into[..from];
      }
    }

    // A new table of the given size, filled from the report.
    method Flatten(intra: seq<RawCell>, channel: int, inter: seq<Group>, size: nat) returns (into: array<Cell>)
      requires size <= |intra| + |Flattened(inter)|
      ensures fresh(into) && into.Length == size
      ensures into[..] == Fitting(StoredAll(intra, channel) + Flattened(inter), size)
    {
      into := new Cell[size](_ => Cell(0, 0, 0, 0, 0));
      var idx := Copy(intra, channel, into, 0);
      ghost var first := StoredAll(intra, channel);
      assert into[..0] + first == first;
      idx := CopyGroups(inter, into, idx);
      FittingMore(first, Flattened(inter), size);
      assert into[..] == into[..idx];
    }

    method Parse(r: Report)
      requires Valid()
      modifies this
      ensures Valid() && (cells == old(cells) || fresh(cells))
      ensures View() == Taken(old(View()), r)
    {
      if !r.Full? {
        return;
      }
      var inter := CountInter(r.inter);
      var total := |r.intra| + inter;
      if total == 0 {
        return;
      }
      if total > MAX_CELLS {
        total := MAX_CELLS;
      }
      var into := Flatten(r.intra, r.rfcn, r.inter, total);
      cells := into;
      count := total;
      globalId := r.globalId;
      servingId := r.servingId;
      area := r.area;
      advance := if r.advance.Some? then r.advance.value else 0;
      rfcn := r.rfcn;
    }

    // Fetches a fresh report, unless the modem is not there or does not answer in time, and copies the table.
    method GetCellInformation(ready: bool, answer: Option<Report>, n: Network, out: array<HalCell>)
      returns (ok: bool, total: nat)
      requires Valid() && out.Length >= MAX_CELLS
      modifies this, out
      ensures Valid() && (cells == old(cells) || fresh(cells))
      ensures View() == if ready && answer.Some? then Taken(old(View()), answer.value) else old(View())
      ensures ok <==> ready && answer.Some?
      ensures total <= out.Length
      ensures if ok then out[..total] == ShownAll(View(), n) else total == 0 && out[..] == old(out[..])
    {
      total := 0;
      if !ready || answer.None? {
        return false, 0;
      }
      Parse(answer.value);
      total := count;
      for i := 0 to total
        invariant Valid() && View() == Taken(old(View()), answer.value) && (cells == old(cells) || fresh(cells))
        invariant forall k :: 0 <= k < i ==> out[k] == Shown(View(), cells[k], n)
      {
        var c := cells[i];
        var cell := HalCell(c.id, c.rfcn, c.rsrp, c.rsrq, c.rssi, n.rat, c.id == servingId && c.rfcn == rfcn,
                            0, 0, 0, 0, 0, "");
        if cell.serving {
          cell := cell.(globalId := globalId, area := area, advance := advance, mcc := n.mcc, mnc := n.mnc,
                        operator := n.operator);
        }
        out[i] := cell;
      }
      ok := true;
    }
  }

  lemma GroupsOnward(groups: seq<Group>, i: nat)
    requires i < |groups|
    ensures Flattened(groups[..i + 1]) == Flattened(groups[..i]) + StoredAll(GroupCells(groups[i]), groups[i].rfcn)
  {
    assert groups[..i + 1][..i] == groups[..i];
  }

  lemma GroupFits(before: seq<Cell>, groups: seq<Group>, i: nat, room: nat)
    requires i < |groups|
    ensures var more := StoredAll(GroupCells(groups[i]), groups[i].rfcn);
            Fitting(Fitting(before + Flattened(groups[..i]), room) + more, room) ==
            Fitting(before + Flattened(groups[..i + 1]), room)
  {
    var done, more := before + Flattened(groups[..i]), StoredAll(GroupCells(groups[i]), groups[i].rfcn);
    FittingMore(done, more, room);
    GroupsOnward(groups, i);
    assert done + more == before + Flattened(groups[..i + 1]);
  }

  // Once the room is used up, or the groups are, the rest does not matter.
  lemma {:induction false} GroupsFit(before: seq<Cell>, groups: seq<Group>, i: nat, room: nat)
    requires i <= |groups| && (i == |groups| || |before + Flattened(groups[..i])| >= room)
    ensures Fitting(before + Flattened(groups), room) == Fitting(before + Flattened(groups[..i]), room)
    decreases |groups|
  {
    if i < |groups| {
      var front, last := groups[..|groups| - 1], groups[|groups| - 1];
      assert front[..i] == groups[..i];
      GroupsFit(before, front, i, room);
      var more := StoredAll(GroupCells(last), last.rfcn);
      FittingMore(before + Flattened(front), more, room);
      assert before + Flattened(groups) == before + Flattened(front) + more;
    } else {
      assert groups[..i] == groups;
    }
  }

  // ---- the manager's cache ----

  datatype Call = Cached | Fetch(result: Option<seq<HalCell>>)   // None: the fetch failed

  function Remembered(cache: seq<HalCell>, c: Call): seq<HalCell> {
    match c
    case Cached => cache
    case Fetch(Some(s)) => s
    case Fetch(None) => []
  }

  function AfterCalls(calls: seq<Call>): seq<HalCell> {
    if calls == [] then [] else Remembered(AfterCalls(calls[..|calls| - 1]), calls[|calls| - 1])
  }

  // After any calls the cache holds what the last fetch brought: nothing if it failed or there was none.
  lemma {:induction false} CacheIsLastFetch(calls: seq<Call>, k: nat)
    requires k <= |calls|
    requires forall i :: k <= i < |calls| ==> calls[i].Cached?
    ensures AfterCalls(calls) == if k == 0 || calls[k - 1].Cached? then AfterCalls(calls[..k])
                                 else if calls[k - 1].result.Some? then calls[k - 1].result.value else []
  {
    if k < |calls| {
      CacheIsLastFetch(calls[..|calls| - 1], k);
      assert calls[..|calls| - 1][..k] == calls[..k];
    } else {
      assert calls[..k] == calls;
    }
  }

  const BLANK := HalCell(0, 0, 0, 0, 0, "", false, 0, 0, 0, 0, 0, "")

  class Manager {
    var cellInfo: array<HalCell>
    var totalCount: nat

    ghost predicate Valid()
      reads this
    {
      cellInfo.Length == MAX_CELLS && totalCount <= MAX_CELLS
    }

    ghost function View(): seq<HalCell>
      requires Valid()
      reads this, cellInfo
    {
      cellInfo[..totalCount]
    }

    // The cells, from the cache or from a new fetch; the fetch wipes the cache if it fails.
    method GetCellInformation(cached: bool, nas: NasContext, ready: bool, answer: Option<Report>, n: Network)
      returns (ok: bool, result: array<HalCell>)
      requires Valid() && nas.Valid()
      modifies this, cellInfo, nas
      ensures Valid() && nas.Valid() && cellInfo == old(cellInfo) && fresh(result)
      ensures cached ==> nas.View() == old(nas.View())
      ensures !cached ==> nas.View() == if ready && answer.Some? then Taken(old(nas.View()), answer.value) else old(nas.View())
      ensures View() == if cached then old(View()) else if ready && answer.Some? then ShownAll(nas.View(), n) else []
      ensures ok <==> cached || (ready && answer.Some?)
      ensures result[..] == View()
    {
      ok := true;
      if !cached {
        var previous := totalCount;
        var fetched, total := nas.GetCellInformation(ready, answer, n, cellInfo);
        totalCount := total;
        if !fetched {
          for i := 0 to previous
            invariant totalCount == 0 && cellInfo == old(cellInfo) && nas.Valid() && nas.View() == old(nas.View())
          {
            cellInfo[i] := BLANK;
          }
          result := new HalCell[0];
          return false, result;
        }
      }
      result := new HalCell[totalCount](_ => BLANK);
      for i := 0 to totalCount
        invariant Valid() && nas.Valid() && cellInfo == old(cellInfo) && result.Length == totalCount
        invariant result[..i] == cellInfo[..i]
        modifies result
      {
        result[i] := cellInfo[i];
      }
    }
  }
}
