/**
 * The beacon table of rssi_table.h. The header states the algorithm and gives no code, so the class below is
 * an implementation of that stated contract: in-place updates of a fixed array, and a report that rotates
 * through the present beacons, least recently reported first.
 */
module BeaconTable {
  import opened Common
  import opened Rotation

  const MAX_ENTRIES := 16

  type Mac = a: seq<u8> | |a| == 6 witness Zeros(6)

  datatype Entry = Entry(
    addr: Mac, rssi: int, samples: u8, distance: int, valid: bool, seen: bool, last: nat)

  const EMPTY := Entry(Zeros(6), 0, 0, 0, false, false, 0)

  type Table = t: seq<Entry> | |t| == MAX_ENTRIES witness seq(MAX_ENTRIES, i => EMPTY)

  // ---- update ----

  predicate KnownAt(t: Table, k: int, addr: Mac) {
    0 <= k < MAX_ENTRIES && t[k].valid && t[k].addr == addr
  }

  predicate Known(t: Table, addr: Mac) {
    exists k :: 0 <= k < MAX_ENTRIES && KnownAt(t, k, addr)
  }

  predicate FreeAt(t: Table, k: int) {
    0 <= k < MAX_ENTRIES && !t[k].valid
  }

  predicate HasFree(t: Table) {
    exists k :: 0 <= k < MAX_ENTRIES && FreeAt(t, k)
  }

  /** The beacon's own slot, else a free one, else the one reported longest ago. */
  predicate SlotFor(t: Table, addr: Mac, k: int) {
    && 0 <= k < MAX_ENTRIES
    && (if Known(t, addr) then KnownAt(t, k, addr)
        else if HasFree(t) then FreeAt(t, k)
        else forall j :: 0 <= j < MAX_ENTRIES ==> t[k].last <= t[j].last)
  }

  function Refreshed(e: Entry, rssi: int, distance: int): Entry {
    e.(rssi := rssi, samples := (e.samples + 1) % 256, distance := distance, seen := true)
  }

  function Updated(t: Table, k: nat, addr: Mac, rssi: int, distance: int): Table
    requires k < MAX_ENTRIES
  {
    t[k := if KnownAt(t, k, addr) then Refreshed(t[k], rssi, distance)
           else Entry(addr, rssi, 1, distance, true, true, 0)]
  }

  predicate Distinct(t: Table) {
    forall i, j :: 0 <= i < j < MAX_ENTRIES && t[i].valid && t[j].valid ==> t[i].addr != t[j].addr
  }

  // ---- collection ----

  function Present(t: Table): set<nat> {
    set i: nat | i < MAX_ENTRIES && t[i].valid && t[i].seen
  }

  function Valid(t: Table): set<nat> {
    set i: nat | i < MAX_ENTRIES && t[i].valid
  }

  /** `i` is reported before `j`: not reported for longer, or equally long and stronger (or as strong). */
  predicate Before(t: Table, i: nat, j: nat) {
    i < MAX_ENTRIES && j < MAX_ENTRIES
    && (t[i].last < t[j].last || (t[i].last == t[j].last && t[i].rssi >= t[j].rssi))
  }

  /** A selection the contract allows: as many present beacons as fit, none behind an unselected one. */
  ghost predicate IsSelection(t: Table, chosen: set<nat>, maxSend: int) {
    && chosen <= Present(t)
    && |chosen| == Min(|Present(t)|, Max(maxSend, 0))
    && (forall i, j :: i in chosen && j in Present(t) - chosen ==> Before(t, i, j))
  }

  function CollectedEntry(e: Entry, chosen: bool, tick: nat): Entry {
    if e.valid && e.seen then e.(seen := false, last := if chosen then tick else e.last)
    else e.(valid := false)
  }

  function Collected(t: Table, chosen: set<nat>, tick: nat): Table {
    seq(MAX_ENTRIES, i requires 0 <= i < MAX_ENTRIES => CollectedEntry(t[i], i in chosen, tick))
  }

  /** The picked were seen; nobody seen and left out was reported longer ago, or equally long ago and is stronger. */
  ghost predicate LongestUnreported(t: Table, picked: seq<nat>) {
    && (forall i :: i in picked ==> i < MAX_ENTRIES && t[i].valid && t[i].seen)
    && (forall i, j :: i in picked && i < MAX_ENTRIES && 0 <= j < MAX_ENTRIES && j !in picked && t[j].valid && t[j].seen
          ==> t[i].last < t[j].last || (t[i].last == t[j].last && t[i].rssi >= t[j].rssi))
  }

  /** Who was seen stays, unmarked, with a new stamp if picked; who was not seen goes; nothing else changes. */
  ghost predicate KeptAndStamped(t: Table, u: Table, picked: seq<nat>, tick: nat) {
    forall i :: 0 <= i < MAX_ENTRIES ==>
      u[i] == if t[i].valid && t[i].seen then t[i].(seen := false, last := if i in picked then tick else t[i].last)
              else t[i].(valid := false)
  }

  function ValidEntries(t: seq<Entry>): seq<Entry> {
    if t == [] then [] else
      ValidEntries(t[..|t| - 1]) + if t[|t| - 1].valid then [t[|t| - 1]] else []
  }

  predicate NoDuplicates(s: seq<nat>) {
    forall i, j :: 0 <= i < j < |s| ==> s[i] != s[j]
  }

  function ToSet(s: seq<nat>): set<nat> {
    set x | x in s
  }

  lemma {:induction false} DistinctSize(s: seq<nat>)
    requires NoDuplicates(s)
    ensures |ToSet(s)| == |s|
  {
    if s != [] {
      var n := |s| - 1;
      DistinctSize(s[..n]);
      assert s == s[..n] + [s[n]];
      assert ToSet(s) == ToSet(s[..n]) + {s[n]};
      assert s[n] !in s[..n];
    }
  }

  class Beacons {
    const table: array<Entry>
    var tick: nat
    const distanceOf: (int, int) -> int

    ghost predicate Ok()
      reads this
    {
      table.Length == MAX_ENTRIES && tick < TICK_LIMIT
    }

    function Entries(): Table
      requires table.Length == MAX_ENTRIES
      reads table
    {
      table[..]
    }

    constructor (distanceOf: (int, int) -> int)
      ensures Ok() && fresh(table) && tick == 0 && this.distanceOf == distanceOf
      ensures Entries() == seq(16, i => Entry(Zeros(6), 0, 0, 0, false, false, 0))
    {
      table := new Entry[MAX_ENTRIES](i => EMPTY);
      tick := 0;
      this.distanceOf := distanceOf;
    }

    method Clear()
      requires Ok()
      modifies table
      ensures Entries() == seq(16, i => Entry(Zeros(6), 0, 0, 0, false, false, 0))
    {
      var i := 0;
      while i < MAX_ENTRIES
        invariant 0 <= i <= MAX_ENTRIES
        invariant forall k :: 0 <= k < i ==> table[k] == EMPTY
      {
        table[i] := EMPTY;
        i := i + 1;
      }
    }

    method FindSlot(addr: Mac) returns (k: nat)
      requires Ok()
      ensures SlotFor(Entries(), addr, k)
    {
      var i, free, oldest := 0, -1, 0;
      while i < MAX_ENTRIES
        invariant 0 <= i <= MAX_ENTRIES && 0 <= oldest < MAX_ENTRIES
        invariant forall j :: 0 <= j < i ==> !KnownAt(Entries(), j, addr)
        invariant free == -1 ==> forall j :: 0 <= j < i ==> !FreeAt(Entries(), j)
        invariant free != -1 ==> FreeAt(Entries(), free)
        invariant forall j :: 0 <= j < i ==> table[oldest].last <= table[j].last
      {
        if table[i].valid && table[i].addr == addr {
          assert KnownAt(Entries(), i, addr);
          return i;
        }
        if !table[i].valid && free == -1 {
          free := i;
        }
        if table[i].last < table[oldest].last {
          oldest := i;
        }
        i := i + 1;
      }
      k := if free != -1 then free else oldest;
    }

    method Update(addr: Mac, rssi: int, measuredPower: int) returns (k: nat)
      requires Ok()
      modifies table
      ensures SlotFor(old(Entries()), addr, k)
      ensures Entries() == Updated(old(Entries()), k, addr, rssi, distanceOf(rssi, measuredPower))
      ensures table[k].addr == addr && table[k].valid && table[k].seen
      ensures table[k].rssi == rssi && table[k].distance == distanceOf(rssi, measuredPower)
      ensures Known(old(Entries()), addr) ==>
                table[k].samples == (old(table[k].samples) + 1) % 256 && table[k].last == old(table[k].last)
      ensures !Known(old(Entries()), addr) ==> table[k].samples == 1 && table[k].last == 0
      ensures forall j :: 0 <= j < MAX_ENTRIES && j != k ==> table[j] == old(table[j])
    {
      k := FindSlot(addr);
      var d := distanceOf(rssi, measuredPower);
      if table[k].valid && table[k].addr == addr {
        table[k] := table[k].(rssi := rssi, samples := (table[k].samples + 1) % 256, distance := d, seen := true);
      } else {
        table[k] := Entry(addr, rssi, 1, d, true, true, 0);
      }
    }

    /** `slots` are the slots copied: the lowest ones in use, in table order, as many as fit. */
    method Snapshot(max: int) returns (out: seq<Entry>, ghost slots: seq<nat>)
      requires Ok()
      ensures out == ValidEntries(Entries())[..Min(|ValidEntries(Entries())|, Max(max, 0))]
      ensures |out| == |slots| == Min(|Valid(Entries())|, Max(max, 0))
      ensures forall n :: 0 <= n < |out| ==>
                slots[n] < MAX_ENTRIES && out[n] == table[slots[n]] && table[slots[n]].valid
      ensures forall m, n :: 0 <= m < n < |slots| ==> slots[m] < slots[n]
      ensures forall i, n :: i in Valid(Entries()) && i !in slots && 0 <= n < |slots| ==> slots[n] < i
    {
      out := [];
      var i := 0;
      assert table[..0] == [];
      while i < MAX_ENTRIES && |out| < max
        invariant 0 <= i <= MAX_ENTRIES && |out| <= Max(max, 0)
        invariant out == ValidEntries(table[..i])
      {
        assert table[..i + 1][..i] == table[..i];
        if table[i].valid {
          out := out + [table[i]];
        }
        i := i + 1;
      }
      assert table[..MAX_ENTRIES] == table[..];
      ValidEntriesPrefix(table[..], i);
      slots := ValidSlots(table[..]);
      ValidSlotsSize(table[..], slots);
      slots := slots[..|out|];
    }

    /** Pass one: the beacons of this period stay and lose their mark, the others go. */
    method KeepSeen() returns (total: nat)
      requires Ok()
      modifies table
      ensures Entries() == Collected(old(Entries()), {}, 0)
      ensures total == |Present(old(Entries()))|
    {
      ghost var t := Entries();
      ghost var present: set<nat> := {};
      total := 0;
      var i := 0;
      while i < MAX_ENTRIES
        invariant 0 <= i <= MAX_ENTRIES
        invariant present == (set j: nat | j < i && t[j].valid && t[j].seen) && total == |present|
        invariant forall j :: 0 <= j < i ==> table[j] == CollectedEntry(t[j], false, 0)
        invariant forall j :: i <= j < MAX_ENTRIES ==> table[j] == t[j]
      {
        if table[i].valid && table[i].seen {
          table[i] := table[i].(seen := false);
          present := present + {i};
          total := total + 1;
        } else {
          table[i] := table[i].(valid := false);
        }
        i := i + 1;
      }
      assert present == Present(t);
    }

    /** The unpicked valid entry that goes first. */
    method Best(picked: seq<nat>) returns (b: nat)
      requires Ok() && exists i :: i in Valid(Entries()) && i !in picked
      ensures b in Valid(Entries()) && b !in picked
      ensures forall j :: j in Valid(Entries()) && j !in picked ==> Before(Entries(), b, j)
    {
      var i, found := 0, false;
      b := 0;
      while i < MAX_ENTRIES
        invariant 0 <= i <= MAX_ENTRIES && b < MAX_ENTRIES
        invariant found ==> b in Valid(Entries()) && b !in picked
        invariant forall j :: 0 <= j < i && j in Valid(Entries()) && j !in picked ==> found && Before(Entries(), b, j)
      {
        if table[i].valid && i !in picked {
          if !found || table[i].last < table[b].last
             || (table[i].last == table[b].last && table[i].rssi > table[b].rssi) {
            b, found := i, true;
          }
        }
        i := i + 1;
      }
    }

    /** Pass two: the first `n` valid entries in report order. */
    method Pick(n: nat) returns (picked: seq<nat>)
      requires Ok() && n <= |Valid(Entries())|
      ensures |picked| == n && NoDuplicates(picked) && ToSet(picked) <= Valid(Entries())
      ensures forall i, j :: i in picked && j in Valid(Entries()) && j !in picked ==> Before(Entries(), i, j)
    {
      picked := [];
      while |picked| < n
        invariant |picked| <= n && NoDuplicates(picked) && ToSet(picked) <= Valid(Entries())
        invariant forall i, j :: i in picked && j in Valid(Entries()) && j !in picked ==> Before(Entries(), i, j)
      {
        SomeUnpicked(Valid(Entries()), picked);
        var b := Best(picked);
        picked := picked + [b];
      }
    }

    /** Pass three: the picked entries are stamped and copied out. */
    method Stamp(picked: seq<nat>) returns (out: seq<Entry>)
      requires Ok() && NoDuplicates(picked) && ToSet(picked) <= Valid(Entries())
      modifies table
      ensures forall i :: 0 <= i < MAX_ENTRIES ==>
                table[i] == if i in picked then old(table[i]).(last := tick) else old(table[i])
      ensures |out| == |picked|
      ensures forall n :: 0 <= n < |picked| ==> picked[n] < MAX_ENTRIES && out[n] == table[picked[n]]
    {
      out := [];
      var n := 0;
      while n < |picked|
        invariant 0 <= n <= |picked| == |out| + (|picked| - n)
        invariant forall i :: 0 <= i < MAX_ENTRIES ==>
                    table[i] == if i in picked[..n] then old(table[i]).(last := tick) else old(table[i])
        invariant forall m :: 0 <= m < n ==> picked[m] < MAX_ENTRIES && out[m] == table[picked[m]]
      {
        var k := picked[n];
        assert k in ToSet(picked);
        assert k !in picked[..n];
        assert picked[..n + 1] == picked[..n] + [k];
        table[k] := table[k].(last := tick);
        out := out + [table[k]];
        n := n + 1;
      }
      assert picked[..n] == picked;
    }

    method CollectForReport(maxSend: int) returns (out: seq<Entry>, total: nat, picked: seq<nat>)
      requires Ok()
      modifies this`tick, table
      ensures Ok() && tick == NextTick(old(tick))
      ensures total == |Present(old(Entries()))|
      ensures NoDuplicates(picked) && IsSelection(old(Entries()), ToSet(picked), maxSend)
      ensures Entries() == Collected(old(Entries()), ToSet(picked), tick)
      ensures |out| == |picked| == Min(total, Max(maxSend, 0))
      ensures forall n :: 0 <= n < |out| ==> picked[n] < MAX_ENTRIES && out[n] == Entries()[picked[n]]
      ensures LongestUnreported(old(Entries()), picked)
      ensures KeptAndStamped(old(Entries()), Entries(), picked, tick)
    {
      ghost var t := Entries();
      tick := NextTick(tick);
      total := KeepSeen();
      ghost var u := Entries();
      KeptAreSeen(t);
      picked := Pick(Min(total, Max(maxSend, 0)));
      PickedIsSelection(t, picked, maxSend);
      SelectionFields(t, picked, maxSend);
      out := Stamp(picked);
      CollectedFields(t, Entries(), picked, tick);
    }
  }

  lemma KeptAreSeen(t: Table)
    ensures Valid(Collected(t, {}, 0)) == Present(t)
  {
  }

  lemma PickedIsSelection(t: Table, picked: seq<nat>, maxSend: int)
    requires NoDuplicates(picked) && |picked| == Min(|Present(t)|, Max(maxSend, 0)) && ToSet(picked) <= Present(t)
    requires forall i, j :: i in picked && j in Present(t) && j !in picked ==> Before(Collected(t, {}, 0), i, j)
    ensures IsSelection(t, ToSet(picked), maxSend)
  {
    DistinctSize(picked);
    forall i, j | i in ToSet(picked) && j in Present(t) - ToSet(picked)
      ensures Before(t, i, j)
    {
      assert Before(Collected(t, {}, 0), i, j);
    }
  }

  lemma SelectionFields(t: Table, picked: seq<nat>, maxSend: int)
    requires IsSelection(t, ToSet(picked), maxSend)
    ensures LongestUnreported(t, picked)
  {
    forall i | i in picked
      ensures i in Present(t)
    {
      assert i in ToSet(picked);
    }
    forall i, j | i in picked && j in Present(t) && j !in picked
      ensures Before(t, i, j)
    {
      assert i in ToSet(picked) && j in Present(t) - ToSet(picked);
    }
  }

  lemma CollectedFields(t: Table, u: Table, picked: seq<nat>, tick: nat)
    requires u == Collected(t, ToSet(picked), tick)
    ensures KeptAndStamped(t, u, picked, tick)
  {
  }

  lemma SomeUnpicked(valid: set<nat>, picked: seq<nat>)
    requires NoDuplicates(picked) && |picked| < |valid|
    ensures exists i :: i in valid && i !in picked
  {
    DistinctSize(picked);
    if forall i :: i in valid ==> i in picked {
      assert valid <= ToSet(picked);
      SubsetSize(valid, ToSet(picked));
    }
  }

  /** The slots in use behind `ValidEntries`, in table order. */
  lemma {:induction false} ValidSlots(t: seq<Entry>) returns (slots: seq<nat>)
    ensures |slots| == |ValidEntries(t)|
    ensures forall n :: 0 <= n < |slots| ==> slots[n] < |t| && t[slots[n]].valid && ValidEntries(t)[n] == t[slots[n]]
    ensures forall m, n :: 0 <= m < n < |slots| ==> slots[m] < slots[n]
    ensures forall i :: 0 <= i < |t| && t[i].valid ==> i in slots
  {
    slots := [];
    if t != [] {
      var k := |t| - 1;
      slots := ValidSlots(t[..k]);
      if t[k].valid {
        slots := slots + [k];
      }
      forall i | 0 <= i < |t| && t[i].valid
        ensures i in slots
      {
        if i < k {
          assert t[..k][i].valid;
        }
      }
    }
  }

  lemma ValidSlotsSize(t: Table, slots: seq<nat>)
    requires forall m, n :: 0 <= m < n < |slots| ==> slots[m] < slots[n]
    requires forall n :: 0 <= n < |slots| ==> slots[n] < MAX_ENTRIES && t[slots[n]].valid
    requires forall i :: 0 <= i < MAX_ENTRIES && t[i].valid ==> i in slots
    ensures |slots| == |Valid(t)|
  {
    DistinctSize(slots);
    assert ToSet(slots) == Valid(t);
  }

  lemma {:induction false} ValidEntriesPrefix(t: seq<Entry>, i: nat)
    requires i <= |t|
    ensures ValidEntries(t[..i]) <= ValidEntries(t)
    decreases |t| - i
  {
    if i == |t| {
      assert t[..i] == t;
    } else {
      ValidEntriesPrefix(t, i + 1);
      assert t[..i + 1][..i] == t[..i];
    }
  }
}
