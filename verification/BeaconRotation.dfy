/** What the beacon table keeps over every sequence of calls, and how fair the rotation of its reports is. */
module BeaconRotation {
  import opened Common
  import opened BeaconTable
  import opened Rotation

  // ---- what every call keeps ----

  datatype Call =
    | Update(k: nat, addr: Mac, rssi: int, distance: int)
    | Collect(chosen: set<nat>, maxSend: int, tick: nat)

  ghost predicate Allowed(t: Table, c: Call) {
    match c
    case Update(k, addr, _, _) => SlotFor(t, addr, k)
    case Collect(chosen, maxSend, _) => IsSelection(t, chosen, maxSend)
  }

  function After(t: Table, c: Call): Table
    requires c.Update? ==> c.k < MAX_ENTRIES
  {
    match c
    case Update(k, addr, rssi, distance) => Updated(t, k, addr, rssi, distance)
    case Collect(chosen, _, tick) => Collected(t, chosen, tick)
  }

  ghost predicate Runs(t: Table, cs: seq<Call>)
    decreases |cs|
  {
    cs == [] || (Allowed(t, cs[0]) && Runs(After(t, cs[0]), cs[1..]))
  }

  function Exec(t: Table, cs: seq<Call>): Table
    requires forall c :: c in cs && c.Update? ==> c.k < MAX_ENTRIES
    decreases |cs|
  {
    if cs == [] then t else Exec(After(t, cs[0]), cs[1..])
  }

  lemma UpdateKeepsDistinct(t: Table, k: nat, addr: Mac, rssi: int, distance: int)
    requires Distinct(t) && SlotFor(t, addr, k)
    ensures Distinct(Updated(t, k, addr, rssi, distance))
    ensures KnownAt(Updated(t, k, addr, rssi, distance), k, addr)
  {
    var u := Updated(t, k, addr, rssi, distance);
    forall i, j | 0 <= i < j < MAX_ENTRIES && u[i].valid && u[j].valid
      ensures u[i].addr != u[j].addr
    {
      assert t[i].valid && t[i].addr == addr ==> KnownAt(t, i, addr);
      assert t[j].valid && t[j].addr == addr ==> KnownAt(t, j, addr);
    }
  }

  /** Addresses of valid entries stay distinct under any sequence of updates and collections. */
  lemma {:induction false} AddressesStayDistinct(t: Table, cs: seq<Call>)
    requires Distinct(t) && Runs(t, cs) && forall c :: c in cs && c.Update? ==> c.k < MAX_ENTRIES
    ensures Distinct(Exec(t, cs))
    decreases |cs|
  {
    if cs != [] {
      var c := cs[0];
      if c.Update? {
        UpdateKeepsDistinct(t, c.k, c.addr, c.rssi, c.distance);
      }
      AddressesStayDistinct(After(t, c), cs[1..]);
    }
  }

  /**
   * An update leaves its beacon known and seen with the new strength, in the slot it had if it had one and
   * with its stamp unchanged. Another known beacon stays known, unless the table was full, the beacon new, and
   * the other one sat in the evicted slot, which no entry was reported before.
   */
  lemma UpdateTouchesOneBeacon(t: Table, k: nat, addr: Mac, rssi: int, distance: int, other: Mac)
    requires Distinct(t) && SlotFor(t, addr, k) && other != addr && Known(t, other)
    ensures var u := Updated(t, k, addr, rssi, distance);
            && KnownAt(u, k, addr) && u[k].rssi == rssi && u[k].distance == distance && u[k].seen
            && u[k].last == (if Known(t, addr) then t[k].last else 0)
            && u[k].samples == (if Known(t, addr) then (t[k].samples + 1) % 256 else 1)
            && (forall j :: 0 <= j < MAX_ENTRIES && j != k ==> u[j] == t[j])
            && (forall j :: KnownAt(t, j, addr) ==> j == k)
    ensures Known(Updated(t, k, addr, rssi, distance), other)
            <==> Known(t, addr) || HasFree(t) || t[k].addr != other
    ensures !Known(t, addr) && !HasFree(t) ==> forall j :: 0 <= j < MAX_ENTRIES ==> t[k].last <= t[j].last
  {
    var u := Updated(t, k, addr, rssi, distance);
    var j :| 0 <= j < MAX_ENTRIES && KnownAt(t, j, other);
    if j != k {
      assert KnownAt(u, j, other);
      assert FreeAt(t, k) || t[k].addr != other;
    } else {
      forall i | 0 <= i < MAX_ENTRIES
        ensures !KnownAt(u, i, other)
      {
        assert i != k && t[i].valid ==> t[i].addr != other;
      }
    }
  }

  /** A collection keeps exactly the beacons seen this period and clears their marks. */
  lemma CollectKeepsSeen(t: Table, chosen: set<nat>, maxSend: int, tick: nat)
    requires IsSelection(t, chosen, maxSend)
    ensures Valid(Collected(t, chosen, tick)) == Present(t)
    ensures Present(Collected(t, chosen, tick)) == {}
    ensures forall i :: i in Present(t) ==>
              Collected(t, chosen, tick)[i] == t[i].(seen := false, last := if i in chosen then tick else t[i].last)
  {
  }

  // ---- rotation ----

  /** A sample of a beacon that is already in the table. */
  datatype Sample = Sample(addr: Mac, rssi: int, distance: int)

  function TouchEntry(e: Entry, s: Sample): Entry {
    if e.valid && e.addr == s.addr then Refreshed(e, s.rssi, s.distance) else e
  }

  function Touch(t: Table, s: Sample): Table {
    seq(MAX_ENTRIES, i requires 0 <= i < MAX_ENTRIES => TouchEntry(t[i], s))
  }

  function TouchAll(t: Table, ss: seq<Sample>): Table {
    if ss == [] then t else Touch(TouchAll(t, ss[..|ss| - 1]), ss[|ss| - 1])
  }

  /** For a known beacon `Touch` is what `Updated` does, in whichever slot the search ends. */
  lemma TouchIsUpdate(t: Table, k: nat, s: Sample)
    requires Distinct(t) && Known(t, s.addr) && SlotFor(t, s.addr, k)
    ensures Touch(t, s) == Updated(t, k, s.addr, s.rssi, s.distance)
  {
  }

  predicate Sampled(ss: seq<Sample>, addr: Mac) {
    exists n :: 0 <= n < |ss| && ss[n].addr == addr
  }

  lemma {:induction false} TouchAllKeeps(t: Table, ss: seq<Sample>, i: nat)
    requires i < MAX_ENTRIES
    ensures TouchAll(t, ss)[i].valid == t[i].valid && TouchAll(t, ss)[i].addr == t[i].addr
    ensures TouchAll(t, ss)[i].last == t[i].last
    ensures t[i].valid && Sampled(ss, t[i].addr) ==> TouchAll(t, ss)[i].seen
  {
    if ss != [] {
      var init := ss[..|ss| - 1];
      TouchAllKeeps(t, init, i);
      if t[i].valid && Sampled(ss, t[i].addr) && ss[|ss| - 1].addr != t[i].addr {
        var n :| 0 <= n < |ss| && ss[n].addr == t[i].addr;
        assert init[n].addr == t[i].addr;
      }
    }
  }

  function SamplesOf(ss: seq<Sample>, addr: Mac): nat {
    if ss == [] then 0 else SamplesOf(ss[..|ss| - 1], addr) + if ss[|ss| - 1].addr == addr then 1 else 0
  }

  function LastSample(ss: seq<Sample>, addr: Mac): Option<Sample> {
    if ss == [] then None
    else if ss[|ss| - 1].addr == addr then Some(ss[|ss| - 1])
    else LastSample(ss[..|ss| - 1], addr)
  }

  /** After any samples an entry holds the strength and distance of its last one, and counts them modulo 256. */
  lemma {:induction false} TouchAllCounts(t: Table, ss: seq<Sample>, i: nat)
    requires i < MAX_ENTRIES && t[i].valid
    ensures var e := TouchAll(t, ss)[i];
            && e.samples == (t[i].samples + SamplesOf(ss, t[i].addr)) % 256
            && (e.rssi, e.distance) == match LastSample(ss, t[i].addr)
                                       case None => (t[i].rssi, t[i].distance)
                                       case Some(s) => (s.rssi, s.distance)
  {
    if ss != [] {
      var init := ss[..|ss| - 1];
      TouchAllCounts(t, init, i);
      TouchAllKeeps(t, init, i);
      CountUp(t[i].samples, SamplesOf(init, t[i].addr));
    }
  }

  lemma CountUp(a: nat, n: nat)
    ensures ((a + n) % 256 + 1) % 256 == (a + n + 1) % 256
  {
  }

  /** One report period: the samples that came in, and the entries the collection then chose. */
  datatype Period = Period(samples: seq<Sample>, chosen: set<nat>)

  /** Every beacon of the table is sampled at least once in the period, and no other beacon is. */
  ghost predicate StaysPresent(t: Table, p: Period) {
    && (forall i :: i in Valid(t) ==> Sampled(p.samples, t[i].addr))
    && (forall n :: 0 <= n < |p.samples| ==> Known(t, p.samples[n].addr))
  }

  function AfterPeriod(t: Table, p: Period, tick: nat): Table {
    Collected(TouchAll(t, p.samples), p.chosen, tick)
  }

  /** Consecutive periods with reports of at most `k`, the first one stamped `tick`. */
  ghost predicate Plays(t: Table, tick: nat, ps: seq<Period>, k: nat)
    decreases |ps|
  {
    ps == [] || (
      && StaysPresent(t, ps[0])
      && IsSelection(TouchAll(t, ps[0].samples), ps[0].chosen, k)
      && Plays(AfterPeriod(t, ps[0], tick), NextTick(tick), ps[1..], k))
  }

  function Reports(ps: seq<Period>): seq<set<nat>> {
    if ps == [] then [] else [ps[0].chosen] + Reports(ps[1..])
  }

  /** The slots reported at least once. */
  function Reported(ps: seq<Period>): set<nat> {
    Served(Reports(ps))
  }

  function StampsOf(t: Table): (m: Stamps)
    ensures m.Keys == Valid(t)
  {
    map i | i in Valid(t) :: t[i].last
  }

  lemma SamplesMarkAll(t: Table, p: Period)
    requires StaysPresent(t, p)
    ensures Present(TouchAll(t, p.samples)) == Valid(t)
    ensures StampsOf(TouchAll(t, p.samples)) == StampsOf(t)
  {
    var u := TouchAll(t, p.samples);
    forall i: nat | i < MAX_ENTRIES
      ensures u[i].valid == t[i].valid && u[i].last == t[i].last
      ensures i in Valid(t) ==> u[i].seen
    {
      TouchAllKeeps(t, p.samples, i);
    }
  }

  lemma SelectionIsOldestFirst(u: Table, chosen: set<nat>, k: nat)
    requires IsSelection(u, chosen, k) && Present(u) == Valid(u)
    ensures OldestFirst(StampsOf(u), chosen, k)
  {
  }

  lemma CollectStamps(u: Table, chosen: set<nat>, k: nat, tick: nat)
    requires IsSelection(u, chosen, k) && Present(u) == Valid(u)
    ensures StampsOf(Collected(u, chosen, tick)) == Stamp(StampsOf(u), chosen, tick)
  {
  }

  /** To the stamps, a report period is one step of the rotation, whatever the signal strengths were. */
  lemma PeriodRotates(t: Table, p: Period, tick: nat, k: nat)
    requires StaysPresent(t, p) && IsSelection(TouchAll(t, p.samples), p.chosen, k)
    ensures OldestFirst(StampsOf(t), p.chosen, k)
    ensures StampsOf(AfterPeriod(t, p, tick)) == Stamp(StampsOf(t), p.chosen, tick)
  {
    var u := TouchAll(t, p.samples);
    SamplesMarkAll(t, p);
    assert Valid(u) == StampsOf(u).Keys == Valid(t);
    SelectionIsOldestFirst(u, p.chosen, k);
    CollectStamps(u, p.chosen, k, tick);
  }

  lemma {:induction false} PlaysRotate(t: Table, tick: nat, ps: seq<Period>, k: nat)
    requires Plays(t, tick, ps, k)
    ensures Rotates(StampsOf(t), tick, Reports(ps), k) && |Reports(ps)| == |ps|
    decreases |ps|
  {
    if ps != [] {
      PeriodRotates(t, ps[0], tick, k);
      PlaysRotate(AfterPeriod(t, ps[0], tick), NextTick(tick), ps[1..], k);
      assert Reports(ps)[1..] == Reports(ps[1..]);
    }
  }

  lemma FairByPlaces(t: Table, tick: nat, ps: seq<Period>, k: nat)
    requires Plays(t, tick, ps, k) && Aged(StampsOf(t), tick) && tick < TICK_LIMIT && |ps| <= TICK_LIMIT
    requires FewBehind(StampsOf(t), tick, |ps|, k)
    ensures Valid(t) <= Reported(ps) <==> Places(InOrder(|ps|, tick), k) >= |Valid(t)|
  {
    PlaysRotate(t, tick, ps, k);
    FairIff(StampsOf(t), tick, Reports(ps), k);
  }

  /**
   * Rotation fairness: while the same beacons stay present, all of them are reported within a run of periods
   * exactly when the periods offer at least as many places as there are beacons, however the signal strengths
   * change. If the 32-bit tick wraps within the run, periods after the first one past the wrap do not count.
   */
  lemma RotationIsFair(t: Table, tick: nat, ps: seq<Period>, k: nat)
    requires Plays(t, tick, ps, k) && Aged(StampsOf(t), tick) && tick < TICK_LIMIT && |ps| <= TICK_LIMIT
    requires FewBehind(StampsOf(t), tick, |ps|, k)
    ensures Valid(t) <= Reported(ps) <==> InOrder(|ps|, tick) * k >= |Valid(t)|
  {
    PlacesIsProduct(InOrder(|ps|, tick), k);
    FairByPlaces(t, tick, ps, k);
  }

  /** The same without a wrap within the run: every collection counts, whatever stamps the beacons carry. */
  lemma RotationIsFairUnwrapped(t: Table, tick: nat, ps: seq<Period>, k: nat)
    requires Plays(t, tick, ps, k) && Aged(StampsOf(t), tick) && tick < TICK_LIMIT && tick + |ps| <= TICK_LIMIT
    ensures Valid(t) <= Reported(ps) <==> |ps| * k >= |Valid(t)|
  {
    NoWrapFewBehind(StampsOf(t), tick, |ps|, k);
    RotationIsFair(t, tick, ps, k);
  }

  /** n beacons, k per report: ceil(n / k) consecutive collections suffice unless more than one is past the wrap. */
  lemma CeilingSuffices(t: Table, tick: nat, ps: seq<Period>, k: nat)
    requires Plays(t, tick, ps, k) && Aged(StampsOf(t), tick) && tick < TICK_LIMIT && k > 0
    ensures InOrder(|ps|, tick) >= Ceil(|Valid(t)|, k) ==> Valid(t) <= Reported(ps)
  {
    if InOrder(|ps|, tick) >= Ceil(|Valid(t)|, k) {
      PlaysRotate(t, tick, ps, k);
      CeilingPlaces(|Valid(t)|, InOrder(|ps|, tick), k);
      PlacesSuffice(StampsOf(t), tick, Reports(ps), k);
    }
  }

  /** With four per report, four collections report a full table exactly when at most one is past the wrap. */
  lemma FullTableInFour(t: Table, tick: nat, ps: seq<Period>)
    requires Plays(t, tick, ps, 4) && Aged(StampsOf(t), tick) && tick < TICK_LIMIT && |ps| == 4
    requires FewBehind(StampsOf(t), tick, 4, 4)
    ensures tick + 3 <= TICK_LIMIT ==> Valid(t) <= Reported(ps)
    ensures |Valid(t)| <= 16 && (|Valid(t)| == 16 ==> (Valid(t) <= Reported(ps) <==> tick + 3 <= 0x1_0000_0000))
  {
    BoundedSize(Valid(t), MAX_ENTRIES);
    PlacesIsProduct(InOrder(4, tick), 4);
    FairByPlaces(t, tick, ps, 4);
  }

  lemma {:induction false} ReportsPrefix(ps: seq<Period>, n: nat)
    requires n <= |ps|
    ensures |Reports(ps)| == |ps| && Reports(ps[..n]) == Reports(ps)[..n]
  {
    if n > 0 {
      ReportsPrefix(ps[1..], n - 1);
      assert ps[..n][1..] == ps[1..][..n - 1];
    } else if ps != [] {
      ReportsPrefix(ps[1..], 0);
    }
  }

  lemma NobodyNewReported(m: Stamps, tick: nat, ps: seq<Period>, k: nat)
    requires Rotates(m, tick, Reports(ps), k) && tick < TICK_LIMIT
    requires TICK_LIMIT - tick + 1 < |ps| == |Reports(ps)| <= TICK_LIMIT && FewBehind(m, tick, |ps|, k)
    ensures Reported(ps) == Reported(ps[..TICK_LIMIT - tick + 1])
  {
    ReportsPrefix(ps, TICK_LIMIT - tick + 1);
    Rotation.NobodyNewPastWrap(m, tick, Reports(ps), k);
  }

  /** Past the wrap of the tick, no beacon is reported that was not reported by the first collection past it. */
  lemma NobodyNewPastWrap(t: Table, tick: nat, ps: seq<Period>, k: nat)
    requires Plays(t, tick, ps, k) && tick < TICK_LIMIT && TICK_LIMIT - tick + 1 < |ps| <= TICK_LIMIT
    requires FewBehind(StampsOf(t), tick, |ps|, k)
    ensures Reported(ps) == Reported(ps[..TICK_LIMIT - tick + 1])
  {
    PlaysRotate(t, tick, ps, k);
    NobodyNewReported(StampsOf(t), tick, ps, k);
  }

  /**
   * Collections stamped from zero on, over stamps they do not reach, repeat the first report: all beacons are
   * reported exactly when each report has a place for every one of them.
   */
  lemma StarvedAfterWrap(t: Table, ps: seq<Period>, k: nat)
    requires Plays(t, 0, ps, k) && 0 < |ps| <= TICK_LIMIT && |Behind(StampsOf(t), |ps|)| <= k
    ensures Reported(ps) == ps[0].chosen
    ensures Valid(t) <= Reported(ps) <==> |Valid(t)| <= k
  {
    PlaysRotate(t, 0, ps, k);
    SameAgain(StampsOf(t), Reports(ps), k);
    FairFromZeroIff(StampsOf(t), Reports(ps), k);
  }

  /** The collections of a run are stamped one after the other, the first one with the tick after `tick`. */
  predicate Counts(cs: seq<Call>, tick: nat) {
    cs == [] ||
    if cs[0].Collect? then cs[0].tick == NextTick(tick) && Counts(cs[1..], NextTick(tick)) else Counts(cs[1..], tick)
  }

  function LastTick(cs: seq<Call>, tick: nat): nat {
    if cs == [] then tick else LastTick(cs[1..], if cs[0].Collect? then NextTick(tick) else tick)
  }

  function Collections(cs: seq<Call>): nat {
    if cs == [] then 0 else (if cs[0].Collect? then 1 else 0) + Collections(cs[1..])
  }

  lemma CallKeepsAged(t: Table, c: Call, tick: nat)
    requires Allowed(t, c) && Aged(StampsOf(t), tick + 1) && (c.Collect? ==> c.tick == tick + 1)
    ensures c.Update? ==> c.k < MAX_ENTRIES
    ensures Aged(StampsOf(After(t, c)), if c.Collect? then tick + 2 else tick + 1)
  {
    var u := After(t, c);
    forall i | i in Valid(u)
      ensures StampsOf(u)[i] < if c.Collect? then tick + 2 else tick + 1
    {
      if i in Valid(t) {
        assert StampsOf(t)[i] < tick + 1;
      }
    }
  }

  /**
   * Whatever was updated, evicted and collected, and as long as the tick has not wrapped, the next tick is younger
   * than every stamp.
   */
  lemma {:induction false} StampsStayAged(t: Table, cs: seq<Call>, tick: nat)
    requires Runs(t, cs) && forall c :: c in cs && c.Update? ==> c.k < MAX_ENTRIES
    requires Aged(StampsOf(t), tick + 1) && tick < TICK_LIMIT && Counts(cs, tick)
    ensures tick + Collections(cs) < TICK_LIMIT ==>
              LastTick(cs, tick) == tick + Collections(cs) && Aged(StampsOf(Exec(t, cs)), LastTick(cs, tick) + 1)
    decreases |cs|
  {
    if cs != [] && tick + Collections(cs) < TICK_LIMIT {
      var next := if cs[0].Collect? then tick + 1 else tick;
      CallKeepsAged(t, cs[0], tick);
      StampsStayAged(After(t, cs[0]), cs[1..], next);
    }
  }

  // ---- a run across the wrap ----

  lemma {:induction false} FirstOf(t: Table, s: set<nat>) returns (x: nat)
    requires s != {} && forall i :: i in s ==> i < MAX_ENTRIES
    ensures x in s && forall j :: j in s ==> Before(t, x, j)
    decreases |s|
  {
    var a :| a in s;
    x := a;
    if s - {a} != {} {
      var b := FirstOf(t, s - {a});
      x := if Before(t, a, b) then a else b;
    }
    forall j | j in s
      ensures Before(t, x, j)
    {
      assert j == a || j in s - {a};
    }
  }

  /** Every table has a selection the contract allows. */
  lemma {:induction false} SelectionExists(t: Table, k: nat) returns (chosen: set<nat>)
    ensures IsSelection(t, chosen, k)
  {
    chosen := {};
    if k > 0 {
      chosen := SelectionExists(t, k - 1);
      var rest := Present(t) - chosen;
      assert Present(t) == chosen + rest && |Present(t)| == |chosen| + |rest|;
      if rest != {} {
        var x := FirstOf(t, rest);
        chosen := chosen + {x};
      }
    }
  }

  lemma PeriodKeeps(t: Table, p: Period, tick: nat, i: nat)
    requires StaysPresent(t, p) && i < MAX_ENTRIES
    ensures AfterPeriod(t, p, tick)[i].valid == t[i].valid
    ensures t[i].valid ==> AfterPeriod(t, p, tick)[i].addr == t[i].addr
  {
    TouchAllKeeps(t, p.samples, i);
    assert t[i].valid ==> i in Valid(t);
  }

  /** Whoever is sampled in a period can be sampled again in the next one. */
  lemma StillPresent(t: Table, p: Period, q: Period, tick: nat)
    requires StaysPresent(t, p) && q.samples == p.samples
    ensures StaysPresent(AfterPeriod(t, p, tick), q)
  {
    var v := AfterPeriod(t, p, tick);
    forall i | i in Valid(v)
      ensures Sampled(q.samples, v[i].addr)
    {
      PeriodKeeps(t, p, tick, i);
      assert i in Valid(t);
    }
    forall n | 0 <= n < |q.samples|
      ensures Known(v, q.samples[n].addr)
    {
      var k :| 0 <= k < MAX_ENTRIES && KnownAt(t, k, q.samples[n].addr);
      PeriodKeeps(t, p, tick, k);
      assert KnownAt(v, k, q.samples[n].addr);
    }
  }

  /** From every table, and for the same samples in each period, there are runs of any length. */
  lemma {:induction false} RunsExist(t: Table, tick: nat, ss: seq<Sample>, n: nat, k: nat) returns (ps: seq<Period>)
    requires StaysPresent(t, Period(ss, {}))
    ensures |ps| == n && Plays(t, tick, ps, k)
    decreases n
  {
    ps := [];
    if n > 0 {
      var chosen := SelectionExists(TouchAll(t, ss), k);
      var p := Period(ss, chosen);
      StillPresent(t, p, Period(ss, {}), tick);
      var rest := RunsExist(AfterPeriod(t, p, tick), NextTick(tick), ss, n - 1, k);
      ps := [p] + rest;
      assert ps[1..] == rest;
    }
  }

  /** Places enough for all in `n` collections, but not up to the first one past the wrap: a run misses a beacon. */
  lemma MissedAcrossWrap(t: Table, tick: nat, ss: seq<Sample>, n: nat, k: nat) returns (ps: seq<Period>)
    requires StaysPresent(t, Period(ss, {})) && Aged(StampsOf(t), tick) && tick < TICK_LIMIT && n <= TICK_LIMIT
    requires FewBehind(StampsOf(t), tick, n, k) && InOrder(n, tick) * k < |Valid(t)| <= n * k
    ensures |ps| == n && Plays(t, tick, ps, k) && !(Valid(t) <= Reported(ps))
  {
    ps := RunsExist(t, tick, ss, n, k);
    RotationIsFair(t, tick, ps, k);
  }

  const BEACONS: seq<Mac> := [[0, 0, 0, 0, 0, 1], [0, 0, 0, 0, 0, 2], [0, 0, 0, 0, 0, 3]]

  function ThreeBeacons(): (t: Table)
    ensures Valid(t) == {0, 1, 2} && |Valid(t)| == 3
    ensures forall i :: i in Valid(t) ==> t[i].addr == BEACONS[i] && t[i].last == 10
  {
    var t: Table := seq(MAX_ENTRIES, i requires 0 <= i < MAX_ENTRIES =>
      if i < 3 then Entry(BEACONS[i], -50, 1, 1, true, true, 10) else EMPTY);
    assert Valid(t) == {0, 1, 2};
    t
  }

  lemma ThreeStayPresent(t: Table, ss: seq<Sample>)
    requires Valid(t) == {0, 1, 2} && forall i :: i in Valid(t) ==> t[i].addr == BEACONS[i]
    requires |ss| == 3 && forall i :: 0 <= i < 3 ==> ss[i].addr == BEACONS[i]
    ensures StaysPresent(t, Period(ss, {}))
  {
    forall n | 0 <= n < |ss|
      ensures Known(t, ss[n].addr)
    {
      assert n in Valid(t) && KnownAt(t, n, ss[n].addr);
    }
    forall i | i in Valid(t)
      ensures Sampled(ss, t[i].addr)
    {
      assert ss[i].addr == t[i].addr;
    }
  }

  /** Three beacons, one per report: if the tick wraps after the first of three collections, one beacon is missed. */
  lemma OneOfThreeMissed() returns (t: Table, ps: seq<Period>)
    ensures |Valid(t)| == 3 && |ps| == 3 && Plays(t, TICK_LIMIT - 1, ps, 1) && Aged(StampsOf(t), TICK_LIMIT - 1)
    ensures !(Valid(t) <= Reported(ps))
  {
    t := ThreeBeacons();
    var ss := seq(3, i requires 0 <= i < 3 => Sample(BEACONS[i], -50, 1));
    ThreeStayPresent(t, ss);
    assert Behind(StampsOf(t), 2) == {};
    ps := MissedAcrossWrap(t, TICK_LIMIT - 1, ss, 3, 1);
  }
}
