/** Rotation by oldest stamp, without the table around it: who is served when, over runs of reports. */
module Rotation {
  import opened Common

  const TICK_LIMIT := 0x1_0000_0000

  /** The stamp of every participant's last report. */
  type Stamps = map<nat, nat>

  /** The increment of a `uint32_t`. */
  function NextTick(tick: nat): nat {
    if tick == TICK_LIMIT - 1 then 0 else tick + 1
  }

  /** As many participants as fit, none with a younger stamp than somebody left out. */
  ghost predicate OldestFirst(m: Stamps, chosen: set<nat>, k: nat) {
    && chosen <= m.Keys && |chosen| == Min(|m.Keys|, k)
    && (forall i, j :: i in chosen && j in m.Keys - chosen ==> m[i] <= m[j])
  }

  function Stamp(m: Stamps, chosen: set<nat>, tick: nat): (m': Stamps)
    ensures m'.Keys == m.Keys
  {
    map i | i in m :: if i in chosen then tick else m[i]
  }

  /** Consecutive reports of at most `k`, the first one stamped `tick`. */
  ghost predicate Rotates(m: Stamps, tick: nat, cs: seq<set<nat>>, k: nat)
    decreases |cs|
  {
    cs == [] || (OldestFirst(m, cs[0], k) && Rotates(Stamp(m, cs[0], tick), NextTick(tick), cs[1..], k))
  }

  function Served(cs: seq<set<nat>>): set<nat> {
    if cs == [] then {} else cs[0] + Served(cs[1..])
  }

  /** The places that `n` reports of `k` entries offer. */
  function Places(n: nat, k: nat): nat {
    if n == 0 then 0 else Places(n - 1, k) + k
  }

  lemma {:induction false} PlacesIsProduct(n: nat, k: nat)
    ensures Places(n, k) == n * k
  {
    if n > 0 {
      PlacesIsProduct(n - 1, k);
      assert n * k == (n - 1) * k + k;
    }
  }

  // ---- sizes of sets ----

  lemma {:induction false} SubsetSize(a: set<nat>, b: set<nat>)
    requires a <= b
    ensures |a| <= |b|
  {
    if a != {} {
      var x :| x in a;
      SubsetSize(a - {x}, b - {x});
    }
  }

  lemma FullSubset(a: set<nat>, b: set<nat>)
    requires a <= b && |a| == |b|
    ensures a == b
  {
    assert b == a + (b - a) && |b| == |a| + |b - a|;
  }

  lemma StrictSize(a: set<nat>, x: nat, b: set<nat>)
    requires x !in a && a + {x} <= b
    ensures |a| < |b|
  {
    SubsetSize(a + {x}, b);
  }

  lemma UnionSize(a: set<nat>, b: set<nat>)
    ensures |a + b| <= |a| + |b|
  {
  }

  lemma {:induction false} BoundedSize(s: set<nat>, n: nat)
    requires forall i :: i in s ==> i < n
    ensures |s| <= n
  {
    if n > 0 {
      BoundedSize(s - {n - 1}, n - 1);
    } else {
      assert s == {};
    }
  }

  // ---- fairness ----

  /** Exactly the participants not yet served since `since` are older than it. */
  ghost predicate Waiting(m: Stamps, u: set<nat>, since: nat) {
    u <= m.Keys && forall i :: i in m ==> (i in u <==> m[i] < since)
  }

  /** A report serves all that wait, or fills every place with somebody who waits. */
  lemma WaitingShrinks(m: Stamps, chosen: set<nat>, k: nat, u: set<nat>, since: nat)
    requires OldestFirst(m, chosen, k) && Waiting(m, u, since)
    ensures |u - chosen| <= Max(0, |u| - k)
  {
    if x :| x in u - chosen {
      forall i | i in chosen
        ensures i in u
      {
        assert m[i] <= m[x];
      }
      if |chosen| == |m.Keys| {
        FullSubset(chosen, m.Keys);
      }
      assert u == (u - chosen) + chosen;
      assert |u| == |u - chosen| + |chosen|;
    } else {
      assert u - chosen == {};
    }
  }

  lemma WaitingStep(m: Stamps, chosen: set<nat>, tick: nat, k: nat, u: set<nat>, since: nat)
    requires OldestFirst(m, chosen, k) && Waiting(m, u, since) && since <= tick
    ensures Waiting(Stamp(m, chosen, tick), u - chosen, since)
    ensures |u - chosen| <= Max(0, |u| - k)
  {
    WaitingShrinks(m, chosen, k, u, since);
  }

  /** The reports of a run that are stamped before the tick wraps, and the first one after. */
  function InOrder(n: nat, tick: nat): nat
    requires tick < TICK_LIMIT
  {
    Min(n, TICK_LIMIT - tick + 1)
  }

  lemma PlacesNext(n: nat, k: nat)
    requires n > 0
    ensures Places(n, k) == Places(n - 1, k) + k
  {
  }

  /** One report alone serves all that wait if they fit, whatever stamp it gives. */
  lemma OneReport(m: Stamps, cs: seq<set<nat>>, k: nat, u: set<nat>, since: nat)
    requires |cs| == 1 && OldestFirst(m, cs[0], k) && Waiting(m, u, since) && |u| <= Places(1, k)
    ensures u <= Served(cs)
  {
    PlacesNext(1, k);
    WaitingShrinks(m, cs[0], k, u, since);
    assert u - cs[0] == {};
    ServedFirst(cs, u);
  }

  /** Those who wait since `since` fit into `n` reports up to the first one past the wrap, whose own stamp is free. */
  ghost predicate Fits(m: Stamps, u: set<nat>, since: nat, n: nat, tick: nat, k: nat) {
    && Waiting(m, u, since) && |u| <= Places(n, k)
    && (n <= 1 || (since <= tick && tick + n <= TICK_LIMIT + 1))
  }

  lemma FitsNext(m: Stamps, tick: nat, cs: seq<set<nat>>, k: nat, u: set<nat>, since: nat)
    requires Rotates(m, tick, cs, k) && |cs| > 1 && Fits(m, u, since, |cs|, tick, k)
    ensures Rotates(Stamp(m, cs[0], tick), NextTick(tick), cs[1..], k)
    ensures Fits(Stamp(m, cs[0], tick), u - cs[0], since, |cs[1..]|, NextTick(tick), k)
  {
    PlacesNext(|cs|, k);
    WaitingStep(m, cs[0], tick, k, u, since);
  }

  /** Everybody who waits is served as soon as the reports up to the first one past the wrap offer the places. */
  lemma {:induction false} WaitingAreServed(m: Stamps, tick: nat, cs: seq<set<nat>>, k: nat, u: set<nat>, since: nat)
    requires Rotates(m, tick, cs, k) && Fits(m, u, since, |cs|, tick, k)
    ensures u <= Served(cs)
    decreases |cs|
  {
    if |cs| > 1 {
      FitsNext(m, tick, cs, k, u, since);
      WaitingAreServed(Stamp(m, cs[0], tick), NextTick(tick), cs[1..], k, u - cs[0], since);
      ServedFirst(cs, u);
    } else if |cs| == 1 {
      OneReport(m, cs, k, u, since);
    } else {
      NobodyFits(u, k);
    }
  }

  lemma NobodyFits(u: set<nat>, k: nat)
    requires |u| <= Places(0, k)
    ensures u == {}
  {
  }

  lemma ServedFirst(cs: seq<set<nat>>, u: set<nat>)
    requires cs != [] && u - cs[0] <= Served(cs[1..])
    ensures u <= Served(cs)
  {
  }

  lemma {:induction false} ServedSize(m: Stamps, tick: nat, cs: seq<set<nat>>, k: nat)
    requires Rotates(m, tick, cs, k)
    ensures Served(cs) <= m.Keys && |Served(cs)| <= Places(|cs|, k)
    decreases |cs|
  {
    if cs != [] {
      ServedSize(Stamp(m, cs[0], tick), NextTick(tick), cs[1..], k);
      MoreServed(cs, k);
    }
  }

  lemma MoreServed(cs: seq<set<nat>>, k: nat)
    requires cs != [] && |cs[0]| <= k && |Served(cs[1..])| <= Places(|cs| - 1, k)
    ensures |Served(cs)| <= Places(|cs|, k)
  {
    UnionSize(cs[0], Served(cs[1..]));
    PlacesNext(|cs|, k);
  }

  /** Every stamp is older than the next one. */
  ghost predicate Aged(m: Stamps, tick: nat) {
    forall i :: i in m ==> m[i] < tick
  }

  // ---- the 32-bit stamp ----

  /** Participants split into those stamped before the wrap and as many as a report serves stamped after it. */
  ghost predicate Overtaken(m: Stamps, stale: set<nat>, young: set<nat>, k: nat) {
    && stale + young == m.Keys && stale !! young && |young| == Min(|m.Keys|, k)
    && (forall i, j :: i in stale && j in young ==> m[j] < m[i])
  }

  /** The stamps from before the wrap are still ahead of the next `n` ticks. */
  ghost predicate Ahead(m: Stamps, stale: set<nat>, tick: nat, n: nat) {
    forall i :: i in stale && i in m ==> tick + n <= m[i]
  }

  lemma OvertakenStep(m: Stamps, chosen: set<nat>, tick: nat, n: nat, k: nat, stale: set<nat>, young: set<nat>)
    requires OldestFirst(m, chosen, k) && Overtaken(m, stale, young, k) && n > 0 && Ahead(m, stale, tick, n)
    ensures stale !! chosen && Overtaken(Stamp(m, chosen, tick), stale, young, k)
    ensures Ahead(Stamp(m, chosen, tick), stale, tick + 1, n - 1)
  {
    if x :| x in stale && x in chosen {
      forall j | j in young
        ensures j in chosen
      {
        assert m[j] < m[x];
      }
      StrictSize(young, x, chosen);
      assert false;
    }
  }

  /**
   * After a wrap the young ones keep overtaking: until the tick catches up with the old stamps, nobody
   * stamped before the wrap is served at all.
   */
  lemma {:induction false} OldStampsStarve(
    m: Stamps, tick: nat, cs: seq<set<nat>>, k: nat, stale: set<nat>, young: set<nat>)
    requires Rotates(m, tick, cs, k) && Overtaken(m, stale, young, k) && tick + |cs| <= TICK_LIMIT
    requires Ahead(m, stale, tick, |cs|)
    ensures stale !! Served(cs)
    decreases |cs|
  {
    if cs != [] {
      OvertakenStep(m, cs[0], tick, |cs|, k, stale, young);
      OldStampsStarve(Stamp(m, cs[0], tick), NextTick(tick), cs[1..], k, stale, young);
      assert stale !! (cs[0] + Served(cs[1..]));
    }
  }

  /** The participants stamped before `tick`. */
  function Behind(m: Stamps, tick: int): set<nat> {
    set i | i in m && m[i] < tick
  }

  /** The first report past the wrap is repeated: nobody else is served until the tick reaches the old stamps. */
  lemma SameAgain(m: Stamps, cs: seq<set<nat>>, k: nat)
    requires Rotates(m, 0, cs, k) && 0 < |cs| <= TICK_LIMIT && |Behind(m, |cs|)| <= k
    ensures Served(cs) == cs[0]
  {
    var young, after := cs[0], Stamp(m, cs[0], 0);
    var stale := m.Keys - young;
    WaitingShrinks(m, young, k, Behind(m, |cs|), |cs|);
    assert Behind(m, |cs|) - young == {};
    forall i | i in stale
      ensures after[i] >= |cs|
    {
      assert i !in Behind(m, |cs|);
    }
    OldStampsStarve(after, 1, cs[1..], k, stale, young);
    ServedSize(after, 1, cs[1..], k);
    assert Served(cs) == cs[0] + Served(cs[1..]);
  }

  lemma BehindShrinks(m: Stamps, chosen: set<nat>, tick: nat, k: nat, since: int, places: nat)
    requires OldestFirst(m, chosen, k) && since <= tick && |Behind(m, since)| <= places + k
    ensures |Behind(Stamp(m, chosen, tick), since)| <= places
  {
    if since >= 0 {
      WaitingStep(m, chosen, tick, k, Behind(m, since), since);
    }
    assert Behind(Stamp(m, chosen, tick), since) == Behind(m, since) - chosen;
    if since < 0 {
      assert Behind(m, since) == {};
    }
  }

  lemma ServedPrefix(cs: seq<set<nat>>, n: nat)
    requires 0 < n <= |cs|
    ensures Served(cs[..n]) == cs[0] + Served(cs[1..][..n - 1])
  {
    assert cs[..n][1..] == cs[1..][..n - 1];
  }

  lemma SameFirst(cs: seq<set<nat>>, n: nat)
    requires 0 < n <= |cs| && Served(cs[1..]) == Served(cs[1..][..n - 1])
    ensures Served(cs) == Served(cs[..n])
  {
    ServedPrefix(cs, n);
  }

  /** The stamps that the ticks past the wrap reach fit into the reports up to the first one past it. */
  ghost predicate FewBehind(m: Stamps, tick: nat, n: nat, k: nat)
    requires tick < TICK_LIMIT
  {
    |Behind(m, tick + n - TICK_LIMIT)| <= Places(TICK_LIMIT - tick + 1, k)
  }

  lemma NoWrapFewBehind(m: Stamps, tick: nat, n: nat, k: nat)
    requires tick < TICK_LIMIT && tick + n <= TICK_LIMIT
    ensures FewBehind(m, tick, n, k)
  {
    assert Behind(m, tick + n - TICK_LIMIT) == {};
  }

  lemma FewBehindNext(m: Stamps, chosen: set<nat>, tick: nat, n: nat, k: nat)
    requires OldestFirst(m, chosen, k) && tick < TICK_LIMIT - 1 && 0 < n <= TICK_LIMIT && FewBehind(m, tick, n, k)
    ensures FewBehind(Stamp(m, chosen, tick), tick + 1, n - 1, k)
  {
    var left := TICK_LIMIT - tick;
    PlacesNext(left + 1, k);
    BehindShrinks(m, chosen, tick, k, tick + n - TICK_LIMIT, Places(left, k));
    assert tick + n - TICK_LIMIT == (tick + 1) + (n - 1) - TICK_LIMIT && TICK_LIMIT - (tick + 1) + 1 == left;
  }

  lemma FewBehindAtWrap(m: Stamps, chosen: set<nat>, n: nat, k: nat)
    requires OldestFirst(m, chosen, k) && 0 < n <= TICK_LIMIT && FewBehind(m, TICK_LIMIT - 1, n, k)
    ensures |Behind(Stamp(m, chosen, TICK_LIMIT - 1), n - 1)| <= k
  {
    PlacesNext(2, k);
    PlacesNext(1, k);
    assert Places(0, k) == 0;
    BehindShrinks(m, chosen, TICK_LIMIT - 1, k, n - 1, k);
  }

  lemma LastBeforeWrap(m: Stamps, cs: seq<set<nat>>, k: nat)
    requires Rotates(m, TICK_LIMIT - 1, cs, k) && 2 < |cs| <= TICK_LIMIT && FewBehind(m, TICK_LIMIT - 1, |cs|, k)
    ensures Served(cs) == Served(cs[..2])
  {
    var after, rest := Stamp(m, cs[0], TICK_LIMIT - 1), cs[1..];
    FewBehindAtWrap(m, cs[0], |cs|, k);
    assert Rotates(after, 0, rest, k);
    SameAgain(after, rest, k);
    ServedPrefix(rest, 1);
    SameFirst(cs, 2);
  }

  /**
   * Over a run that crosses the wrap, everybody who is served at all is served up to the first report past it.
   * Stamps so old that the ticks past the wrap reach them must fit into those reports.
   */
  lemma {:induction false} NobodyNewPastWrap(m: Stamps, tick: nat, cs: seq<set<nat>>, k: nat)
    requires Rotates(m, tick, cs, k) && tick < TICK_LIMIT && TICK_LIMIT - tick + 1 < |cs| <= TICK_LIMIT
    requires FewBehind(m, tick, |cs|, k)
    ensures Served(cs) == Served(cs[..TICK_LIMIT - tick + 1])
    decreases |cs|
  {
    if tick == TICK_LIMIT - 1 {
      LastBeforeWrap(m, cs, k);
    } else {
      FewBehindNext(m, cs[0], tick, |cs|, k);
      NobodyNewPastWrap(Stamp(m, cs[0], tick), tick + 1, cs[1..], k);
      SameFirst(cs, TICK_LIMIT - tick + 1);
    }
  }

  lemma {:induction false} RotatesPrefix(m: Stamps, tick: nat, cs: seq<set<nat>>, k: nat, n: nat)
    requires Rotates(m, tick, cs, k) && n <= |cs|
    ensures Rotates(m, tick, cs[..n], k) && Served(cs[..n]) <= Served(cs)
    decreases |cs|
  {
    if n > 0 {
      RotatesPrefix(Stamp(m, cs[0], tick), NextTick(tick), cs[1..], k, n - 1);
      ServedPrefix(cs, n);
      assert cs[..n][0] == cs[0] && cs[..n][1..] == cs[1..][..n - 1];
    }
  }

  /** Enough places up to the first report past the wrap always suffice. */
  lemma PlacesSuffice(m: Stamps, tick: nat, cs: seq<set<nat>>, k: nat)
    requires Rotates(m, tick, cs, k) && Aged(m, tick) && tick < TICK_LIMIT
    ensures Places(InOrder(|cs|, tick), k) >= |m.Keys| ==> m.Keys <= Served(cs)
  {
    var n := InOrder(|cs|, tick);
    if Places(n, k) >= |m.Keys| {
      RotatesPrefix(m, tick, cs, k, n);
      WaitingAreServed(m, tick, cs[..n], k, m.Keys, tick);
    }
  }

  /**
   * All participants are served by a run of reports exactly when the reports offer at least as many places
   * as there are participants; reports after the first one past the wrap of the tick do not count. Stamps so old
   * that the ticks past the wrap reach them must fit into the reports that count; without a wrap there are none.
   */
  lemma FairIff(m: Stamps, tick: nat, cs: seq<set<nat>>, k: nat)
    requires Rotates(m, tick, cs, k) && Aged(m, tick) && tick < TICK_LIMIT && |cs| <= TICK_LIMIT
    requires FewBehind(m, tick, |cs|, k)
    ensures m.Keys <= Served(cs) <==> Places(InOrder(|cs|, tick), k) >= |m.Keys|
  {
    var n := InOrder(|cs|, tick);
    PlacesSuffice(m, tick, cs, k);
    if m.Keys <= Served(cs) {
      if |cs| > n {
        NobodyNewPastWrap(m, tick, cs, k);
      } else {
        assert cs[..n] == cs;
      }
      RotatesPrefix(m, tick, cs, k, n);
      ServedSize(m, tick, cs[..n], k);
      SubsetSize(m.Keys, Served(cs[..n]));
    }
  }

  /** Reports stamped from zero on, over older stamps, serve everybody exactly when each of them does. */
  lemma FairFromZeroIff(m: Stamps, cs: seq<set<nat>>, k: nat)
    requires Rotates(m, 0, cs, k) && 0 < |cs| <= TICK_LIMIT && |Behind(m, |cs|)| <= k
    ensures m.Keys <= Served(cs) <==> |m.Keys| <= k
  {
    SameAgain(m, cs, k);
    if |m.Keys| <= k {
      FullSubset(cs[0], m.Keys);
    }
    if m.Keys <= cs[0] {
      SubsetSize(m.Keys, cs[0]);
    }
  }

  function Ceil(n: nat, k: nat): nat
    requires k > 0
  {
    (n + k - 1) / k
  }

  lemma CeilingPlaces(n: nat, m: nat, k: nat)
    requires k > 0 && m >= Ceil(n, k)
    ensures Places(m, k) >= n
  {
    var c := Ceil(n, k);
    assert n + k - 1 == c * k + (n + k - 1) % k;
    assert m * k == c * k + (m - c) * k;
    assert (m - c) * k >= 0;
    PlacesIsProduct(m, k);
  }
}
