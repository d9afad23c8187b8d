/**
 * The select-based echo server (server.c): a table of ten client descriptors, rebuilt into a watch set each
 * round, with at most one connection accepted and every ready client echoed or closed.
 */
module EchoServer {
  import opened Common

  const MAX_CLIENTS := 10
  const BUFFER_SIZE := 1024

  /** An `Untracked` connection was accepted while every slot was taken; it is never served and never closed. */
  datatype Status = Tracked | Closed | Untracked

  /** One accepted connection: its descriptor, the bytes received from it and the bytes sent back. */
  datatype Conn = Conn(fd: int, input: seq<u8>, output: seq<u8>, status: Status)

  /**
   * `slots` is the descriptor table, zero for a free slot; `owner` says which connection a taken slot serves;
   * `conns` are all connections in the order they were accepted; `buffer` is the one buffer they all share.
   */
  datatype Echo = Echo(slots: seq<int>, owner: seq<nat>, conns: seq<Conn>, buffer: seq<u8>)

  /**
   * One turn of the loop: the descriptors `select` reports, what `accept` returns, and what waits on a descriptor,
   * where nothing stands for a closed or failed connection.
   */
  datatype Round = Round(ready: set<int>, newFd: int, waiting: int -> seq<u8>)

  function Initial(buffer: seq<u8>): Echo {
    Echo(seq(MAX_CLIENTS, i => 0), seq(MAX_CLIENTS, i => 0), [], buffer)
  }

  predicate Shaped(s: Echo) {
    |s.slots| == MAX_CLIENTS && |s.owner| == MAX_CLIENTS && |s.buffer| == BUFFER_SIZE
  }

  /** What one `recv` takes: all that waits, as far as it leaves room for a final zero. */
  function Received(r: Round, fd: int): (data: seq<u8>)
    ensures |data| < BUFFER_SIZE
  {
    var all := r.waiting(fd);
    all[..Min(|all|, BUFFER_SIZE - 1)]
  }

  /** `recv` into the front of the buffer, and the zero behind it; the rest is left over from earlier clients. */
  function Fill(buffer: seq<u8>, data: seq<u8>): (b: seq<u8>)
    requires |data| < |buffer|
    ensures |b| == |buffer|
  {
    data + [0] + buffer[|data| + 1..]
  }

  lemma NoLeftovers(buffer: seq<u8>, data: seq<u8>)
    requires |data| < |buffer|
    ensures Fill(buffer, data)[..|data|] == data
  {
  }

  /** The descriptors registered with `select`. */
  function Watched(slots: seq<int>, serverFd: int): set<int> {
    {serverFd} + set i | 0 <= i < |slots| && slots[i] > 0 :: slots[i]
  }

  lemma WatchedSnoc(slots: seq<int>, fd: int, serverFd: int)
    ensures Watched(slots + [fd], serverFd) == Watched(slots, serverFd) + if fd > 0 then {fd} else {}
  {
    var more := slots + [fd];
    forall i | 0 <= i < |slots| && slots[i] > 0
      ensures slots[i] in Watched(more, serverFd)
    {
      assert more[i] == slots[i];
    }
    assert more[|slots|] == fd;
  }

  function FirstFree(slots: seq<int>): (i: nat)
    ensures i <= |slots|
    ensures forall j :: 0 <= j < i ==> slots[j] != 0
    ensures i < |slots| ==> slots[i] == 0
  {
    if slots == [] || slots[0] == 0 then 0 else 1 + FirstFree(slots[1..])
  }

  function Accept(s: Echo, fd: int): Echo
    requires Shaped(s)
  {
    var i := FirstFree(s.slots);
    if i < MAX_CLIENTS
    then s.(slots := s.slots[i := fd], owner := s.owner[i := |s.conns|], conns := s.conns + [Conn(fd, [], [], Tracked)])
    else s.(conns := s.conns + [Conn(fd, [], [], Untracked)])
  }

  /** Serving slot `i`: echo what was received, or give the slot up. */
  function ServeSlot(s: Echo, i: nat, r: Round): Echo
    requires Shaped(s) && i < MAX_CLIENTS
  {
    if s.slots[i] <= 0 || s.slots[i] !in r.ready || s.owner[i] >= |s.conns| then s else
      var c, data := s.conns[s.owner[i]], Received(r, s.slots[i]);
      if data == [] then s.(slots := s.slots[i := 0], conns := s.conns[s.owner[i] := c.(status := Closed)])
      else
        var buffer := Fill(s.buffer, data);
        s.(buffer := buffer,
           conns := s.conns[s.owner[i] := c.(input := c.input + data, output := c.output + buffer[..|data|])])
  }

  function ServeUpTo(s: Echo, n: nat, r: Round): (t: Echo)
    requires Shaped(s) && n <= MAX_CLIENTS
    ensures Shaped(t) && |t.conns| == |s.conns|
  {
    if n == 0 then s else ServeSlot(ServeUpTo(s, n - 1, r), n - 1, r)
  }

  /** A failing `accept` skips the rest of the round. */
  function Play(s: Echo, r: Round, serverFd: int): (t: Echo)
    requires Shaped(s)
    ensures Shaped(t)
  {
    if serverFd in r.ready && r.newFd < 0 then s
    else ServeUpTo(if serverFd in r.ready then Accept(s, r.newFd) else s, MAX_CLIENTS, r)
  }

  // ---- invariants ----

  predicate IsOpen(c: Conn) {
    c.status != Closed
  }

  /** Slot `i` serves a tracked connection with the same descriptor. */
  predicate Serves(s: Echo, i: nat, c: nat) {
    && i < |s.slots| && i < |s.owner| && c < |s.conns|
    && s.slots[i] > 0 && s.owner[i] == c && s.conns[c].fd == s.slots[i] && s.conns[c].status == Tracked
  }

  ghost predicate SlotsInv(s: Echo) {
    && Shaped(s)
    && (forall i :: 0 <= i < MAX_CLIENTS ==> s.slots[i] >= 0)
    && (forall i :: 0 <= i < MAX_CLIENTS && s.slots[i] > 0 ==> Serves(s, i, s.owner[i]))
    && (forall i, j :: 0 <= i < j < MAX_CLIENTS && s.slots[i] > 0 && s.slots[j] > 0 ==> s.slots[i] != s.slots[j])
    && (forall c :: 0 <= c < |s.conns| && s.conns[c].status == Tracked ==> exists i :: Serves(s, i, c))
  }

  /** Descriptors of open connections are positive, distinct, and not the listening one. */
  ghost predicate FdsInv(s: Echo, serverFd: int) {
    && (forall c :: 0 <= c < |s.conns| && IsOpen(s.conns[c]) ==> s.conns[c].fd > 0 && s.conns[c].fd != serverFd)
    && (forall c, d :: 0 <= c < d < |s.conns| && IsOpen(s.conns[c]) && IsOpen(s.conns[d]) ==>
          s.conns[c].fd != s.conns[d].fd)
  }

  ghost predicate EchoesInv(s: Echo) {
    forall c :: 0 <= c < |s.conns| ==>
      s.conns[c].output == s.conns[c].input && (s.conns[c].status == Untracked ==> s.conns[c].input == [])
  }

  ghost predicate Inv(s: Echo, serverFd: int) {
    SlotsInv(s) && FdsInv(s, serverFd) && EchoesInv(s)
  }

  /** A descriptor `accept` can return: positive and not in use. */
  ghost predicate Fresh(s: Echo, fd: int, serverFd: int) {
    && fd > 0 && fd != serverFd
    && (forall c :: 0 <= c < |s.conns| && IsOpen(s.conns[c]) ==> s.conns[c].fd != fd)
  }

  /** What the kernel promises: only watched descriptors are ready, and a new descriptor is fresh. */
  ghost predicate Plausible(s: Echo, r: Round, serverFd: int) {
    r.ready <= Watched(s.slots, serverFd) && (r.newFd >= 0 ==> Fresh(s, r.newFd, serverFd))
  }

  lemma AcceptServes(s: Echo, fd: int, serverFd: int, i: nat)
    requires SlotsInv(s) && FdsInv(s, serverFd) && Fresh(s, fd, serverFd)
    requires i < MAX_CLIENTS && Accept(s, fd).slots[i] > 0
    ensures Serves(Accept(s, fd), i, Accept(s, fd).owner[i])
    ensures i != FirstFree(s.slots) ==> Accept(s, fd).slots[i] == s.slots[i] != fd
  {
    if i != FirstFree(s.slots) {
      assert Serves(s, i, s.owner[i]);
    }
  }

  lemma AcceptKeepsTracked(s: Echo, fd: int, c: nat)
    requires SlotsInv(s) && fd > 0 && c < |Accept(s, fd).conns| && Accept(s, fd).conns[c].status == Tracked
    ensures exists i :: Serves(Accept(s, fd), i, c)
  {
    if c < |s.conns| {
      var i: nat :| Serves(s, i, c);
      assert Serves(Accept(s, fd), i, c);
    } else {
      assert Serves(Accept(s, fd), FirstFree(s.slots), c);
    }
  }

  lemma AcceptSlots(s: Echo, fd: int, serverFd: int)
    requires SlotsInv(s) && FdsInv(s, serverFd) && Fresh(s, fd, serverFd)
    ensures SlotsInv(Accept(s, fd))
  {
    var t := Accept(s, fd);
    forall i | 0 <= i < MAX_CLIENTS && t.slots[i] > 0
      ensures Serves(t, i, t.owner[i])
      ensures i != FirstFree(s.slots) ==> t.slots[i] == s.slots[i] != fd
    {
      AcceptServes(s, fd, serverFd, i);
    }
    forall c | 0 <= c < |t.conns| && t.conns[c].status == Tracked
      ensures exists i :: Serves(t, i, c)
    {
      AcceptKeepsTracked(s, fd, c);
    }
  }

  lemma AcceptConns(s: Echo, fd: int, serverFd: int)
    requires Shaped(s) && FdsInv(s, serverFd) && EchoesInv(s) && Fresh(s, fd, serverFd)
    ensures FdsInv(Accept(s, fd), serverFd) && EchoesInv(Accept(s, fd))
  {
  }

  lemma AcceptStep(s: Echo, fd: int, serverFd: int)
    requires Inv(s, serverFd) && Fresh(s, fd, serverFd)
    ensures Inv(Accept(s, fd), serverFd)
  {
    AcceptSlots(s, fd, serverFd);
    AcceptConns(s, fd, serverFd);
  }

  lemma ServeKeepsOthers(s: Echo, i: nat, r: Round, j: nat)
    requires SlotsInv(s) && i < MAX_CLIENTS && j < MAX_CLIENTS && ServeSlot(s, i, r).slots[j] > 0
    ensures Serves(ServeSlot(s, i, r), j, s.owner[j]) && ServeSlot(s, i, r).owner == s.owner
  {
  }

  lemma ServeKeepsTracked(s: Echo, i: nat, r: Round, c: nat)
    requires SlotsInv(s) && i < MAX_CLIENTS && c < |s.conns| && ServeSlot(s, i, r).conns[c].status == Tracked
    ensures exists j :: Serves(ServeSlot(s, i, r), j, c)
  {
    assert s.conns[c].status == Tracked;
    var j: nat :| Serves(s, j, c);
    assert s.slots[i] > 0 ==> Serves(s, i, s.owner[i]);
    assert Serves(ServeSlot(s, i, r), j, c);
  }

  lemma ServeSlots(s: Echo, i: nat, r: Round)
    requires SlotsInv(s) && i < MAX_CLIENTS
    ensures SlotsInv(ServeSlot(s, i, r))
  {
    var t := ServeSlot(s, i, r);
    assert |t.conns| == |s.conns| && forall j :: 0 <= j < MAX_CLIENTS ==> t.slots[j] == s.slots[j] || t.slots[j] == 0;
    forall j | 0 <= j < MAX_CLIENTS && t.slots[j] > 0
      ensures Serves(t, j, t.owner[j])
    {
      ServeKeepsOthers(s, i, r, j);
    }
    forall c | 0 <= c < |t.conns| && t.conns[c].status == Tracked
      ensures exists j :: Serves(t, j, c)
    {
      ServeKeepsTracked(s, i, r, c);
    }
  }

  lemma ServeKeepsFds(s: Echo, i: nat, r: Round, serverFd: int)
    requires Shaped(s) && FdsInv(s, serverFd) && i < MAX_CLIENTS
    ensures FdsInv(ServeSlot(s, i, r), serverFd)
  {
  }

  lemma ServeKeepsEchoes(s: Echo, i: nat, r: Round)
    requires Shaped(s) && EchoesInv(s) && i < MAX_CLIENTS
    requires s.slots[i] > 0 ==> Serves(s, i, s.owner[i])
    ensures EchoesInv(ServeSlot(s, i, r))
  {
    NoLeftovers(s.buffer, Received(r, s.slots[i]));
  }

  lemma ServeStep(s: Echo, i: nat, r: Round, serverFd: int)
    requires Inv(s, serverFd) && i < MAX_CLIENTS
    ensures Inv(ServeSlot(s, i, r), serverFd)
  {
    ServeSlots(s, i, r);
    ServeKeepsFds(s, i, r, serverFd);
    ServeKeepsEchoes(s, i, r);
  }

  lemma {:induction false} ServeAll(s: Echo, n: nat, r: Round, serverFd: int)
    requires Inv(s, serverFd) && n <= MAX_CLIENTS
    ensures Inv(ServeUpTo(s, n, r), serverFd)
  {
    if n > 0 {
      var u := ServeUpTo(s, n - 1, r);
      ServeAll(s, n - 1, r, serverFd);
      ServeStep(u, n - 1, r, serverFd);
      assert ServeUpTo(s, n, r) == ServeSlot(u, n - 1, r);
    }
  }

  lemma PlayStep(s: Echo, r: Round, serverFd: int)
    requires Inv(s, serverFd) && Plausible(s, r, serverFd)
    ensures Inv(Play(s, r, serverFd), serverFd)
  {
    if serverFd in r.ready && r.newFd >= 0 {
      AcceptStep(s, r.newFd, serverFd);
      ServeAll(Accept(s, r.newFd), MAX_CLIENTS, r, serverFd);
    } else if serverFd !in r.ready {
      ServeAll(s, MAX_CLIENTS, r, serverFd);
    }
  }

  ghost predicate Runs(s: Echo, rs: seq<Round>, serverFd: int)
    requires Shaped(s)
    decreases |rs|
  {
    rs == [] || (Plausible(s, rs[0], serverFd) && Runs(Play(s, rs[0], serverFd), rs[1..], serverFd))
  }

  function Exec(s: Echo, rs: seq<Round>, serverFd: int): (t: Echo)
    requires Shaped(s)
    ensures Shaped(t)
    decreases |rs|
  {
    if rs == [] then s else Exec(Play(s, rs[0], serverFd), rs[1..], serverFd)
  }

  lemma {:induction false} InvExec(s: Echo, rs: seq<Round>, serverFd: int)
    requires Inv(s, serverFd) && Runs(s, rs, serverFd)
    ensures Inv(Exec(s, rs, serverFd), serverFd)
    decreases |rs|
  {
    if rs != [] {
      PlayStep(s, rs[0], serverFd);
      InvExec(Play(s, rs[0], serverFd), rs[1..], serverFd);
    }
  }

  /**
   * After any rounds the taken slots hold distinct descriptors of open connections, every connection got back
   * exactly its own bytes in order although all share one buffer, and what was accepted beyond the table has been
   * sent nothing.
   */
  lemma SlotTable(buffer: seq<u8>, rs: seq<Round>, serverFd: int)
    requires |buffer| == BUFFER_SIZE && Runs(Initial(buffer), rs, serverFd)
    ensures var s := Exec(Initial(buffer), rs, serverFd);
            && |s.slots| == 10
            && (forall i :: 0 <= i < MAX_CLIENTS && s.slots[i] != 0 ==> Serves(s, i, s.owner[i]))
            && (forall i, j :: 0 <= i < j < MAX_CLIENTS && s.slots[i] != 0 ==> s.slots[i] != s.slots[j])
            && (forall c :: 0 <= c < |s.conns| ==> s.conns[c].output == s.conns[c].input)
            && (forall c :: 0 <= c < |s.conns| && s.conns[c].status == Untracked ==> s.conns[c].output == [])
  {
    InvExec(Initial(buffer), rs, serverFd);
  }

  // ---- what one round does to every connection ----

  function Effect(c: Conn, r: Round): Conn {
    if c.status != Tracked || c.fd !in r.ready then c
    else if Received(r, c.fd) == [] then c.(status := Closed)
    else c.(input := c.input + Received(r, c.fd), output := c.output + Received(r, c.fd))
  }

  /** The slots below `n` have been served, the others not yet. */
  ghost predicate ServedBelow(s: Echo, t: Echo, n: nat, r: Round)
    requires Shaped(s) && Shaped(t) && |t.conns| == |s.conns| && n <= MAX_CLIENTS
  {
    && t.owner == s.owner
    && (forall i :: n <= i < MAX_CLIENTS ==> t.slots[i] == s.slots[i])
    && (forall i :: 0 <= i < n && s.slots[i] > 0 ==>
          s.owner[i] < |s.conns| && t.conns[s.owner[i]] == Effect(s.conns[s.owner[i]], r))
    && (forall i :: n <= i < MAX_CLIENTS && s.slots[i] > 0 ==>
          s.owner[i] < |s.conns| && t.conns[s.owner[i]] == s.conns[s.owner[i]])
    && (forall c :: 0 <= c < |s.conns| && s.conns[c].status != Tracked ==> t.conns[c] == s.conns[c])
  }

  lemma {:induction false} ServeBelow(s: Echo, n: nat, r: Round, serverFd: int)
    requires Inv(s, serverFd) && n <= MAX_CLIENTS
    ensures ServedBelow(s, ServeUpTo(s, n, r), n, r)
  {
    forall i | 0 <= i < MAX_CLIENTS && s.slots[i] > 0
      ensures Serves(s, i, s.owner[i])
    {
    }
    if n > 0 {
      ServeBelow(s, n - 1, r, serverFd);
      ServedNext(s, ServeUpTo(s, n - 1, r), n - 1, r);
    }
  }

  lemma ServedHere(s: Echo, t: Echo, n: nat, r: Round)
    requires SlotsInv(s) && Shaped(t) && |t.conns| == |s.conns| && n < MAX_CLIENTS && s.slots[n] > 0
    requires t.owner == s.owner && t.slots[n] == s.slots[n] && t.conns[s.owner[n]] == s.conns[s.owner[n]]
    ensures s.owner[n] < |s.conns| && ServeSlot(t, n, r).slots == t.slots[n := ServeSlot(t, n, r).slots[n]]
    ensures ServeSlot(t, n, r).conns == t.conns[s.owner[n] := Effect(s.conns[s.owner[n]], r)]
  {
    assert Serves(s, n, s.owner[n]);
    NoLeftovers(t.buffer, Received(r, s.slots[n]));
  }

  lemma ServedNext(s: Echo, t: Echo, n: nat, r: Round)
    requires SlotsInv(s) && Shaped(t) && |t.conns| == |s.conns| && n < MAX_CLIENTS && ServedBelow(s, t, n, r)
    ensures |ServeSlot(t, n, r).conns| == |s.conns| && ServedBelow(s, ServeSlot(t, n, r), n + 1, r)
  {
    if s.slots[n] > 0 {
      assert Serves(s, n, s.owner[n]);
      ServedHere(s, t, n, r);
      forall i | 0 <= i < MAX_CLIENTS && s.slots[i] > 0 && i != n
        ensures s.owner[i] != s.owner[n]
      {
        assert Serves(s, i, s.owner[i]);
      }
    }
  }

  /** The round reads connection `c`: no failing `accept`, and `c` is in the table and ready. */
  predicate Reads(s: Echo, r: Round, serverFd: int, c: nat) {
    && !(serverFd in r.ready && r.newFd < 0)
    && c < |s.conns| && s.conns[c].status == Tracked && s.conns[c].fd in r.ready
  }

  /** The first 1023 bytes, or all if there are no more. */
  function First(all: seq<u8>): seq<u8> {
    all[..Min(|all|, 1023)]
  }

  /** What waited was received and sent back as far as the buffer holds it; the connection is closed if nothing did. */
  predicate EchoedOrClosed(before: Conn, after: Conn, waiting: seq<u8>) {
    && after.fd == before.fd
    && after.status == (if |waiting| == 0 then Closed else Tracked)
    && after.input == before.input + First(waiting) && after.output == before.output + First(waiting)
  }

  lemma EffectEchoes(c: Conn, r: Round)
    requires c.status == Tracked && c.fd in r.ready
    ensures EchoedOrClosed(c, Effect(c, r), r.waiting(c.fd))
  {
  }

  /**
   * Whatever the order of the slots: a round reads every ready tracked connection once, sends back what waited on it
   * or closes it if nothing did, and touches no other. A failing `accept` leaves them all waiting. A connection
   * accepted in the round is not read in it.
   */
  lemma RoundEffect(s: Echo, r: Round, serverFd: int)
    requires Inv(s, serverFd) && Plausible(s, r, serverFd)
    ensures var t := Play(s, r, serverFd);
            var accepted := serverFd in r.ready && r.newFd >= 0;
            && |t.conns| == |s.conns| + (if accepted then 1 else 0)
            && (forall c :: 0 <= c < |s.conns| ==>
                  if Reads(s, r, serverFd, c) then EchoedOrClosed(s.conns[c], t.conns[c], r.waiting(s.conns[c].fd))
                  else t.conns[c] == s.conns[c])
            && (accepted ==>
                  && t.conns[|s.conns|] == Conn(r.newFd, [], [], t.conns[|s.conns|].status)
                  && t.conns[|s.conns|].status == if 0 in s.slots then Tracked else Untracked)
  {
    if !(serverFd in r.ready && r.newFd < 0) {
      var u := if serverFd in r.ready then Accept(s, r.newFd) else s;
      if serverFd in r.ready {
        AcceptStep(s, r.newFd, serverFd);
        NewIsUnwatched(s, r.newFd, serverFd);
      }
      ServeBelow(u, MAX_CLIENTS, r, serverFd);
      EveryoneServed(u, ServeUpTo(u, MAX_CLIENTS, r), r);
      forall c | 0 <= c < |s.conns| && Reads(s, r, serverFd, c)
        ensures EchoedOrClosed(s.conns[c], Effect(s.conns[c], r), r.waiting(s.conns[c].fd))
      {
        EffectEchoes(s.conns[c], r);
      }
    }
  }

  /** What connection `c` should have been sent over some rounds: what waited on it, whenever it was read. */
  function EchoOf(s: Echo, rs: seq<Round>, serverFd: int, c: nat): seq<u8>
    requires Shaped(s)
    decreases |rs|
  {
    if rs == [] then [] else
      (if Reads(s, rs[0], serverFd, c) then First(rs[0].waiting(s.conns[c].fd)) else [])
      + EchoOf(Play(s, rs[0], serverFd), rs[1..], serverFd, c)
  }

  /** The bytes a connection has been sent so far; nothing before it is accepted. */
  function OutputOf(s: Echo, c: nat): seq<u8> {
    if c < |s.conns| then s.conns[c].output else []
  }

  lemma OutputStep(s: Echo, r: Round, serverFd: int, c: nat)
    requires Inv(s, serverFd) && Plausible(s, r, serverFd)
    ensures OutputOf(Play(s, r, serverFd), c)
         == OutputOf(s, c) + if Reads(s, r, serverFd, c) then First(r.waiting(s.conns[c].fd)) else []
  {
    RoundEffect(s, r, serverFd);
  }

  lemma {:induction false} OutputExec(s: Echo, rs: seq<Round>, serverFd: int, c: nat)
    requires Inv(s, serverFd) && Runs(s, rs, serverFd)
    ensures OutputOf(Exec(s, rs, serverFd), c) == OutputOf(s, c) + EchoOf(s, rs, serverFd, c)
    decreases |rs|
  {
    if rs != [] {
      var t := Play(s, rs[0], serverFd);
      PlayStep(s, rs[0], serverFd);
      OutputStep(s, rs[0], serverFd, c);
      OutputExec(t, rs[1..], serverFd, c);
      Regroup(OutputOf(s, c), if Reads(s, rs[0], serverFd, c) then First(rs[0].waiting(s.conns[c].fd)) else [],
              EchoOf(t, rs[1..], serverFd, c));
    } else {
      assert OutputOf(s, c) + [] == OutputOf(s, c);
    }
  }

  lemma Regroup(a: seq<u8>, b: seq<u8>, c: seq<u8>)
    ensures (a + b) + c == a + (b + c)
  {
  }

  /** After any rounds every connection has been sent what waited on it in the rounds that read it, in order. */
  lemma EchoesOfRun(buffer: seq<u8>, rs: seq<Round>, serverFd: int, c: nat)
    requires |buffer| == BUFFER_SIZE && Runs(Initial(buffer), rs, serverFd)
    requires c < |Exec(Initial(buffer), rs, serverFd).conns|
    ensures Exec(Initial(buffer), rs, serverFd).conns[c].output == EchoOf(Initial(buffer), rs, serverFd, c)
  {
    OutputExec(Initial(buffer), rs, serverFd, c);
    assert [] + EchoOf(Initial(buffer), rs, serverFd, c) == EchoOf(Initial(buffer), rs, serverFd, c);
  }

  lemma NewIsUnwatched(s: Echo, fd: int, serverFd: int)
    requires Inv(s, serverFd) && Fresh(s, fd, serverFd)
    ensures fd !in Watched(s.slots, serverFd)
  {
  }

  lemma EveryoneServed(s: Echo, t: Echo, r: Round)
    requires SlotsInv(s) && Shaped(t) && |t.conns| == |s.conns| && ServedBelow(s, t, MAX_CLIENTS, r)
    ensures forall c :: 0 <= c < |s.conns| ==> t.conns[c] == Effect(s.conns[c], r)
  {
  }

  // ---- accounting ----

  function WithStatus(conns: seq<Conn>, st: Status): nat {
    if conns == [] then 0 else
      WithStatus(conns[..|conns| - 1], st) + if conns[|conns| - 1].status == st then 1 else 0
  }

  function Taken(slots: seq<int>): nat {
    if slots == [] then 0 else Taken(slots[..|slots| - 1]) + if slots[|slots| - 1] != 0 then 1 else 0
  }

  lemma {:induction false} StatusUpdate(conns: seq<Conn>, i: nat, c: Conn, st: Status)
    requires i < |conns|
    ensures WithStatus(conns[i := c], st)
         == WithStatus(conns, st) - (if conns[i].status == st then 1 else 0) + (if c.status == st then 1 else 0)
  {
    var n := |conns| - 1;
    if i < n {
      StatusUpdate(conns[..n], i, c, st);
      assert conns[i := c][..n] == conns[..n][i := c];
    } else {
      assert conns[i := c][..n] == conns[..n];
    }
  }

  lemma {:induction false} TakenUpdate(slots: seq<int>, i: nat, fd: int)
    requires i < |slots|
    ensures Taken(slots[i := fd]) == Taken(slots) - (if slots[i] != 0 then 1 else 0) + (if fd != 0 then 1 else 0)
  {
    var n := |slots| - 1;
    if i < n {
      TakenUpdate(slots[..n], i, fd);
      assert slots[i := fd][..n] == slots[..n][i := fd];
    } else {
      assert slots[i := fd][..n] == slots[..n];
    }
  }

  ghost predicate Balanced(s: Echo) {
    Taken(s.slots) == WithStatus(s.conns, Tracked)
  }

  lemma AcceptBalanced(s: Echo, fd: int)
    requires Shaped(s) && Balanced(s) && fd > 0
    ensures Balanced(Accept(s, fd))
  {
    var t, k := Accept(s, fd), FirstFree(s.slots);
    assert t.conns[..|s.conns|] == s.conns;
    if k < MAX_CLIENTS {
      TakenUpdate(s.slots, k, fd);
    }
  }

  lemma ServeBalanced(s: Echo, i: nat, r: Round)
    requires SlotsInv(s) && Balanced(s) && i < MAX_CLIENTS
    ensures Balanced(ServeSlot(s, i, r))
  {
    var t := ServeSlot(s, i, r);
    if t != s {
      assert Serves(s, i, s.owner[i]);
      StatusUpdate(s.conns, s.owner[i], t.conns[s.owner[i]], Tracked);
      TakenUpdate(s.slots, i, 0);
    }
  }

  lemma {:induction false} ServeAllBalanced(s: Echo, n: nat, r: Round, serverFd: int)
    requires Inv(s, serverFd) && Balanced(s) && n <= MAX_CLIENTS
    ensures Balanced(ServeUpTo(s, n, r))
  {
    if n > 0 {
      ServeAllBalanced(s, n - 1, r, serverFd);
      ServeAll(s, n - 1, r, serverFd);
      ServeBalanced(ServeUpTo(s, n - 1, r), n - 1, r);
    }
  }

  lemma {:induction false} BalancedExec(s: Echo, rs: seq<Round>, serverFd: int)
    requires Inv(s, serverFd) && Balanced(s) && Runs(s, rs, serverFd)
    ensures Balanced(Exec(s, rs, serverFd))
    decreases |rs|
  {
    if rs != [] {
      var r := rs[0];
      PlayStep(s, r, serverFd);
      if serverFd in r.ready && r.newFd >= 0 {
        AcceptStep(s, r.newFd, serverFd);
        AcceptBalanced(s, r.newFd);
        ServeAllBalanced(Accept(s, r.newFd), MAX_CLIENTS, r, serverFd);
      } else if serverFd !in r.ready {
        ServeAllBalanced(s, MAX_CLIENTS, r, serverFd);
      }
      BalancedExec(Play(s, r, serverFd), rs[1..], serverFd);
    }
  }

  lemma {:induction false} StatusesPartition(conns: seq<Conn>)
    ensures |conns| == WithStatus(conns, Tracked) + WithStatus(conns, Closed) + WithStatus(conns, Untracked)
  {
    if conns != [] {
      StatusesPartition(conns[..|conns| - 1]);
    }
  }

  /** Accepted connections are those in the table, those closed, and those accepted while it was full. */
  lemma Accounting(buffer: seq<u8>, rs: seq<Round>, serverFd: int)
    requires |buffer| == BUFFER_SIZE && Runs(Initial(buffer), rs, serverFd)
    ensures var s := Exec(Initial(buffer), rs, serverFd);
            |s.conns| == Taken(s.slots) + WithStatus(s.conns, Closed) + WithStatus(s.conns, Untracked)
  {
    NoneTaken(MAX_CLIENTS);
    BalancedExec(Initial(buffer), rs, serverFd);
    StatusesPartition(Exec(Initial(buffer), rs, serverFd).conns);
  }

  lemma {:induction false} NoneTaken(n: nat)
    ensures Taken(seq(n, i => 0)) == 0
  {
    if n > 0 {
      NoneTaken(n - 1);
      assert seq(n, i => 0)[..n - 1] == seq(n - 1, i => 0);
    }
  }

  // ---- the code ----

  class Server {
    const serverFd: int
    const clientFd: array<int>
    const buffer: array<u8>
    ghost var owner: seq<nat>
    ghost var conns: seq<Conn>

    ghost predicate Valid()
      reads this, clientFd, buffer
    {
      && clientFd.Length == MAX_CLIENTS && buffer.Length == BUFFER_SIZE && serverFd >= 0
      && |owner| == MAX_CLIENTS && Inv(State(), serverFd)
    }

    ghost function State(): Echo
      reads this, clientFd, buffer
    {
      Echo(clientFd[..], owner, conns, buffer[..])
    }

    constructor (serverFd: int)
      requires serverFd >= 0
      ensures Valid() && State() == Initial(buffer[..]) && this.serverFd == serverFd
      ensures fresh(clientFd) && fresh(buffer)
    {
      this.serverFd := serverFd;
      clientFd := new int[MAX_CLIENTS];
      buffer := new u8[BUFFER_SIZE];
      owner := seq(MAX_CLIENTS, i => 0);
      conns := [];
      new;
      var i := 0;
      while i < MAX_CLIENTS
        invariant 0 <= i <= MAX_CLIENTS && owner == seq(MAX_CLIENTS, i => 0) && conns == []
        invariant forall k :: 0 <= k < i ==> clientFd[k] == 0
      {
        clientFd[i] := 0;
        i := i + 1;
      }
      assert clientFd[..] == seq(MAX_CLIENTS, i => 0);
    }

    /** The registration loop: what is watched, and the bound that `select` needs. */
    method Register() returns (fds: set<int>, maxFd: int)
      requires Valid()
      ensures fds == Watched(clientFd[..], serverFd)
      ensures forall fd :: fd in fds <==> fd == serverFd || (fd > 0 && fd in clientFd[..])
      ensures maxFd in fds && forall fd :: fd in fds ==> fd <= maxFd
    {
      fds, maxFd := {serverFd}, serverFd;
      var i := 0;
      assert clientFd[..0] == [];
      while i < MAX_CLIENTS
        invariant 0 <= i <= MAX_CLIENTS && maxFd >= serverFd
        invariant fds == Watched(clientFd[..i], serverFd)
        invariant maxFd in fds && forall fd :: fd in fds ==> fd <= maxFd
      {
        WatchedSnoc(clientFd[..i], clientFd[i], serverFd);
        assert clientFd[..i + 1] == clientFd[..i] + [clientFd[i]];
        if clientFd[i] > 0 {
          fds := fds + {clientFd[i]};
        }
        if clientFd[i] > maxFd {
          maxFd := clientFd[i];
        }
        i := i + 1;
      }
      assert clientFd[..MAX_CLIENTS] == clientFd[..];
    }

    /** The slot search after `accept`; a descriptor that finds no slot is simply forgotten. */
    method Store(newFd: int)
      requires Valid() && Fresh(State(), newFd, serverFd)
      modifies this, clientFd
      ensures Valid() && State() == Accept(old(State()), newFd)
      ensures 0 !in old(clientFd[..]) ==> clientFd[..] == old(clientFd[..])
      ensures forall i :: 0 <= i < MAX_CLIENTS && old(clientFd[i]) == 0 && 0 !in old(clientFd[..i]) ==>
                clientFd[..] == old(clientFd[..])[i := newFd]
    {
      ghost var s := State();
      var i := 0;
      while i < MAX_CLIENTS && clientFd[i] != 0
        invariant 0 <= i <= MAX_CLIENTS && State() == s
        invariant forall k :: 0 <= k < i ==> clientFd[k] != 0
      {
        i := i + 1;
      }
      assert i == FirstFree(s.slots);
      AcceptStep(s, newFd, serverFd);
      if i < MAX_CLIENTS {
        clientFd[i] := newFd;
        owner := owner[i := |conns|];
        conns := conns + [Conn(newFd, [], [], Tracked)];
      } else {
        conns := conns + [Conn(newFd, [], [], Untracked)];
      }
    }

    /** `recv` of at most BUFFER_SIZE - 1 bytes into the front of the buffer. */
    method Recv(data: seq<u8>) returns (bytes: nat)
      requires buffer.Length == BUFFER_SIZE && |data| < BUFFER_SIZE
      modifies buffer
      ensures bytes == |data| && buffer[..] == data + old(buffer[|data|..])
    {
      bytes := 0;
      while bytes < |data|
        invariant bytes <= |data| && buffer[..bytes] == data[..bytes]
        invariant buffer[bytes..] == old(buffer[bytes..])
      {
        buffer[bytes] := data[bytes];
        bytes := bytes + 1;
      }
      assert buffer[..] == buffer[..bytes] + buffer[bytes..];
    }

    method ServeOne(i: nat, r: Round)
      requires Valid() && i < MAX_CLIENTS
      modifies this, clientFd, buffer
      ensures Valid() && State() == ServeSlot(old(State()), i, r)
      ensures var fd := old(clientFd[i]);
              if fd <= 0 || fd !in r.ready then State() == old(State())
              else if |r.waiting(fd)| == 0
              then clientFd[..] == old(clientFd[..])[i := 0] && buffer[..] == old(buffer[..])
              else && clientFd[..] == old(clientFd[..])
                   && buffer[..] == First(r.waiting(fd)) + [0] + old(buffer[..])[|First(r.waiting(fd))| + 1..]
    {
      ghost var s := State();
      ServeStep(s, i, r, serverFd);
      if clientFd[i] > 0 && clientFd[i] in r.ready {
        assert Serves(s, i, owner[i]);
        ghost var c := conns[owner[i]];
        var data := Received(r, clientFd[i]);
        var bytes := Recv(data);
        if bytes <= 0 {
          conns := conns[owner[i] := c.(status := Closed)];
          clientFd[i] := 0;
          assert buffer[..] == s.buffer;
        } else {
          buffer[bytes] := 0;
          assert buffer[..] == Fill(s.buffer, data);
          conns := conns[owner[i] := c.(input := c.input + data, output := c.output + buffer[..bytes])];
        }
      }
    }

    /** The loop over the slots. */
    method ServeClients(r: Round)
      requires Valid()
      modifies this, clientFd, buffer
      ensures Valid() && State() == ServeUpTo(old(State()), MAX_CLIENTS, r)
    {
      ghost var s := State();
      var i := 0;
      while i < MAX_CLIENTS
        invariant 0 <= i <= MAX_CLIENTS && Valid() && State() == ServeUpTo(s, i, r)
      {
        ServeOne(i, r);
        i := i + 1;
      }
    }

    /** The loop body after `select`; returns without serving anybody when `accept` fails. */
    method PlayRound(r: Round)
      requires Valid() && Plausible(State(), r, serverFd)
      modifies this, clientFd, buffer
      ensures Valid() && State() == Play(old(State()), r, serverFd)
    {
      if serverFd in r.ready {
        if r.newFd < 0 {
          return;
        }
        Store(r.newFd);
      }
      ServeClients(r);
    }
  }
}
