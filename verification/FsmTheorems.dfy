/** What every interleaving of the event machine guarantees, and where it falls short. */
module FsmTheorems {
  import opened Common
  import opened Led
  import opened FsmModel
  import opened FsmSystem

  // ---- wake-ups and the frame hand-off ----

  /** No event is ever left in the queue without somebody bound to look for it. */
  lemma NoLostWakeUp(s: Sys)
    requires Reachable(s)
    ensures |s.queue| <= 8
    ensures s.queue != [] ==> WakeUpDue(s)
    ensures s.work == Idle && !s.queued && s.submitting == {} && s.rx != Submitting ==> s.queue == []
  {
    ReachableInv(s);
  }

  /**
   * Handled frames followed by queued frames are the accepted ones in order. While no UDP_RX was lost
   * a waiting frame has somebody bound to drain it, so a system at rest has handled every frame.
   */
  lemma FrameHandoff(s: Sys)
    requires Reachable(s)
    ensures s.h.accepted == s.h.frames + s.rxQ && |s.rxQ| <= 16
    ensures !s.h.rxLost && s.rxQ != [] ==> DrainDue(s)
    ensures (!s.h.rxLost && s.work == Idle && !s.queued && s.submitting == {}
             && s.rx != Submitting && s.rx != Posting) ==> s.h.frames == s.h.accepted
  {
    ReachableInv(s);
  }

  lemma {:induction false} AcceptedGrows(s: Sys, ls: seq<Label>)
    requires Runs(s, ls)
    ensures s.h.accepted <= Exec(s, ls).h.accepted
    decreases |ls|
  {
    if ls != [] {
      AcceptedGrows(Next(s, ls[0]), ls[1..]);
    }
  }

  /** Whatever was dropped, the end of any drain finds every frame handled that was accepted before. */
  lemma DrainHandlesEarlierFrames(s: Sys, ls: seq<Label>)
    requires Reachable(s) && Runs(s, ls)
    requires Exec(s, ls).work == Draining && Next(Exec(s, ls), DrainOne).work == Head
    ensures s.h.accepted <= Exec(s, ls).h.frames
  {
    ReachableInv(s);
    InvExec(s, ls);
    AcceptedGrows(s, ls);
    assert Exec(s, ls).h.frames == Exec(s, ls).h.accepted;
  }

  /**
   * With no UDP_RX queued and no drain running: the put of UDP_RX on a full event queue, and the open that cuts the
   * receive thread off between queueing a frame and announcing it.
   */
  predicate Strands(s: Sys, l: Label) {
    && s.rxQ != [] && Rx !in s.queue && s.work != Draining
    && ((l == RxPost && |s.queue| >= EVT_QUEUE_LEN) || (l == Open(true) && s.rx == Posting))
  }

  /** A waiting frame has somebody bound to drain it. */
  ghost predicate Awaited(s: Sys) {
    s.rxQ != [] ==> DrainDue(s)
  }

  /** Among all steps of all contexts exactly these take the last one away that was bound to drain a frame. */
  lemma FrameStrandedIff(s: Sys, l: Label)
    requires HandoffInv(s) && Enabled(s, l) && Awaited(s)
    ensures !Awaited(Next(s, l)) <==> Strands(s, l)
  {
    if Puts(l) {
      PutKeepsDrain(s, PutEvt(l));
    } else if l.Take? && s.queue != [] {
      assert s.queue == [s.queue[0]] + s.queue[1..];
    }
  }

  predicate StrandsIn(s: Sys, ls: seq<Label>)
    requires Runs(s, ls)
    decreases |ls|
  {
    ls != [] && (Strands(s, ls[0]) || StrandsIn(Next(s, ls[0]), ls[1..]))
  }

  ghost predicate AwaitedThroughout(s: Sys, ls: seq<Label>)
    requires Runs(s, ls)
    decreases |ls|
  {
    Awaited(s) && (ls == [] || AwaitedThroughout(Next(s, ls[0]), ls[1..]))
  }

  /** Over any run of the device every waiting frame is awaited all along exactly when no such step occurs. */
  lemma {:induction false} AwaitedIff(s: Sys, ls: seq<Label>)
    requires HandoffInv(s) && Awaited(s) && Runs(s, ls)
    ensures AwaitedThroughout(s, ls) <==> !StrandsIn(s, ls)
    decreases |ls|
  {
    if ls != [] {
      FrameStrandedIff(s, ls[0]);
      HandoffStep(s, ls[0]);
      if Awaited(Next(s, ls[0])) {
        AwaitedIff(Next(s, ls[0]), ls[1..]);
      }
    }
  }

  lemma PutKeepsDrain(s: Sys, e: Evt)
    ensures Rx in Put(s, e).queue <==> Rx in s.queue || (e == Rx && HasRoom(s))
  {
  }

  // ---- sessions ----

  /** Entries to UDP_READY <= UDP_READY consumed <= successful opens <= entries to THREAD_ATTACHED. */
  lemma SessionAccounting(s: Sys)
    requires Reachable(s)
    ensures s.h.opens == Count(s.h.past, Ready) + Count(s.queue, Ready) + Count(s.h.dropped, Ready)
                       + (if s.work == Bound then 1 else 0)
    ensures s.h.readies <= Count(s.h.past, Ready) <= s.h.opens
    ensures s.h.opens <= s.h.attaches + (if InAttach(s.work) then 1 else 0)
  {
    ReachableInv(s);
  }

  lemma LogStep(s: Sys, l: Label)
    requires Enabled(s, l)
    ensures s.h.past <= Next(s, l).h.past && Log(s) <= Log(Next(s, l))
  {
    if Puts(l) {
      LogPut(s, l);
    } else if l.Take? {
      assert Log(TakeEvt(s, l.leader)) == Log(s);
    } else {
      QuietStep(s, l);
    }
  }

  lemma LogPut(s: Sys, l: Label)
    requires Enabled(s, l) && Puts(l)
    ensures Next(s, l).h.past == s.h.past
    ensures Log(Next(s, l)) == if HasRoom(s) then Log(s) + [PutEvt(l)] else Log(s)
  {
    assert Next(s, l).queue == if HasRoom(s) then s.queue + [PutEvt(l)] else s.queue;
    assert Next(s, l).h.past == s.h.past;
  }

  lemma {:induction false} HistoriesGrow(s: Sys, ls: seq<Label>)
    requires Runs(s, ls)
    ensures s.h.past <= Exec(s, ls).h.past && Log(s) <= Log(Exec(s, ls))
    decreases |ls|
  {
    if ls != [] {
      LogStep(s, ls[0]);
      HistoriesGrow(Next(s, ls[0]), ls[1..]);
    }
  }

  /** Inside one session a UDP_READY, once consumed, fixes the state. */
  lemma {:induction false} ReadyLands(a: seq<Evt>, b: seq<Evt>)
    requires StateOf(a) != ThreadInit && Detached !in b
    ensures StateOf(a + b) == if Ready in b then UdpReady else StateOf(a)
  {
    if b == [] {
      assert a + b == a;
    } else {
      var init, e := b[..|b| - 1], b[|b| - 1];
      assert b == init + [e];
      ReadyLands(a, init);
      assert a + b == (a + init) + [e];
      StateOfSnoc(a + init, e);
      StatesSeen(a);
    }
  }

  lemma {:induction false} StatesSeen(es: seq<Evt>)
    ensures StateOf(es) == ThreadInit || StateOf(es) == ThreadAttached || StateOf(es) == UdpReady
  {
    if es != [] {
      StatesSeen(es[..|es| - 1]);
    }
  }

  /** What `later` has beyond `earlier` holds no `e`. */
  predicate NoneSince(e: Evt, earlier: seq<Evt>, later: seq<Evt>) {
    |earlier| <= |later| && forall i :: |earlier| <= i < |later| ==> later[i] != e
  }

  /** Nothing that `later` has consumed beyond `earlier` is a DETACHED. */
  predicate NoDetachSince(earlier: seq<Evt>, later: seq<Evt>) {
    NoneSince(Detached, earlier, later)
  }

  lemma AtInLog(u: Sys, t: Sys, n: nat, e: Evt)
    requires Log(u) <= Log(t) && |u.h.past| <= n < |Log(u)| && Log(u)[n] == e && n < |t.h.past|
    ensures e in t.h.past[|u.h.past|..]
  {
    assert t.h.past[n] == Log(t)[n];
    assert t.h.past[|u.h.past|..][n - |u.h.past|] == e;
  }

  /**
   * The UDP_READY that `udp_open` posts before the state is assigned still ends in UDP_READY, in every
   * later state in which it has been consumed and no DETACHED has.
   */
  lemma SelfPostLands(s: Sys, ls: seq<Label>)
    requires Reachable(s) && s.work == Bound && HasRoom(s)
    requires Runs(Next(s, SelfPut), ls)
    requires |Exec(Next(s, SelfPut), ls).h.past| > |Log(s)|
    requires NoDetachSince(s.h.past, Exec(Next(s, SelfPut), ls).h.past)
    ensures Exec(Next(s, SelfPut), ls).node.state == UdpReady
  {
    var u := Next(s, SelfPut);
    ReachableStatus(s);
    StatusStep(s, SelfPut);
    LogPut(s, SelfPut);
    HistoriesGrow(u, ls);
    ReadyIffConsumed(u, ls);
    AtInLog(u, Exec(u, ls), |Log(s)|, Ready);
  }

  lemma NoDetachTail(s: Sys, ls: seq<Label>)
    requires Runs(s, ls) && ls != [] && NoDetachSince(s.h.past, Exec(s, ls).h.past)
    ensures ls[0].Take? && s.queue != [] ==> s.queue[0] != Detached
    ensures NoDetachSince(Next(s, ls[0]).h.past, Exec(s, ls).h.past)
  {
    LogStep(s, ls[0]);
    HistoriesGrow(Next(s, ls[0]), ls[1..]);
    if ls[0].Take? && s.queue != [] {
      assert Exec(s, ls).h.past[|s.h.past|] == s.queue[0];
    }
  }

  /** The role after some steps, when nothing but `Elect` changes it. */
  function LastElected(ls: seq<Label>, leader: bool): bool {
    if ls == [] then leader else LastElected(ls[1..], if ls[0].Elect? then ls[0].leader else leader)
  }

  lemma TakeInSession(s: Sys, leader: bool)
    requires StatusInv(s) && StateOf(s.h.past) != ThreadInit && s.work == Head
    requires s.queue != [] ==> s.queue[0] != Detached
    ensures StateOf(TakeEvt(s, leader).h.past) != ThreadInit && TakeEvt(s, leader).h.roles == s.h.roles
    ensures TakeEvt(s, leader).leader == s.leader && TakeEvt(s, leader).sock == s.sock
    ensures TakeEvt(s, leader).work != Opening && TakeEvt(s, leader).work != Bound
  {
    if s.queue != [] {
      StateOfSnoc(s.h.past, s.queue[0]);
    }
  }

  lemma PutInSession(s: Sys, l: Label)
    requires Enabled(s, l) && Puts(l)
    ensures Next(s, l).h.past == s.h.past && Next(s, l).h.roles == s.h.roles
    ensures Next(s, l).leader == s.leader && Next(s, l).sock == s.sock
    ensures s.work != Opening ==> Next(s, l).work != Opening
    ensures s.work != Opening && s.work != Bound ==> Next(s, l).work == s.work
  {
    var p := Put(s, PutEvt(l));
    assert p.h.past == s.h.past && p.h.roles == s.h.roles && p.leader == s.leader && p.sock == s.sock;
    assert p.work == s.work;
  }

  lemma OtherInSession(s: Sys, l: Label)
    requires Enabled(s, l) && !Puts(l) && !l.Take?
    ensures Next(s, l).leader == if l.Elect? then l.leader else s.leader
    ensures s.work != Opening ==> Next(s, l).work != Opening && Next(s, l).sock == s.sock
    ensures s.work != Opening && s.work != Bound ==> Next(s, l).work != Bound
  {
  }

  lemma KeepsSession(s: Sys, l: Label)
    requires StatusInv(s) && StateOf(s.h.past) != ThreadInit && Enabled(s, l)
    requires l.Take? && s.queue != [] ==> s.queue[0] != Detached
    ensures StateOf(Next(s, l).h.past) != ThreadInit && Next(s, l).h.roles == s.h.roles
    ensures Next(s, l).leader == if l.Elect? then l.leader else s.leader
    ensures s.work != Opening ==> Next(s, l).work != Opening && Next(s, l).sock == s.sock
    ensures s.work != Opening && s.work != Bound ==> Next(s, l).work != Bound
  {
    if l.Take? {
      TakeInSession(s, l.leader);
    } else if Puts(l) {
      PutInSession(s, l);
    } else {
      QuietStep(s, l);
      OtherInSession(s, l);
    }
  }

  /** Until a DETACHED is consumed nobody asks for the role again, and a session keeps the socket it opened. */
  lemma {:induction false} DuringSession(s: Sys, ls: seq<Label>)
    requires StatusInv(s) && StateOf(s.h.past) != ThreadInit && Runs(s, ls)
    requires NoDetachSince(s.h.past, Exec(s, ls).h.past)
    ensures StateOf(Exec(s, ls).h.past) != ThreadInit && Exec(s, ls).h.roles == s.h.roles
    ensures Exec(s, ls).leader == LastElected(ls, s.leader)
    ensures s.work != Opening ==> Exec(s, ls).work != Opening && Exec(s, ls).sock == s.sock
    decreases |ls|
  {
    if ls != [] {
      NoDetachTail(s, ls);
      StatusStep(s, ls[0]);
      KeepsSession(s, ls[0]);
      DuringSession(Next(s, ls[0]), ls[1..]);
    }
  }

  /** From an open until the next DETACHED is consumed, the session has a socket exactly if the open succeeded. */
  lemma SocketIffOpened(s: Sys, ok: bool, ls: seq<Label>)
    requires Reachable(s) && s.work == Opening && Runs(Next(s, Open(ok)), ls)
    requires NoDetachSince(s.h.past, Exec(Next(s, Open(ok)), ls).h.past)
    ensures Exec(Next(s, Open(ok)), ls).sock <==> ok
  {
    ReachableStatus(s);
    StatusStep(s, Open(ok));
    DuringSession(Next(s, Open(ok)), ls);
  }

  lemma NothingReady(s: Sys, l: Label)
    requires Enabled(s, l) && s.work != Bound
    ensures NoneSince(Ready, Log(s), Log(Next(s, l)))
  {
    if Puts(l) {
      LogPut(s, l);
    } else if l.Take? {
      assert Log(TakeEvt(s, l.leader)) == Log(s);
    } else {
      QuietStep(s, l);
    }
  }

  /** Only an open posts UDP_READY. */
  lemma {:induction false} NoReadyPosted(s: Sys, ls: seq<Label>)
    requires StatusInv(s) && StateOf(s.h.past) != ThreadInit && s.work != Opening && s.work != Bound && Runs(s, ls)
    requires NoDetachSince(s.h.past, Exec(s, ls).h.past)
    ensures NoneSince(Ready, Log(s), Log(Exec(s, ls)))
    decreases |ls|
  {
    if ls != [] {
      var u := Next(s, ls[0]);
      NoDetachTail(s, ls);
      StatusStep(s, ls[0]);
      KeepsSession(s, ls[0]);
      NothingReady(s, ls[0]);
      NoReadyPosted(u, ls[1..]);
      HistoriesGrow(u, ls[1..]);
    }
  }

  /** During a session the state is UDP_READY exactly when a UDP_READY has been consumed in it. */
  lemma ReadyIffConsumed(s: Sys, ls: seq<Label>)
    requires StatusInv(s) && InAttach(s.work) && Runs(s, ls)
    requires NoDetachSince(s.h.past, Exec(s, ls).h.past)
    ensures Exec(s, ls).node.state == UdpReady <==> Ready in Exec(s, ls).h.past[|s.h.past|..]
  {
    var t := Exec(s, ls);
    StatusExec(s, ls);
    HistoriesGrow(s, ls);
    var rest := t.h.past[|s.h.past|..];
    assert t.h.past == s.h.past + rest;
    assert Detached !in rest;
    ReadyLands(s.h.past, rest);
  }

  /**
   * UDP_READY without a socket: until the next DETACHED is consumed, it is the state exactly when the open
   * failed and a UDP_READY that was already queued at the open has been consumed.
   */
  lemma ReadyWithoutSocketIff(s: Sys, ok: bool, ls: seq<Label>)
    requires Reachable(s) && s.work == Opening && Runs(Next(s, Open(ok)), ls)
    requires NoDetachSince(s.h.past, Exec(Next(s, Open(ok)), ls).h.past)
    ensures var t := Exec(Next(s, Open(ok)), ls);
            t.node.state == UdpReady && !t.sock
            <==> !ok && Ready in s.queue[..Min(|s.queue|, |t.h.past| - |s.h.past|)]
  {
    var u := Next(s, Open(ok));
    SocketIffOpened(s, ok, ls);
    if !ok {
      ReachableStatus(s);
      StatusStep(s, Open(ok));
      ReadyIffConsumed(u, ls);
      NoReadyPosted(u, ls);
      HistoriesGrow(u, ls);
      ReadyFromBefore(s.h.past, s.queue, Exec(u, ls).h.past, Exec(u, ls).queue);
    }
  }

  /** If nothing new in the log is a UDP_READY, the consumed ones were queued before. */
  lemma ReadyFromBefore(past: seq<Evt>, queue: seq<Evt>, past2: seq<Evt>, queue2: seq<Evt>)
    requires past <= past2 && past + queue <= past2 + queue2
    requires NoneSince(Ready, past + queue, past2 + queue2)
    ensures Ready in past2[|past|..] <==> Ready in queue[..Min(|queue|, |past2| - |past|)]
  {
    var rest, n := past2[|past|..], Min(|queue|, |past2| - |past|);
    forall i | 0 <= i < |rest|
      ensures i < n ==> rest[i] == queue[..n][i]
      ensures i >= n ==> rest[i] != Ready
    {
      assert rest[i] == (past2 + queue2)[|past| + i];
      assert i < n ==> (past + queue)[|past| + i] == queue[i];
    }
  }

  /**
   * Which state the accepted UDP_READY leaves when it is consumed is settled by the events queued before it:
   * UDP_READY, unless the last role event among them is DETACHED.
   */
  lemma SelfPostOutcome(s: Sys, ls: seq<Label>)
    requires Reachable(s) && s.work == Bound && HasRoom(s)
    requires Runs(Next(s, SelfPut), ls)
    requires Exec(Next(s, SelfPut), ls).h.past == Log(s) + [Ready]
    ensures Exec(Next(s, SelfPut), ls).node.state == UdpReady <==> LastRole(s.queue) != Some(Detached)
  {
    var u := Next(s, SelfPut);
    var t := Exec(u, ls);
    ReachableStatus(s);
    StatusStep(s, SelfPut);
    StatusExec(u, ls);
    StateOfSnoc(Log(s), Ready);
    InitIffDetachedLast(Log(s));
    InitIffDetachedLast(s.h.past);
    LastRoleConcat(s.h.past, s.queue);
    StatesSeen(Log(s));
  }

  lemma {:induction false} LastRoleConcat(a: seq<Evt>, b: seq<Evt>)
    ensures LastRole(a + b) == if LastRole(b) == None then LastRole(a) else LastRole(b)
    ensures LastRole(b) == None || LastRole(b) == Some(Attached) || LastRole(b) == Some(Detached)
  {
    if b == [] {
      assert a + b == a;
    } else {
      assert (a + b)[..|a + b| - 1] == a + b[..|b| - 1];
      LastRoleConcat(a, b[..|b| - 1]);
    }
  }

  // ---- reset, role agreement, LEDs ----

  lemma {:induction false} DetachedResets(a: seq<Evt>, b: seq<Evt>)
    ensures StateOf(a + [Detached] + b) == StateOf(b)
  {
    if b == [] {
      assert a + [Detached] + b == a + [Detached];
      StateOfSnoc(a, Detached);
    } else {
      var init, e := b[..|b| - 1], b[|b| - 1];
      assert b == init + [e];
      assert a + [Detached] + b == (a + [Detached] + init) + [e];
      DetachedResets(a, init);
      StateOfSnoc(a + [Detached] + init, e);
      StateOfSnoc(init, e);
    }
  }

  /**
   * State and status LEDs depend only on the events since the last DETACHED and, once these have opened a
   * session, on the answer of its role query.
   */
  lemma ResetForgets(s: Sys, t: Sys, a: seq<Evt>, c: seq<Evt>, b: seq<Evt>)
    requires Reachable(s) && Reachable(t) && !InAttach(s.work) && !InAttach(t.work)
    requires s.h.past == a + [Detached] + b && t.h.past == c + [Detached] + b
    requires StateOf(b) != ThreadInit && s.h.roles != [] && t.h.roles != [] ==>
               s.h.roles[|s.h.roles| - 1] == t.h.roles[|t.h.roles| - 1]
    ensures s.node.state == t.node.state
    ensures s.node.leds[LED_THREAD] == t.node.leds[LED_THREAD]
    ensures s.node.leds[LED_ROLE] == t.node.leds[LED_ROLE]
  {
    ReachableStatus(s);
    ReachableStatus(t);
    DetachedResets(a, b);
    DetachedResets(c, b);
  }

  /**
   * Between events LED_THREAD is on exactly in THREAD_ATTACHED and UDP_READY, LED_ROLE implies it,
   * and shows the answer of the role query that opened the session.
   */
  lemma StatusLeds(s: Sys)
    requires Reachable(s) && !InAttach(s.work)
    ensures s.node.leds[LED_THREAD] <==> s.node.state == ThreadAttached || s.node.state == UdpReady
    ensures s.node.leds[LED_ROLE] ==> s.node.leds[LED_THREAD]
    ensures s.node.leds[LED_THREAD] ==> s.h.roles != [] && s.node.leds[LED_ROLE] == s.h.roles[|s.h.roles| - 1]
  {
    ReachableStatus(s);
    StatesSeen(s.h.past);
  }

  /** During a session LED_ROLE shows the answer of the query that opened it. */
  lemma SessionShowsQuery(s: Sys, ls: seq<Label>)
    requires StatusInv(s) && StateOf(s.h.past) != ThreadInit && Runs(s, ls)
    requires NoDetachSince(s.h.past, Exec(s, ls).h.past)
    ensures s.h.roles != [] && Exec(s, ls).node.leds[LED_ROLE] == s.h.roles[|s.h.roles| - 1]
    ensures Exec(s, ls).leader == LastElected(ls, s.leader)
  {
    DuringSession(s, ls);
    StatusExec(s, ls);
  }

  /** Outside THREAD_INIT, LED_ROLE is frozen until a DETACHED is consumed, whatever is attached or elected. */
  lemma RoleLedFrozen(s: Sys, ls: seq<Label>)
    requires Reachable(s) && (s.node.state != ThreadInit || InAttach(s.work)) && Runs(s, ls)
    requires NoDetachSince(s.h.past, Exec(s, ls).h.past)
    ensures Exec(s, ls).node.leds[LED_ROLE] == s.node.leds[LED_ROLE]
  {
    ReachableStatus(s);
    SessionShowsQuery(s, ls);
  }

  lemma QueryRecorded(s: Sys, leader: bool)
    requires TakeEvt(s, leader).work == Opening
    ensures TakeEvt(s, leader).leader == leader && TakeEvt(s, leader).h.roles == s.h.roles + [leader]
  {
  }

  lemma AttachIsSession(u: Sys)
    requires StatusInv(u) && u.work == Opening
    ensures StateOf(u.h.past) != ThreadInit
  {
  }

  lemma QueryOpens(s: Sys, leader: bool)
    requires StatusInv(s) && s.work == Head && Next(s, Take(leader)).work == Opening
    ensures var u := Next(s, Take(leader));
            && StatusInv(u) && StateOf(u.h.past) != ThreadInit && u.leader == leader
            && u.h.roles != [] && u.h.roles[|u.h.roles| - 1] == leader
  {
    StatusStep(s, Take(leader));
    AttachIsSession(Next(s, Take(leader)));
    QueryRecorded(s, leader);
  }

  /**
   * From the ATTACHED that opens a session until the next DETACHED is consumed, LED_ROLE shows the role the
   * device has exactly when the last election, if there was one, gave it the role it had at that ATTACHED.
   */
  lemma RoleLedFollowsIff(s: Sys, leader: bool, u: Sys, ls: seq<Label>)
    requires Reachable(s) && Enabled(s, Take(leader)) && u == Next(s, Take(leader)) && u.work == Opening
    requires Runs(u, ls) && NoDetachSince(u.h.past, Exec(u, ls).h.past)
    ensures Exec(u, ls).leader == LastElected(ls, leader)
    ensures Exec(u, ls).node.leds[LED_ROLE] == Exec(u, ls).leader <==> LastElected(ls, leader) == leader
  {
    ReachableStatus(s);
    QueryOpens(s, leader);
    SessionShowsQuery(u, ls);
  }

  lemma {:induction false} InitIffDetachedLast(es: seq<Evt>)
    ensures StateOf(es) == ThreadInit <==> LastRole(es) != Some(Attached)
  {
    if es != [] {
      InitIffDetachedLast(es[..|es| - 1]);
    }
  }

  /** The state is what the last posted role event asks for; before the first one it is THREAD_INIT. */
  predicate FollowsRole(s: Sys) {
    s.node.state == ThreadInit <==> s.h.lastRole.NoPost? || s.h.lastRole.e == Detached
  }

  /**
   * With an empty queue the state follows the last role event if that was accepted or there was none. If it was
   * dropped, the state follows it exactly when the accepted ones leave the same state: for an ATTACHED when the last
   * accepted one is ATTACHED too, for a DETACHED when it is DETACHED or there is none.
   */
  lemma RoleAgreement(s: Sys)
    requires Reachable(s) && !InAttach(s.work) && s.queue == []
    ensures s.h.lastRole.NoPost? || s.h.lastRole.ok ==> FollowsRole(s)
    ensures s.h.lastRole == RolePosted(Attached, false) ==> (FollowsRole(s) <==> LastRole(s.h.past) == Some(Attached))
    ensures s.h.lastRole == RolePosted(Detached, false) ==>
              (FollowsRole(s) <==> LastRole(s.h.past) == Some(Detached) || LastRole(s.h.past) == None)
  {
    ReachableInv(s);
    assert Log(s) == s.h.past;
    InitIffDetachedLast(s.h.past);
    LastRoleConcat([], s.h.past);
  }

  /**
   * LED_RX is the fold of the handled frames. The i-th message goes on the air as type 1, sequence number i modulo
   * 256 and 62 zero bytes; the counter and LED_TX count the messages.
   */
  lemma FramesAndSends(s: Sys)
    requires Reachable(s)
    ensures s.node.leds[LED_RX] == RxLight(s.h.frames)
    ensures forall i :: 0 <= i < |s.node.sent| ==> OnTheAir(s.node.sent[i].msg, i)
    ensures s.node.seqNo == |s.node.sent| % 256 && s.node.leds[LED_TX] == (|s.node.sent| % 2 == 1)
  {
    ReachableInv(s);
    forall i | 0 <= i < |s.node.sent|
      ensures OnTheAir(s.node.sent[i].msg, i)
    {
      assert s.node.sent[i].msg == Msg(1, i % 256, 0, Zeros(60));
    }
  }

  /** A step sends exactly when it takes button 1 or 2 in UDP_READY: one message, to one or to all. */
  lemma SendsExactlyWhenReady(s: Sys, l: Label)
    requires Reachable(s) && Enabled(s, l)
    ensures Next(s, l).node.sent
         == s.node.sent + if l.Take? && Sends(s)
                          then [Packet(s.queue[0] == BtnReleased(1), Msg(1, s.node.seqNo, 0, Zeros(60)))] else []
  {
    if l.Take? {
      TakeSends(s, l.leader);
    } else {
      SentUntouched(s, l);
    }
  }

  ghost predicate OnTheAir(m: Msg, i: nat) {
    m.Valid() && Encode(m) == [1, i % 256, 0, 0] + Zeros(60)
  }

  /** The button presses that send, with whether they send to all: buttons 1 and 2, released in UDP_READY. */
  function Presses(es: seq<Evt>): seq<bool> {
    if es == [] then [] else
      var init, e := es[..|es| - 1], es[|es| - 1];
      Presses(init) + if StateOf(init) != UdpReady then []
                      else if e == BtnReleased(0) then [false]
                      else if e == BtnReleased(1) then [true]
                      else []
  }

  ghost predicate PressInv(s: Sys) {
    |s.node.sent| == |Presses(s.h.past)| && forall i :: 0 <= i < |s.node.sent| ==>
      s.node.sent[i].multicast == Presses(s.h.past)[i]
  }

  predicate Sends(s: Sys) {
    && s.node.state == UdpReady && s.queue != []
    && (s.queue[0] == BtnReleased(0) || s.queue[0] == BtnReleased(1))
  }

  lemma TakeSends(s: Sys, leader: bool)
    ensures TakeEvt(s, leader).node.sent
         == s.node.sent + if Sends(s) then [Packet(s.queue[0] == BtnReleased(1), Msg(1, s.node.seqNo, 0, Zeros(60)))]
                          else []
  {
  }

  lemma PressTake(s: Sys, leader: bool)
    requires StatusInv(s) && PressInv(s) && s.work == Head
    ensures PressInv(TakeEvt(s, leader))
  {
    if s.queue != [] {
      var e, t := s.queue[0], TakeEvt(s, leader);
      assert t.h.past[..|s.h.past|] == s.h.past;
      TakeSends(s, leader);
    }
  }

  lemma SentUntouched(s: Sys, l: Label)
    requires Enabled(s, l) && !l.Take?
    ensures Next(s, l).node.sent == s.node.sent && Next(s, l).h.past == s.h.past
  {
    if Puts(l) {
      LogPut(s, l);
    } else {
      QuietStep(s, l);
    }
    if !l.DrainOne? && !l.SetAttached? {
      NodeUntouched(s, l);
    }
  }

  lemma {:induction false} PressExec(s: Sys, ls: seq<Label>)
    requires StatusInv(s) && PressInv(s) && Runs(s, ls)
    ensures PressInv(Exec(s, ls))
    decreases |ls|
  {
    if ls != [] {
      StatusStep(s, ls[0]);
      if ls[0].Take? {
        PressTake(s, ls[0].leader);
      } else {
        SentUntouched(s, ls[0]);
      }
      PressExec(Next(s, ls[0]), ls[1..]);
    }
  }

  /** What has been sent are exactly the presses of buttons 1 and 2 consumed in UDP_READY, in order. */
  lemma SentArePresses(s: Sys)
    requires Reachable(s)
    ensures |s.node.sent| == |Presses(s.h.past)|
    ensures forall i :: 0 <= i < |s.node.sent| ==>
              s.node.sent[i].multicast == Presses(s.h.past)[i] && OnTheAir(s.node.sent[i].msg, i)
  {
    var pins: LedRow, ls: seq<Label> :|
      Runs(Initial(ALL_OFF, pins), ls) && s == Exec(Initial(ALL_OFF, pins), ls);
    PressExec(Initial(ALL_OFF, pins), ls);
    FramesAndSends(s);
  }

  ghost predicate PinShown(n: Node, led: nat)
    requires led < LED_COUNT
  {
    n.pins[led] == n.leds[led]
  }

  lemma PinsAfterEvent(n: Node, e: Evt, leader: bool, led: nat)
    requires led < LED_COUNT && PinShown(n, led)
    ensures PinShown(NodeAfter(n, e, leader), led)
  {
  }

  lemma PinsAfterFrame(s: Sys, led: nat)
    requires s.work == Draining && led < LED_COUNT && PinShown(s.node, led)
    ensures PinShown(Next(s, DrainOne).node, led)
  {
  }

  lemma PinsStep(s: Sys, l: Label, led: nat)
    requires Enabled(s, l) && led < LED_COUNT && PinShown(s.node, led)
    ensures PinShown(Next(s, l).node, led)
  {
    if l.Take? && s.queue != [] {
      PinsAfterEvent(s.node, s.queue[0], l.leader, led);
    } else if l.DrainOne? {
      PinsAfterFrame(s, led);
    } else if !l.Take? && !l.SetAttached? {
      NodeUntouched(s, l);
    }
  }

  lemma {:induction false} PinsFollow(s: Sys, ls: seq<Label>, led: nat)
    requires Runs(s, ls) && led < LED_COUNT && PinShown(s.node, led)
    ensures PinShown(Exec(s, ls).node, led)
    decreases |ls|
  {
    if ls != [] {
      PinsStep(s, ls[0], led);
      PinsFollow(Next(s, ls[0]), ls[1..], led);
    }
  }

  /** After a successful LED initialisation the shadow array is the truth, in every run. */
  lemma ShadowIsHardware(ls: seq<Label>)
    requires Runs(Initial(ALL_OFF, ALL_OFF), ls)
    ensures Exec(Initial(ALL_OFF, ALL_OFF), ls).node.pins == Exec(Initial(ALL_OFF, ALL_OFF), ls).node.leds
  {
    var n := Exec(Initial(ALL_OFF, ALL_OFF), ls).node;
    forall led: nat | led < LED_COUNT
      ensures n.pins[led] == n.leds[led]
    {
      PinsFollow(Initial(ALL_OFF, ALL_OFF), ls, led);
    }
  }
}
