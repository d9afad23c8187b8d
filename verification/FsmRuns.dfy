/** Runs of the event machine that violate what one might expect of it. */
module FsmRuns {
  import opened FsmModel
  import opened FsmSystem
  import opened Led

  // ---- steps and short stretches of runs ----

  lemma {:induction false} RunsConcat(s: Sys, ls: seq<Label>, l: Label)
    requires Runs(s, ls) && Enabled(Exec(s, ls), l)
    ensures Runs(s, ls + [l]) && Exec(s, ls + [l]) == Next(Exec(s, ls), l)
    decreases |ls|
  {
    if ls == [] {
      assert ls + [l] == [l] && [l][1..] == [];
    } else {
      RunsConcat(Next(s, ls[0]), ls[1..], l);
      assert (ls + [l])[1..] == ls[1..] + [l];
    }
  }

  /** A set of states that holds an initial one and whatever a step makes of its members. */
  ghost predicate Closed(p: iset<Sys>) {
    Initial(ALL_OFF, ALL_OFF) in p && forall s, l :: s in p && Enabled(s, l) ==> Next(s, l) in p
  }

  /** In all such sets: a form of `Reachable` that says nothing about the labels that led to a state. */
  ghost predicate Attained(s: Sys) {
    forall p :: Closed(p) ==> s in p
  }

  lemma AttainedIsReachable(s: Sys)
    requires Attained(s)
    ensures Reachable(s)
  {
    var p := iset t | Reachable(t);
    assert Reachable(Initial(ALL_OFF, ALL_OFF)) by {
      assert Runs(Initial(ALL_OFF, ALL_OFF), []) && Exec(Initial(ALL_OFF, ALL_OFF), []) == Initial(ALL_OFF, ALL_OFF);
    }
    forall t, l | t in p && Enabled(t, l)
      ensures Next(t, l) in p
    {
      NextIsReachable(t, l);
    }
    assert Closed(p);
  }

  lemma NextIsReachable(s: Sys, l: Label)
    requires Reachable(s) && Enabled(s, l)
    ensures Reachable(Next(s, l))
  {
    var pins: LedRow, ls: seq<Label> :|
      Runs(Initial(ALL_OFF, pins), ls) && s == Exec(Initial(ALL_OFF, pins), ls);
    RunsConcat(Initial(ALL_OFF, pins), ls, l);
  }

  lemma Step(s: Sys, l: Label) returns (t: Sys)
    requires Attained(s) && Enabled(s, l)
    ensures t == Next(s, l) && Attained(t)
  {
    t := Next(s, l);
    forall p | Closed(p)
      ensures t in p
    {
      assert s in p;
    }
  }

  lemma Boot() returns (s: Sys)
    ensures s == Initial(ALL_OFF, ALL_OFF) && Attained(s)
  {
    s := Initial(ALL_OFF, ALL_OFF);
  }

  /** A callback puts an event and submits the work. */
  lemma Posts(s: Sys, e: Evt) returns (t: Sys)
    requires Attained(s) && s.submitting == {} && HasRoom(s) && (IsRole(e) || e.BtnReleased?)
    ensures Attained(t) && t == Put(s, e).(queued := true)
  {
    t := Step(s, Post(0, e));
    t := Step(t, Submit(0));
    assert t.submitting == {};
  }

  lemma Takes(s: Sys, leader: bool) returns (t: Sys)
    requires Attained(s) && s.work == Head && s.queue != []
    ensures Attained(t) && t.queue == s.queue[1..] && t.h.past == s.h.past + [s.queue[0]]
    ensures t.node == NodeAfter(s.node, s.queue[0], leader) && t.work == PcAfter(s.node.state, s.queue[0])
    ensures t.leader == if t.work == Opening then leader else s.leader
    ensures t.queued == s.queued && t.submitting == s.submitting && t.sock == s.sock
    ensures t.rx == s.rx && t.rxQ == s.rxQ && t.h.dropped == s.h.dropped && t.h.lastRole == s.h.lastRole
  {
    t := Step(s, Take(leader));
  }

  /** `t` differs from `s` at most in the handler's own progress through an attach. */
  ghost predicate OnlyAttached(s: Sys, t: Sys) {
    && t.node == s.node.(state := ThreadAttached) && t.work == Head
    && t.rxQ == s.rxQ && t.submitting == s.submitting && t.leader == s.leader
    && t.h.past == s.h.past && t.h.dropped == s.h.dropped && t.h.lastRole == s.h.lastRole
  }

  lemma Assigns(s: Sys) returns (t: Sys)
    requires Attained(s) && s.work == Assign
    ensures Attained(t) && OnlyAttached(s, t)
    ensures t.queue == s.queue && t.queued == s.queued && t.sock == s.sock && t.rx == s.rx
  {
    t := Step(s, SetAttached);
  }

  /** The rest of handling an ATTACHED when socket and bind succeed and the event queue has room. */
  lemma Opens(s: Sys) returns (t: Sys)
    requires Attained(s) && s.work == Opening && HasRoom(s)
    ensures Attained(t) && OnlyAttached(s, t)
    ensures t.queue == s.queue + [Ready] && t.queued && t.sock && t.rx == Receiving
  {
    t := Step(s, Open(true));
    t := PostsItself(t);
    t := Assigns(t);
  }

  lemma PostsItself(s: Sys) returns (t: Sys)
    requires Attained(s) && s.work == Bound && HasRoom(s)
    ensures Attained(t) && t == s.(queue := s.queue + [Ready], queued := true, work := Assign)
  {
    t := Step(s, SelfPut);
    t := Step(t, SelfSubmitted);
  }

  lemma OpenFails(s: Sys) returns (t: Sys)
    requires Attained(s) && s.work == Opening
    ensures Attained(t) && OnlyAttached(s, t)
    ensures t.queue == s.queue && t.queued == s.queued && !t.sock && t.rx == s.rx
  {
    t := Step(s, Open(false));
    t := Assigns(t);
  }

  /** The handler finds the queue empty, returns, runs once more for the pending submission, and returns again. */
  lemma Rests(s: Sys) returns (t: Sys)
    requires Attained(s) && s.work == Head && s.queue == [] && s.queued
    ensures Attained(t) && t == s.(work := Idle, queued := false)
  {
    t := FindsNothing(s);
    t := Step(t, Start);
    t := FindsNothing(t);
  }

  lemma FindsNothing(s: Sys) returns (t: Sys)
    requires Attained(s) && s.work == Head && s.queue == []
    ensures Attained(t) && t == s.(work := Idle)
  {
    t := Step(s, Take(false));
    t := Step(t, Finish);
  }

  /** The button handler posts and submits; nothing else changes. */
  lemma {:induction false} PostButtons(s: Sys, n: nat) returns (t: Sys)
    requires Attained(s) && s.submitting == {} && |s.queue| + n <= EVT_QUEUE_LEN && s.queued
    ensures Attained(t) && |t.queue| == |s.queue| + n
    ensures t == s.(queue := t.queue)
    ensures forall e :: e in t.queue ==> e in s.queue || e.BtnReleased?
    decreases n
  {
    t := s;
    if n > 0 {
      var u := Posts(s, BtnReleased(2));
      t := PostButtons(u, n - 1);
    }
  }

  /** The handler takes everything, and what it takes does not detach. */
  lemma {:induction false} TakeAll(s: Sys) returns (t: Sys)
    requires Attained(s) && s.work == Head && forall e :: e in s.queue ==> e.BtnReleased? || e == Ready
    ensures Attained(t) && t.work == Head && t.queue == []
    ensures t.queued == s.queued && t.submitting == s.submitting && t.rx == s.rx && t.rxQ == s.rxQ
    ensures t.h.lastRole == s.h.lastRole && (s.node.state != ThreadInit ==> t.node.state != ThreadInit)
    decreases |s.queue|
  {
    t := s;
    if s.queue != [] {
      assert s.queue[0] in s.queue;
      var u := Takes(s, false);
      t := TakeAll(u);
    }
  }

  /** The first ATTACHED, up to the open. */
  lemma FirstAttach() returns (s: Sys)
    ensures Attained(s) && s.work == Opening && s.queue == [] && s.rxQ == [] && s.submitting == {}
    ensures s.h.past == [Attached] && s.h.dropped == [] && !s.leader && !s.node.leds[LED_ROLE]
  {
    s := Boot();
    s := Posts(s, Attached);
    s := Step(s, Start);
    s := Takes(s, false);
  }

  // ---- the runs ----

  /**
   * A self-posted UDP_READY can be lost although it was accepted: a DETACHED that arrives while `udp_open`
   * runs is consumed before it. The machine is left in THREAD_INIT with an open socket.
   */
  lemma ReadyBehindDetach() returns (s: Sys)
    ensures Reachable(s) && s.h.past == [Attached, Detached, Ready] && s.queue == []
    ensures s.node.state == ThreadInit && s.sock
  {
    s := FirstAttach();
    s := Posts(s, Detached);
    s := Opens(s);
    assert s.queue == [Detached, Ready];
    s := Takes(s, false);
    assert s.queue == [Ready] && s.node.state == ThreadInit;
    s := Takes(s, false);
    AttainedIsReachable(s);
  }

  /**
   * UDP_READY does not imply a socket: a DETACHED and an ATTACHED posted while `udp_open` runs are consumed
   * before its UDP_READY, the second open fails, and the stale UDP_READY still moves the machine on.
   */
  lemma StaleReadyWithoutSocket() returns (s: Sys)
    ensures Reachable(s) && s.node.state == UdpReady && !s.sock
  {
    s := FirstAttach();
    s := Posts(s, Detached);
    s := Posts(s, Attached);
    s := Opens(s);
    assert s.queue == [Detached, Attached, Ready];
    s := Takes(s, false);
    assert s.queue == [Attached, Ready] && s.node.state == ThreadInit;
    s := Takes(s, false);
    assert s.queue == [Ready];
    s := OpenFails(s);
    s := Takes(s, false);
    AttainedIsReachable(s);
  }

  /** A frame can wait in the frame queue of a system that is completely at rest. */
  lemma StrandedFrame(f: Frame) returns (s: Sys)
    ensures Reachable(s) && s.rxQ == [f] && s.queue == []
    ensures s.work == Idle && !s.queued && s.submitting == {} && s.rx == Receiving
  {
    s := FirstAttach();
    s := Opens(s);
    s := Step(s, RxFrame(f));
    s := PostButtons(s, EVT_QUEUE_LEN - 1);
    s := Step(s, RxPost);
    s := TakeAll(s);
    s := Rests(s);
    AttainedIsReachable(s);
  }

  /** The same without any put having failed: the next session's open cuts the receive thread off. */
  lemma StrandedByReopen(f: Frame) returns (s: Sys)
    ensures Reachable(s) && s.rxQ == [f] && s.queue == [] && s.h.dropped == []
    ensures s.work == Idle && !s.queued && s.submitting == {} && s.rx == Receiving
  {
    s := FirstAttach();
    s := Opens(s);
    s := Step(s, RxFrame(f));
    s := Posts(s, Detached);
    s := Posts(s, Attached);
    assert s.queue == [Ready, Detached, Attached] && s.rx == Posting;
    s := Takes(s, false);
    s := Takes(s, false);
    assert s.queue == [Attached] && s.node.state == ThreadInit && s.work == Head;
    s := Takes(s, false);
    s := Opens(s);
    assert s.queue == [Ready] && s.rxQ == [f];
    s := Takes(s, false);
    s := Rests(s);
    AttainedIsReachable(s);
  }

  /** The device becomes the leader within a session, reports it, and LED_ROLE stays dark. */
  lemma LeaderWithDarkLed() returns (s: Sys)
    ensures Reachable(s) && s.node.state == UdpReady && s.queue == []
    ensures s.h.past == [Attached, Ready, Attached] && s.leader && !s.node.leds[LED_ROLE]
  {
    s := FirstAttach();
    s := Opens(s);
    s := Step(s, Elect(true));
    s := Posts(s, Attached);
    assert s.queue == [Ready, Attached] && s.leader && s.node.state == ThreadAttached;
    s := Takes(s, true);
    assert s.queue == [Attached] && s.node.state == UdpReady;
    s := Takes(s, true);
    AttainedIsReachable(s);
  }

  /** The last role event was DETACHED, everything is at rest, and the machine believes it is attached. */
  lemma AttachedAfterDetach() returns (s: Sys)
    ensures Reachable(s) && s.h.lastRole == RolePosted(Detached, false) && s.node.state != ThreadInit
    ensures s.queue == [] && s.work == Idle && !s.queued && s.submitting == {}
  {
    s := FirstAttach();
    s := Opens(s);
    s := PostButtons(s, EVT_QUEUE_LEN - 1);
    s := Step(s, Post(0, Detached));
    s := TakeAll(s);
    s := Rests(s);
    AttainedIsReachable(s);
  }
}
