/** The work handler with nobody else moving: it stops, it leaves nothing, and it is the method of the class. */
module FsmHandler {
  import opened FsmModel
  import opened FsmSystem

  predicate Own(l: Label) {
    match l
    case Start => true
    case Take(_) => true
    case Open(_) => true
    case SelfPut => true
    case SelfSubmitted => true
    case SetAttached => true
    case DrainOne => true
    case Finish => true
    case _ => false
  }

  function PcRank(w: WorkPc): nat {
    match w
    case Opening => 6
    case Bound => 5
    case SelfSubmit => 4
    case Assign => 3
    case Draining => 3
    case Head => 2
    case SawEmpty => 1
    case Idle => 0
  }

  /** What the handler can still post to itself. */
  function SelfPosts(w: WorkPc): nat {
    match w
    case Opening => 3
    case Bound => 3
    case SelfSubmit => 1
    case _ => 0
  }

  function Budget(s: Sys): nat {
    2 * Weight(s.queue) + SelfPosts(s.work) + if s.queued then 1 else 0
  }

  function Rank(s: Sys): nat {
    200 * Budget(s) + 20 * PcRank(s.work) + |s.rxQ|
  }

  lemma TakeLowersRank(s: Sys, leader: bool)
    requires s.work == Head
    ensures Rank(TakeEvt(s, leader)) < Rank(s)
  {
  }

  lemma SelfPutLowersRank(s: Sys)
    requires s.work == Bound
    ensures Rank(Next(s, SelfPut)) < Rank(s)
  {
    WeightAppend(s.queue, Ready);
    assert Weight([Ready]) == 1 by { assert [Ready][1..] == []; }
  }

  lemma OwnStepLowersRank(s: Sys, l: Label)
    requires Own(l) && Enabled(s, l)
    ensures Rank(Next(s, l)) < Rank(s)
  {
    if l.Take? {
      TakeLowersRank(s, l.leader);
    } else if l == SelfPut {
      SelfPutLowersRank(s);
    } else {
      assert Next(s, l).queue == s.queue;
    }
  }

  /** With no producer the handler stops, however often it re-posts and is re-submitted. */
  lemma {:induction false} HandlerTerminates(s: Sys, ls: seq<Label>)
    requires Runs(s, ls) && forall l | l in ls :: Own(l)
    ensures |ls| + Rank(Exec(s, ls)) <= Rank(s)
    decreases |ls|
  {
    if ls != [] {
      OwnStepLowersRank(s, ls[0]);
      HandlerTerminates(Next(s, ls[0]), ls[1..]);
    }
  }

  /** When the handler has stopped and nobody is in the middle of a post, no event is left. */
  lemma HandlerLeavesNothing(s: Sys, ls: seq<Label>)
    requires Reachable(s) && Runs(s, ls) && forall l | l in ls :: Own(l)
    requires s.submitting == {} && s.rx != Submitting
    requires Exec(s, ls).work == Idle && !Exec(s, ls).queued
    ensures Exec(s, ls).queue == []
    ensures !Exec(s, ls).h.rxLost && Exec(s, ls).rx != Posting ==> Exec(s, ls).h.frames == Exec(s, ls).h.accepted
  {
    ReachableInv(s);
    InvExec(s, ls);
    OwnStepsLeaveProducers(s, ls);
  }

  lemma {:induction false} OwnStepsLeaveProducers(s: Sys, ls: seq<Label>)
    requires Runs(s, ls) && forall l | l in ls :: Own(l)
    ensures Exec(s, ls).submitting == s.submitting
    ensures s.rx != Submitting ==> Exec(s, ls).rx != Submitting
    decreases |ls|
  {
    if ls != [] {
      assert Own(ls[0]);
      OwnStepsLeaveProducers(Next(s, ls[0]), ls[1..]);
    }
  }

  /** The atomic step the handler takes next, with the answers of `env`. */
  function OwnLabel(s: Sys, env: nat -> Answer): (l: Label)
    requires s.work != Idle
    ensures Own(l) && Enabled(s, l)
  {
    var a := env(s.h.attaches);
    match s.work
    case Head => Take(a.leader)
    case Opening => Open(a.socketOk && a.bindOk)
    case Bound => SelfPut
    case SelfSubmit => SelfSubmitted
    case Assign => SetAttached
    case Draining => DrainOne
    case SawEmpty => Finish
  }

  /** The handler from where it is to the end of its run, nobody else moving. */
  function RunAlone(s: Sys, env: nat -> Answer): Sys
    decreases Rank(s)
  {
    if s.work == Idle then s else
      OwnStepLowersRank(s, OwnLabel(s, env));
      RunAlone(Next(s, OwnLabel(s, env)), env)
  }

  function View(s: Sys): Machine {
    Machine(s.node, s.queue, s.rxQ, s.queued, s.h.attaches)
  }

  /** The two kernel calls of `fsm_evt_post` in one context; the second only if the first succeeded. */
  function PostAlone(s: Sys, pid: nat, e: Evt): Sys
    requires Enabled(s, Post(pid, e))
  {
    var t := Next(s, Post(pid, e));
    if pid in t.submitting then Next(t, Submit(pid)) else t
  }

  /**
   * A post run alone: with fewer than eight events queued the event is last and the work pending, otherwise nothing
   * changes and nothing is submitted. That is `PostEvt`.
   */
  lemma PostIsAtomic(s: Sys, pid: nat, e: Evt)
    requires Enabled(s, Post(pid, e))
    ensures View(PostAlone(s, pid, e))
         == if |s.queue| < 8 then View(s).(evtQ := s.queue + [e], queued := true) else View(s)
    ensures View(PostAlone(s, pid, e)) == PostEvt(View(s), e) && PostAlone(s, pid, e).submitting == s.submitting
  {
    var t := Next(s, Post(pid, e));
    assert t.node == s.node && t.queue == if HasRoom(s) then s.queue + [e] else s.queue;
    assert t.submitting == if HasRoom(s) then s.submitting + {pid} else s.submitting;
    assert s.submitting + {pid} - {pid} == s.submitting;
  }

  /** One turn of the receive thread: frame put, UDP_RX put, submission, each only after the one before succeeded. */
  function ReceiveAlone(s: Sys, f: Frame): Sys
    requires s.rx == Receiving
  {
    var t := Next(s, RxFrame(f));
    if t.rx != Posting then t else
      var u := Next(t, RxPost);
      if u.rx == Submitting then Next(u, RxSubmit) else u
  }

  /**
   * One turn run alone: with fewer than 16 frames queued the frame is last and UDP_RX is posted, otherwise nothing
   * changes.
   */
  lemma ReceiveIsAtomic(s: Sys, f: Frame)
    requires s.rx == Receiving
    ensures ReceiveAlone(s, f).rx == Receiving
    ensures View(ReceiveAlone(s, f))
         == if |s.rxQ| >= 16 then View(s)
            else if |s.queue| < 8 then View(s).(rxQ := s.rxQ + [f], evtQ := s.queue + [Rx], queued := true)
            else View(s).(rxQ := s.rxQ + [f])
    ensures View(ReceiveAlone(s, f)) == if |s.rxQ| >= 16 then View(s) else PostEvt(View(s).(rxQ := s.rxQ + [f]), Rx)
  {
    var t := Next(s, RxFrame(f));
    if t.rx == Posting {
      assert View(t) == View(s).(rxQ := s.rxQ + [f]);
      var u := Next(t, RxPost);
      assert View(u) == View(t).(evtQ := u.queue) && u.queue == if HasRoom(t) then t.queue + [Rx] else t.queue;
    }
  }

  lemma OneOwnStep(s: Sys, env: nat -> Answer) returns (t: Sys)
    requires s.work != Idle
    ensures t == Next(s, OwnLabel(s, env)) && RunAlone(s, env) == RunAlone(t, env)
  {
    t := Next(s, OwnLabel(s, env));
  }

  function Drained(s: Sys): Sys {
    s.(work := Head, node := HandleFrames(s.node, s.rxQ), rxQ := [],
       h := s.h.(frames := s.h.frames + s.rxQ))
  }

  lemma DrainedStep(s: Sys)
    requires s.work == Draining && s.rxQ != []
    ensures Next(s, DrainOne).work == Draining && Drained(Next(s, DrainOne)) == Drained(s)
  {
    assert s.h.frames + [s.rxQ[0]] + s.rxQ[1..] == s.h.frames + s.rxQ;
  }

  lemma {:induction false} DrainLoop(s: Sys, env: nat -> Answer)
    requires s.work == Draining
    ensures RunAlone(s, env) == RunAlone(Drained(s), env)
    decreases |s.rxQ|
  {
    var t := OneOwnStep(s, env);
    if s.rxQ == [] {
      assert s.h.frames + s.rxQ == s.h.frames;
      assert t == Drained(s);
    } else {
      DrainedStep(s);
      DrainLoop(t, env);
    }
  }

  /** From the bound socket to the submission, the handler has posted UDP_READY as `PostEvt` does. */
  lemma SelfPostSteps(s: Sys, env: nat -> Answer) returns (t: Sys)
    requires s.work == Bound
    ensures t.work == Assign && RunAlone(s, env) == RunAlone(t, env)
    ensures View(t) == PostEvt(View(s), Ready)
  {
    t := OneOwnStep(s, env);
    if t.work == SelfSubmit {
      t := OneOwnStep(t, env);
    }
  }

  /** `udp_open` as a whole is `OpenSocket`. */
  lemma OpenSteps(s: Sys, env: nat -> Answer) returns (t: Sys)
    requires s.work == Opening
    ensures t.work == Assign && RunAlone(s, env) == RunAlone(t, env)
    ensures View(t) == OpenSocket(View(s), env(s.h.attaches))
  {
    t := OneOwnStep(s, env);
    assert View(t) == View(s);
    if t.work == Bound {
      t := SelfPostSteps(t, env);
    }
  }

  /** The atomic steps that handle one ATTACHED in THREAD_INIT add up to `HandleEvent`. */
  lemma AttachSteps(s: Sys, env: nat -> Answer) returns (t: Sys)
    requires s.work == Opening && s.node.state == ThreadInit
    ensures t.work == Head && RunAlone(s, env) == RunAlone(t, env)
    ensures var a := env(s.h.attaches);
            var tried := OpenSocket(View(s), a);
            View(t) == tried.(node := s.node.(state := ThreadAttached), sessions := s.h.attaches + 1)
  {
    t := OpenSteps(s, env);
    t := OneOwnStep(t, env);
  }

  /** The atomic steps that handle one event, from one `k_msgq_get` to the next, add up to `HandleEvent`. */
  lemma EventSteps(s: Sys, env: nat -> Answer) returns (t: Sys)
    requires s.work == Head && s.queue != []
    ensures t.work == Head && RunAlone(s, env) == RunAlone(t, env)
    ensures View(t) == HandleEvent(View(s).(evtQ := s.queue[1..]), s.queue[0], env)
  {
    t := OneOwnStep(s, env);
    if t.work == Opening {
      t := AttachSteps(t, env);
    } else if t.work == Draining {
      DrainLoop(t, env);
      t := Drained(t);
    }
  }

  /** Run alone, the fine-grained handler is the atomic `Drain` that the class implements. */
  lemma {:induction false} AloneIsDrain(s: Sys, env: nat -> Answer)
    requires s.work == Head
    ensures View(RunAlone(s, env)) == Drain(View(s), env) && RunAlone(s, env).work == Idle
    decreases Weight(s.queue)
  {
    if s.queue == [] {
      var t := OneOwnStep(s, env);
      var _ := OneOwnStep(t, env);
    } else {
      HandlingLowersWeight(View(s), env);
      var t := EventSteps(s, env);
      AloneIsDrain(t, env);
    }
  }
}
