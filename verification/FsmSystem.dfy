/**
 * The event machine under every interleaving: any number of posting contexts, the receive thread,
 * and the single work item, each advancing one atomic kernel call at a time.
 */
module FsmSystem {
  import opened Common
  import opened Led
  import opened FsmModel

  /**
   * Where the work item is. `Head` is about to call `k_msgq_get`; `Opening` is inside `udp_open` before
   * the socket is bound; `Bound` is about to put UDP_READY; `SelfSubmit` has put it and not yet submitted;
   * `Assign` is about to set the state; `Draining` is the loop of `on_udp_rx`; `SawEmpty` found the event
   * queue empty but still counts as running.
   */
  datatype WorkPc = Idle | Head | Opening | Bound | SelfSubmit | Assign | Draining | SawEmpty

  /** `Posting` has queued a frame and not yet put UDP_RX; `Submitting` has put it and not yet submitted. */
  datatype RxPc = Absent | Receiving | Posting | Submitting

  datatype RolePost = NoPost | RolePosted(e: Evt, ok: bool)

  /**
   * Histories the code does not keep. `past` holds the consumed events and `frames` the handled frames;
   * `roles` the answers of the role queries; `rxLost` says that a UDP_RX post was dropped or cut off.
   */
  datatype History = History(
    past: seq<Evt>, dropped: seq<Evt>, lastRole: RolePost,
    frames: seq<Frame>, accepted: seq<Frame>, rxLost: bool,
    roles: seq<bool>, opens: nat, attaches: nat, readies: nat)

  /**
   * `queue` and `rxQ` are the two message queues, `queued` the pending flag of the work item, `submitting`
   * the contexts between their put and their submit. `sock` says whether `g_sock` holds an open descriptor.
   * `leader` is the role the Thread stack has at the moment.
   */
  datatype Sys = Sys(
    node: Node, queue: seq<Evt>, rxQ: seq<Frame>,
    queued: bool, work: WorkPc, submitting: set<nat>, rx: RxPc, sock: bool,
    leader: bool, h: History)

  datatype Label =
    | Post(pid: nat, e: Evt)   // k_msgq_put by the OpenThread callback or the button handler
    | Submit(pid: nat)         // its k_work_submit_to_queue
    | RxFail                   // recvfrom returned an error
    | RxFrame(f: Frame)        // a datagram was read and put, or dropped on a full frame queue
    | RxPost                   // put of UDP_RX
    | RxSubmit
    | Elect(leader: bool)      // the Thread stack changes its role
    | Start                    // the work queue takes the pending work item
    | Take(leader: bool)       // k_msgq_get and the handling up to the next shared access
    | Open(ok: bool)           // socket, bind and (re-)creation of the receive thread
    | SelfPut                  // put of UDP_READY from inside the handler
    | SelfSubmitted
    | SetAttached              // g_state = APP_THREAD_ATTACHED
    | DrainOne                 // udp_rx_get and the LED command, or the end of on_udp_rx
    | Finish

  function Initial(leds: LedRow, pins: LedRow): Sys {
    Sys(Node(ThreadInit, 0, leds, pins, []), [], [], false, Idle, {}, Absent, false, false,
        History([], [], NoPost, [], [], false, [], 0, 0, 0))
  }

  predicate IsRole(e: Evt) {
    e.Attached? || e.Detached?
  }

  predicate Enabled(s: Sys, l: Label) {
    match l
    case Post(pid, e) => pid !in s.submitting && (IsRole(e) || e.BtnReleased?)
    case Submit(pid) => pid in s.submitting
    case RxFail => s.rx == Receiving
    case RxFrame(f) => s.rx == Receiving
    case RxPost => s.rx == Posting
    case RxSubmit => s.rx == Submitting
    case Elect(_) => true
    case Start => s.work == Idle && s.queued
    case Take(_) => s.work == Head
    case Open(_) => s.work == Opening
    case SelfPut => s.work == Bound
    case SelfSubmitted => s.work == SelfSubmit
    case SetAttached => s.work == Assign
    case DrainOne => s.work == Draining
    case Finish => s.work == SawEmpty
  }

  predicate HasRoom(s: Sys) {
    |s.queue| < EVT_QUEUE_LEN
  }

  /** `k_msgq_put(&g_fsm_evt_q, e, K_NO_WAIT)`. */
  function Put(s: Sys, e: Evt): Sys {
    var role := if IsRole(e) then RolePosted(e, HasRoom(s)) else s.h.lastRole;
    if HasRoom(s) then s.(queue := s.queue + [e], h := s.h.(lastRole := role))
    else s.(h := s.h.(dropped := s.h.dropped + [e], lastRole := role))
  }

  /** The node once an event is taken off the queue; frames are drained one by one afterwards. */
  function NodeAfter(n: Node, e: Evt, leader: bool): Node {
    match e
    case Attached => if n.state == ThreadInit then ShowAttached(n, leader) else n
    case Detached => HandleDetached(n)
    case Ready => HandleReady(n)
    case Rx => n
    case BtnReleased(num) => PressButton(n, num)
  }

  /** Where the handler continues after taking `e` in state `st`. */
  function PcAfter(st: AppState, e: Evt): WorkPc {
    if e == Rx then Draining
    else if e == Attached && st == ThreadInit then Opening
    else Head
  }

  /** The role may still change just before the handler asks for it; the answer is the role as of then. */
  function TakeEvt(s: Sys, leader: bool): Sys {
    if s.queue == [] then s.(work := SawEmpty) else
      var e, st := s.queue[0], s.node.state;
      s.(queue := s.queue[1..], node := NodeAfter(s.node, e, leader), work := PcAfter(st, e),
         leader := if PcAfter(st, e) == Opening then leader else s.leader,
         h := s.h.(past := s.h.past + [e],
                   roles := if PcAfter(st, e) == Opening then s.h.roles + [leader] else s.h.roles,
                   readies := if e == Ready && st == ThreadAttached then s.h.readies + 1 else s.h.readies))
  }

  /**
   * A successful open creates the receive thread on one static thread object, so a thread that was
   * already there starts over wherever it was. If it had queued a frame and not yet posted UDP_RX,
   * that post never happens.
   */
  function OpenUdp(s: Sys, ok: bool): Sys {
    if !ok then s.(work := Assign, sock := false) else
      s.(work := Bound, sock := true, rx := Receiving,
         h := s.h.(opens := s.h.opens + 1, rxLost := s.h.rxLost || s.rx == Posting))
  }

  function Next(s: Sys, l: Label): Sys
    requires Enabled(s, l)
  {
    match l
    case Post(pid, e) =>
      Put(s, e).(submitting := if HasRoom(s) then s.submitting + {pid} else s.submitting)
    case Submit(pid) => s.(submitting := s.submitting - {pid}, queued := true)
    case RxFail => s
    case RxFrame(f) =>
      if |s.rxQ| < RX_QUEUE_LEN
      then s.(rxQ := s.rxQ + [f], rx := Posting, h := s.h.(accepted := s.h.accepted + [f]))
      else s
    case RxPost =>
      if HasRoom(s) then Put(s, Rx).(rx := Submitting)
      else Put(s, Rx).(rx := Receiving, h := Put(s, Rx).h.(rxLost := true))
    case RxSubmit => s.(rx := Receiving, queued := true)
    case Elect(leader) => s.(leader := leader)
    case Start => s.(queued := false, work := Head)
    case Take(leader) => TakeEvt(s, leader)
    case Open(ok) => OpenUdp(s, ok)
    case SelfPut => Put(s, Ready).(work := if HasRoom(s) then SelfSubmit else Assign)
    case SelfSubmitted => s.(queued := true, work := Assign)
    case SetAttached =>
      s.(node := s.node.(state := ThreadAttached), work := Head, h := s.h.(attaches := s.h.attaches + 1))
    case DrainOne =>
      if s.rxQ == [] then s.(work := Head)
      else s.(rxQ := s.rxQ[1..], node := HandleFrame(s.node, s.rxQ[0]),
              h := s.h.(frames := s.h.frames + [s.rxQ[0]]))
    case Finish => s.(work := Idle)
  }

  predicate Runs(s: Sys, ls: seq<Label>)
    decreases |ls|
  {
    ls == [] || (Enabled(s, ls[0]) && Runs(Next(s, ls[0]), ls[1..]))
  }

  function Exec(s: Sys, ls: seq<Label>): Sys
    requires Runs(s, ls)
    decreases |ls|
  {
    if ls == [] then s else Exec(Next(s, ls[0]), ls[1..])
  }

  /** The states some interleaving reaches after `app_fsm_init`, whatever the pins showed at reset. */
  ghost predicate Reachable(s: Sys) {
    exists pins: LedRow, ls: seq<Label> ::
      Runs(Initial(ALL_OFF, pins), ls) && s == Exec(Initial(ALL_OFF, pins), ls)
  }

  function Log(s: Sys): seq<Evt> {
    s.h.past + s.queue
  }

  // ---- invariants ----

  /** Somebody is still bound to look at the event queue. */
  ghost predicate WakeUpDue(s: Sys) {
    || s.queued
    || (s.work != Idle && s.work != SawEmpty)
    || s.submitting != {}
    || s.rx == Submitting
  }

  /** Somebody is still bound to empty the frame queue. */
  ghost predicate DrainDue(s: Sys) {
    Rx in s.queue || s.work == Draining || s.rx == Posting
  }

  ghost predicate WakeInv(s: Sys) {
    |s.queue| <= EVT_QUEUE_LEN && (s.queue != [] ==> WakeUpDue(s))
  }

  ghost predicate HandoffInv(s: Sys) {
    && |s.rxQ| <= RX_QUEUE_LEN
    && s.h.accepted == s.h.frames + s.rxQ
    && (!s.h.rxLost && s.rxQ != [] ==> DrainDue(s))
  }

  function StateAfter(st: AppState, e: Evt): AppState {
    match e
    case Attached => if st == ThreadInit then ThreadAttached else st
    case Detached => ThreadInit
    case Ready => if st == ThreadAttached then UdpReady else st
    case _ => st
  }

  /** The state of the machine after a sequence of consumed events. */
  function StateOf(es: seq<Evt>): AppState {
    if es == [] then ThreadInit else StateAfter(StateOf(es[..|es| - 1]), es[|es| - 1])
  }

  function RxLightAfter(on: bool, f: Frame): bool {
    if f.msg.kind == 2 then true
    else if f.msg.kind == 3 then false
    else !on
  }

  /** LED_RX after a sequence of handled frames. */
  function RxLight(frames: seq<Frame>): bool {
    if frames == [] then false else RxLightAfter(RxLight(frames[..|frames| - 1]), frames[|frames| - 1])
  }

  predicate InAttach(w: WorkPc) {
    w == Opening || w == Bound || w == SelfSubmit || w == Assign
  }

  /** The status LEDs show `st` and the role query that opened the current session. */
  ghost predicate ShowsStatus(n: Node, st: AppState, roles: seq<bool>) {
    && n.leds[LED_THREAD] == (st != ThreadInit)
    && (st != ThreadInit ==> roles != [])
    && n.leds[LED_ROLE] == (st != ThreadInit && roles[|roles| - 1])
  }

  /** The `i`-th message is a toggle with sequence number `i` modulo 256 and nothing else in it. */
  ghost predicate Numbered(sent: seq<Packet>) {
    forall i :: 0 <= i < |sent| ==> sent[i].msg == Msg(1, i % 256, 0, Zeros(60))
  }

  /** The sequence number and LED_TX agree with the messages sent so far. */
  ghost predicate SendsInv(n: Node) {
    && n.leds[LED_TX] == (|n.sent| % 2 == 1)
    && n.seqNo == |n.sent| % 256
    && Numbered(n.sent)
  }

  ghost predicate StatusInv(s: Sys) {
    && s.node.state == (if InAttach(s.work) then ThreadInit else StateOf(s.h.past))
    && (InAttach(s.work) ==> StateOf(s.h.past) == ThreadAttached)
    && ShowsStatus(s.node, StateOf(s.h.past), s.h.roles)
  }

  ghost predicate TrafficInv(s: Sys) {
    SendsInv(s.node) && s.node.leds[LED_RX] == RxLight(s.h.frames)
  }

  ghost predicate NodeInv(s: Sys) {
    StatusInv(s) && TrafficInv(s)
  }

  /** UDP_READY events consumed, pending and dropped. */
  function ReadyPosts(s: Sys): nat {
    Count(s.h.past, Ready) + Count(s.queue, Ready) + Count(s.h.dropped, Ready)
  }

  /** How the counters of sessions relate. */
  ghost predicate SessionInv(s: Sys) {
    && s.h.opens == ReadyPosts(s) + (if s.work == Bound then 1 else 0)
    && s.h.readies <= Count(s.h.past, Ready)
    && s.h.opens <= s.h.attaches + (if s.work == Bound || s.work == SelfSubmit || s.work == Assign then 1 else 0)
  }

  function LastRole(es: seq<Evt>): Option<Evt> {
    if es == [] then None
    else if IsRole(es[|es| - 1]) then Some(es[|es| - 1])
    else LastRole(es[..|es| - 1])
  }

  ghost predicate RoleInv(s: Sys) {
    && (s.h.lastRole.NoPost? ==> LastRole(Log(s)) == None)
    && (s.h.lastRole.RolePosted? ==>
          IsRole(s.h.lastRole.e) && (s.h.lastRole.ok ==> LastRole(Log(s)) == Some(s.h.lastRole.e)))
  }

  ghost predicate Inv(s: Sys) {
    WakeInv(s) && HandoffInv(s) && NodeInv(s) && SessionInv(s) && RoleInv(s)
  }

  lemma WakeStep(s: Sys, l: Label)
    requires WakeInv(s) && Enabled(s, l)
    ensures WakeInv(Next(s, l))
  {
    match l
    case Post(pid, e) =>
      assert HasRoom(s) ==> pid in Next(s, l).submitting;
    case _ =>
  }

  predicate Puts(l: Label) {
    l.Post? || l.RxPost? || l.SelfPut?
  }

  /** The event a put offers. */
  function PutEvt(l: Label): Evt
    requires Puts(l)
  {
    if l.Post? then l.e else if l.RxPost? then Rx else Ready
  }

  lemma PutHandoff(s: Sys, e: Evt)
    requires HandoffInv(s)
    ensures HandoffInv(Put(s, e))
  {
    assert HasRoom(s) && Rx in s.queue ==> Rx in s.queue + [e];
  }

  lemma HandoffSame(s: Sys, t: Sys)
    requires HandoffInv(s) && t.queue == s.queue && t.rxQ == s.rxQ && t.rx == s.rx
    requires t.work == Draining <==> s.work == Draining
    requires t.h == s.h
    ensures HandoffInv(t)
  {
  }

  lemma HandoffPut(s: Sys, l: Label)
    requires HandoffInv(s) && Enabled(s, l) && (l.Post? || l == SelfPut)
    ensures HandoffInv(Next(s, l))
  {
    PutHandoff(s, PutEvt(l));
    HandoffSame(Put(s, PutEvt(l)), Next(s, l));
  }

  lemma HandoffRxPost(s: Sys)
    requires HandoffInv(s) && s.rx == Posting
    ensures HandoffInv(Next(s, RxPost))
  {
    assert HasRoom(s) ==> Rx in s.queue + [Rx];
  }

  lemma HandoffTake(s: Sys, leader: bool)
    requires HandoffInv(s) && s.work == Head
    ensures HandoffInv(TakeEvt(s, leader))
  {
    if s.queue != [] {
      assert s.queue == [s.queue[0]] + s.queue[1..];
    }
  }

  lemma HandoffDrain(s: Sys)
    requires HandoffInv(s) && s.work == Draining
    ensures HandoffInv(Next(s, DrainOne))
  {
    if s.rxQ != [] {
      assert s.rxQ == [s.rxQ[0]] + s.rxQ[1..];
    }
  }

  lemma HandoffStep(s: Sys, l: Label)
    requires HandoffInv(s) && Enabled(s, l)
    ensures HandoffInv(Next(s, l))
  {
    if l == RxPost {
      HandoffRxPost(s);
    } else if Puts(l) {
      HandoffPut(s, l);
    } else if l.Take? {
      HandoffTake(s, l.leader);
    } else if l == DrainOne {
      HandoffDrain(s);
    } else {
      QuietStep(s, l);
    }
  }

  lemma NextSeqNo(n: nat)
    ensures (n % 256 + 1) % 256 == (n + 1) % 256
    ensures n % 256 % 2 == n % 2
  {
    var q, r := n / 256, n % 256;
    assert n == 256 * q + r;
    if r == 255 {
      assert n + 1 == 256 * (q + 1);
    } else {
      assert n + 1 == 256 * q + (r + 1);
    }
    assert n == 2 * (128 * q) + r;
  }

  lemma NextParity(n: nat)
    ensures !(n % 2 == 1) == ((n + 1) % 2 == 1)
  {
  }

  /** Appending the message numbered by the current length keeps the numbering. */
  lemma NumberedSnoc(sent: seq<Packet>, multicast: bool)
    requires Numbered(sent)
    ensures Numbered(sent + [Packet(multicast, LedCmd(MSG_TYPE_LED_TOGGLE, |sent| % 256))])
  {
  }

  lemma SendKeepsSends(n: Node, multicast: bool)
    requires SendsInv(n)
    ensures SendsInv(SendToggle(n, multicast))
  {
    NumberedSnoc(n.sent, multicast);
    NextSeqNo(|n.sent|);
    NextParity(|n.sent|);
    var t := SendToggle(n, multicast);
    assert t.sent == n.sent + [Packet(multicast, LedCmd(MSG_TYPE_LED_TOGGLE, |n.sent| % 256))];
    assert |t.sent| == |n.sent| + 1;
  }

  lemma PressKeepsSends(n: Node, num: u8)
    requires SendsInv(n)
    ensures SendsInv(PressButton(n, num))
  {
    if num == 0 {
      SendKeepsSends(n, false);
    } else if num == 1 {
      SendKeepsSends(n, true);
    }
  }

  lemma StateOfSnoc(es: seq<Evt>, e: Evt)
    ensures StateOf(es + [e]) == StateAfter(StateOf(es), e)
  {
  }

  lemma StatusAfterEvent(n: Node, st: AppState, roles: seq<bool>, e: Evt, leader: bool)
    requires n.state == st && ShowsStatus(n, st, roles)
    ensures ShowsStatus(NodeAfter(n, e, leader), StateAfter(st, e),
                        if PcAfter(st, e) == Opening then roles + [leader] else roles)
    ensures NodeAfter(n, e, leader).state == if PcAfter(st, e) == Opening then ThreadInit else StateAfter(st, e)
  {
  }

  lemma StatusHolds(t: Sys, st: AppState)
    requires StateOf(t.h.past) == st && ShowsStatus(t.node, st, t.h.roles)
    requires t.node.state == if InAttach(t.work) then ThreadInit else st
    requires InAttach(t.work) ==> st == ThreadAttached
    ensures StatusInv(t)
  {
  }

  lemma StatusTake(s: Sys, leader: bool)
    requires StatusInv(s) && s.work == Head
    ensures StatusInv(TakeEvt(s, leader))
  {
    if s.queue != [] {
      var e, st, t := s.queue[0], StateOf(s.h.past), TakeEvt(s, leader);
      StateOfSnoc(s.h.past, e);
      StatusAfterEvent(s.node, st, s.h.roles, e, leader);
      assert t.node == NodeAfter(s.node, e, leader) && t.work == PcAfter(st, e);
      StatusHolds(t, StateAfter(st, e));
    }
  }

  lemma FrameKeepsStatus(n: Node, f: Frame, st: AppState, roles: seq<bool>)
    requires ShowsStatus(n, st, roles)
    ensures ShowsStatus(HandleFrame(n, f), st, roles) && HandleFrame(n, f).state == n.state
  {
  }

  lemma StatusDrain(s: Sys)
    requires StatusInv(s) && s.work == Draining
    ensures StatusInv(Next(s, DrainOne))
  {
    if s.rxQ != [] {
      FrameKeepsStatus(s.node, s.rxQ[0], StateOf(s.h.past), s.h.roles);
    }
  }

  lemma StatusSame(s: Sys, t: Sys)
    requires StatusInv(s) && InAttach(t.work) == InAttach(s.work)
    requires t.node == s.node && t.h.past == s.h.past && t.h.roles == s.h.roles
    ensures StatusInv(t)
  {
  }

  lemma NodeUntouched(s: Sys, l: Label)
    requires Enabled(s, l) && !l.Take? && !l.DrainOne? && !l.SetAttached?
    ensures Next(s, l).node == s.node && Next(s, l).h.frames == s.h.frames
  {
  }

  lemma StatusPut(s: Sys, l: Label)
    requires StatusInv(s) && Enabled(s, l) && Puts(l)
    ensures StatusInv(Next(s, l))
  {
    var p := Put(s, PutEvt(l));
    StatusSame(s, p);
    StatusSame(p, Next(s, l));
  }

  lemma StatusQuiet(s: Sys, l: Label)
    requires StatusInv(s) && Enabled(s, l) && !Puts(l) && !l.Take? && !l.DrainOne? && !l.SetAttached?
    ensures StatusInv(Next(s, l))
  {
    QuietStep(s, l);
    NodeUntouched(s, l);
    StatusSame(s, Next(s, l));
  }

  lemma StatusAssigned(s: Sys)
    requires StatusInv(s) && s.work == Assign
    ensures StatusInv(Next(s, SetAttached))
  {
  }

  lemma StatusStep(s: Sys, l: Label)
    requires StatusInv(s) && Enabled(s, l)
    ensures StatusInv(Next(s, l))
  {
    if l.Take? {
      StatusTake(s, l.leader);
    } else if l.DrainOne? {
      StatusDrain(s);
    } else if l.SetAttached? {
      StatusAssigned(s);
    } else if Puts(l) {
      StatusPut(s, l);
    } else {
      StatusQuiet(s, l);
    }
  }

  lemma RxLightSnoc(frames: seq<Frame>, f: Frame)
    ensures RxLight(frames + [f]) == RxLightAfter(RxLight(frames), f)
  {
  }

  lemma SendsAfterEvent(n: Node, e: Evt, leader: bool)
    requires SendsInv(n)
    ensures SendsInv(NodeAfter(n, e, leader)) && NodeAfter(n, e, leader).leds[LED_RX] == n.leds[LED_RX]
  {
    if e.BtnReleased? {
      PressKeepsSends(n, e.num);
    }
  }

  lemma SendsAfterFrame(n: Node, f: Frame)
    requires SendsInv(n)
    ensures SendsInv(HandleFrame(n, f)) && HandleFrame(n, f).leds[LED_RX] == RxLightAfter(n.leds[LED_RX], f)
  {
  }

  lemma TrafficStep(s: Sys, l: Label)
    requires TrafficInv(s) && Enabled(s, l)
    ensures TrafficInv(Next(s, l))
  {
    if l.Take? {
      if s.queue != [] {
        SendsAfterEvent(s.node, s.queue[0], l.leader);
      }
    } else if l.DrainOne? {
      if s.rxQ != [] {
        RxLightSnoc(s.h.frames, s.rxQ[0]);
        SendsAfterFrame(s.node, s.rxQ[0]);
      }
    } else if l.SetAttached? {
      assert Next(s, l).node == s.node.(state := ThreadAttached);
    } else {
      NodeUntouched(s, l);
    }
  }

  lemma CountAppend(s: seq<Evt>, e: Evt)
    ensures Count(s + [e], Ready) == Count(s, Ready) + if e == Ready then 1 else 0
  {
  }

  lemma PutReady(s: Sys, e: Evt)
    ensures ReadyPosts(Put(s, e)) == ReadyPosts(s) + if e == Ready then 1 else 0
    ensures Put(s, e).h.past == s.h.past && Put(s, e).h.opens == s.h.opens && Put(s, e).h.attaches == s.h.attaches
    ensures Put(s, e).work == s.work && Put(s, e).h.readies == s.h.readies
  {
    if HasRoom(s) {
      CountAppend(s.queue, e);
    } else {
      CountAppend(s.h.dropped, e);
    }
  }

  lemma CountSplit(past: seq<Evt>, queue: seq<Evt>)
    requires queue != []
    ensures Count(past + [queue[0]], Ready) + Count(queue[1..], Ready) == Count(past, Ready) + Count(queue, Ready)
  {
    CountConcat(past, [queue[0]], Ready);
    CountConcat([queue[0]], queue[1..], Ready);
    assert [queue[0]] + queue[1..] == queue;
  }

  lemma SessionTake(s: Sys, leader: bool)
    requires SessionInv(s) && s.work == Head
    ensures SessionInv(TakeEvt(s, leader))
  {
    if s.queue != [] {
      CountSplit(s.h.past, s.queue);
      CountAppend(s.h.past, s.queue[0]);
    }
  }

  lemma SessionPut(s: Sys, l: Label)
    requires SessionInv(s) && Enabled(s, l) && Puts(l)
    ensures SessionInv(Next(s, l))
  {
    var e := PutEvt(l);
    var p, t := Put(s, e), Next(s, l);
    PutReady(s, e);
    assert t.h.past == p.h.past && t.queue == p.queue && t.h.dropped == p.h.dropped;
  }

  lemma QuietStep(s: Sys, l: Label)
    requires Enabled(s, l) && !Puts(l) && !l.Take?
    ensures Next(s, l).h.past == s.h.past && Next(s, l).queue == s.queue && Next(s, l).h.dropped == s.h.dropped
    ensures Next(s, l).h.readies == s.h.readies && Next(s, l).h.roles == s.h.roles
    ensures Next(s, l).h.lastRole == s.h.lastRole
  {
  }

  lemma SessionStep(s: Sys, l: Label)
    requires SessionInv(s) && Enabled(s, l)
    ensures SessionInv(Next(s, l))
  {
    if Puts(l) {
      SessionPut(s, l);
    } else if l.Take? {
      SessionTake(s, l.leader);
    } else {
      QuietStep(s, l);
    }
  }

  lemma RolePut(s: Sys, e: Evt)
    requires RoleInv(s)
    ensures RoleInv(Put(s, e))
  {
    if HasRoom(s) {
      var log := Log(Put(s, e));
      assert log == Log(s) + [e];
      assert log[..|log| - 1] == Log(s);
    }
  }

  lemma RoleSame(s: Sys, t: Sys)
    requires RoleInv(s) && t.h.lastRole == s.h.lastRole && Log(t) == Log(s)
    ensures RoleInv(t)
  {
  }

  lemma PutRole(s: Sys, l: Label)
    requires Enabled(s, l) && Puts(l)
    ensures var p := Put(s, PutEvt(l));
            Next(s, l).h.lastRole == p.h.lastRole && Log(Next(s, l)) == Log(p)
  {
  }

  lemma RoleStep(s: Sys, l: Label)
    requires RoleInv(s) && Enabled(s, l)
    ensures RoleInv(Next(s, l))
  {
    if Puts(l) {
      var e := PutEvt(l);
      RolePut(s, e);
      PutRole(s, l);
      RoleSame(Put(s, e), Next(s, l));
    } else if l.Take? {
      assert Log(TakeEvt(s, l.leader)) == Log(s);
      RoleSame(s, TakeEvt(s, l.leader));
    } else {
      QuietStep(s, l);
      RoleSame(s, Next(s, l));
    }
  }

  lemma InvStep(s: Sys, l: Label)
    requires Inv(s) && Enabled(s, l)
    ensures Inv(Next(s, l))
  {
    WakeStep(s, l);
    HandoffStep(s, l);
    StatusStep(s, l);
    TrafficStep(s, l);
    SessionStep(s, l);
    RoleStep(s, l);
  }

  lemma {:induction false} InvExec(s: Sys, ls: seq<Label>)
    requires Inv(s) && Runs(s, ls)
    ensures Inv(Exec(s, ls))
    decreases |ls|
  {
    if ls != [] {
      InvStep(s, ls[0]);
      InvExec(Next(s, ls[0]), ls[1..]);
    }
  }

  lemma {:induction false} StatusExec(s: Sys, ls: seq<Label>)
    requires StatusInv(s) && Runs(s, ls)
    ensures StatusInv(Exec(s, ls))
    decreases |ls|
  {
    if ls != [] {
      StatusStep(s, ls[0]);
      StatusExec(Next(s, ls[0]), ls[1..]);
    }
  }

  lemma ReachableStatus(s: Sys)
    requires Reachable(s)
    ensures StatusInv(s)
  {
    ReachableInv(s);
  }

  lemma ReachableInv(s: Sys)
    requires Reachable(s)
    ensures Inv(s)
  {
    var pins: LedRow, ls: seq<Label> :|
      Runs(Initial(ALL_OFF, pins), ls) && s == Exec(Initial(ALL_OFF, pins), ls);
    InvExec(Initial(ALL_OFF, pins), ls);
  }
}
