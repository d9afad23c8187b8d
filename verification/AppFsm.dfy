/**
 * app_fsm.c and udp.c run by one context at a time: the state machine, its two bounded queues,
 * the datagram format, and the work handler that drains the queues.
 * FsmSystem.dfy runs the same transitions interleaved with their producers.
 */
module FsmModel {
  import opened Common
  import opened Led

  const EVT_QUEUE_LEN := 8
  const RX_QUEUE_LEN := 16
  const UDP_PAYLOAD_MAX := 60
  const UDP_MSG_SIZE := 64

  const MSG_TYPE_LED_TOGGLE: u8 := 0x01
  const MSG_TYPE_LED_ON: u8 := 0x02
  const MSG_TYPE_LED_OFF: u8 := 0x03

  datatype AppState = SysInit | ThreadInit | ThreadAttached | UdpReady

  datatype Evt = Attached | Detached | Ready | Rx | BtnReleased(num: u8)

  /** The packed message, 64 bytes on the air. */
  datatype Msg = Msg(kind: u8, seqNo: u8, nodeId: int, payload: seq<u8>) {
    ghost predicate Valid() {
      0 <= nodeId < 0x1_0000 && |payload| == UDP_PAYLOAD_MAX
    }
  }

  /** The device roles of the Thread stack; `Unknown` stands for any other value. */
  datatype Role = Disabled | DetachedRole | Child | Router | Leader | Unknown

  /** The event a role change is turned into. */
  function RoleEvent(role: Role): Option<Evt> {
    match role
    case Leader => Some(Attached)
    case Router => Some(Attached)
    case Child => Some(Attached)
    case DetachedRole => Some(Detached)
    case Disabled => Some(Detached)
    case Unknown => None
  }

  /** A received datagram: who sent it, how many bytes came, and the message buffer. */
  datatype Frame = Frame(src: nat, len: nat, msg: Msg)

  /** A message handed to `zsock_sendto`. */
  datatype Packet = Packet(multicast: bool, msg: Msg)

  /** Everything the work handler owns: FSM state, sequence number, LEDs, and the history of sends. */
  datatype Node = Node(state: AppState, seqNo: u8, leds: LedRow, pins: LedRow, sent: seq<Packet>)

  function Encode(m: Msg): (bytes: seq<u8>)
    requires m.Valid()
    ensures |bytes| == UDP_MSG_SIZE
  {
    [m.kind, m.seqNo, m.nodeId % 256, m.nodeId / 256] + m.payload
  }

  function Decode(bytes: seq<u8>): (m: Msg)
    requires |bytes| == UDP_MSG_SIZE
    ensures m.Valid()
  {
    var lo: int, hi: int := bytes[2], bytes[3];
    Msg(bytes[0], bytes[1], lo + 256 * hi, bytes[4..])
  }

  /** `recvfrom` into a zeroed 64-byte buffer: long datagrams are cut, short ones zero-extended. */
  function Receive(src: nat, datagram: seq<u8>): (f: Frame)
    ensures f.msg.Valid() && f.len <= UDP_MSG_SIZE
  {
    var n := Min(|datagram|, UDP_MSG_SIZE);
    Frame(src, n, Decode(datagram[..n] + Zeros(UDP_MSG_SIZE - n)))
  }

  /**
   * On the air: the type, the sequence number, the node identifier with its low byte first, the payload. The
   * receiver sees exactly the message that was sent, and no two messages share a wire form.
   */
  lemma WireRoundTrip(m: Msg, src: nat)
    requires m.Valid()
    ensures Encode(m)[0] == m.kind && Encode(m)[1] == m.seqNo && Encode(m)[4..] == m.payload
    ensures (Encode(m)[2] as int) + 256 * (Encode(m)[3] as int) == m.nodeId
    ensures Receive(src, Encode(m)) == Frame(src, UDP_MSG_SIZE, m)
    ensures forall bytes: seq<u8> :: |bytes| == UDP_MSG_SIZE ==> Encode(Decode(bytes)) == bytes
  {
  }

  /** A datagram of any length arrives as its first 64 bytes, zero-filled, with its sender and its length. */
  lemma AnyDatagram(src: nat, datagram: seq<u8>)
    ensures var f := Receive(src, datagram);
            && f.src == src && f.len == Min(|datagram|, 64)
            && Encode(f.msg) == datagram[..f.len] + Zeros(64 - f.len)
  {
    var n := Min(|datagram|, UDP_MSG_SIZE);
    var bytes := datagram[..n] + Zeros(UDP_MSG_SIZE - n);
    WireRoundTrip(Decode(bytes), src);
    assert Encode(Decode(bytes)) == bytes;
  }

  /** The first byte steers LED_RX: 2 switches it on, 3 off, anything else, also an empty datagram, toggles it. */
  lemma FirstByteSteers(n: Node, src: nat, datagram: seq<u8>)
    ensures var on := if datagram == [] then !n.leds[LED_RX]
                      else if datagram[0] == 2 then true
                      else if datagram[0] == 3 then false
                      else !n.leds[LED_RX];
            HandleFrame(n, Receive(src, datagram)) == n.(leds := n.leds[LED_RX := on], pins := n.pins[LED_RX := on])
  {
    var f := Receive(src, datagram);
    AnyDatagram(src, datagram);
    WireRoundTrip(f.msg, src);
    assert f.msg.kind == Encode(f.msg)[0];
    assert f.msg.kind == if datagram == [] then 0 else datagram[0];
  }

  // ---- transitions of the node ----

  function SetLed(n: Node, led: nat, on: bool): Node
    requires led < LED_COUNT
  {
    n.(leds := n.leds[led := on], pins := n.pins[led := on])
  }

  function ToggleLed(n: Node, led: nat): Node
    requires led < LED_COUNT
  {
    SetLed(n, led, !n.leds[led])
  }

  /** One frame steers LED_RX: ON and OFF set it, everything else toggles it. */
  function HandleFrame(n: Node, f: Frame): Node {
    if f.msg.kind == MSG_TYPE_LED_ON then SetLed(n, LED_RX, true)
    else if f.msg.kind == MSG_TYPE_LED_OFF then SetLed(n, LED_RX, false)
    else ToggleLed(n, LED_RX)
  }

  function LedCmd(kind: u8, seqNo: u8): (m: Msg)
    ensures m.Valid()
  {
    Msg(kind, seqNo, 0, Zeros(UDP_PAYLOAD_MAX))
  }

  function SendToggle(n: Node, multicast: bool): Node {
    ToggleLed(n, LED_TX).(seqNo := (n.seqNo + 1) % 256,
                          sent := n.sent + [Packet(multicast, LedCmd(MSG_TYPE_LED_TOGGLE, n.seqNo))])
  }

  function PressButton(n: Node, num: u8): Node {
    if n.state != UdpReady then n
    else if num == 0 then SendToggle(n, false)
    else if num == 1 then SendToggle(n, true)
    else n
  }

  /** The LED half of handling ATTACHED; the state is assigned only after `udp_open` returns. */
  function ShowAttached(n: Node, leader: bool): Node {
    SetLed(SetLed(n, LED_THREAD, true), LED_ROLE, leader)
  }

  function HandleDetached(n: Node): Node {
    SetLed(SetLed(n, LED_THREAD, false), LED_ROLE, false).(state := ThreadInit)
  }

  function HandleReady(n: Node): Node {
    if n.state == ThreadAttached then n.(state := UdpReady) else n
  }

  // ---- the whole machine, run by one context ----

  /** What the environment answers while one ATTACHED event is handled. */
  datatype Answer = Answer(leader: bool, socketOk: bool, bindOk: bool)

  /** `sessions` counts entries to THREAD_ATTACHED and selects the environment's next answer. */
  datatype Machine = Machine(node: Node, evtQ: seq<Evt>, rxQ: seq<Frame>, queued: bool, sessions: nat)

  /** `k_msgq_put` without waiting, then a work submission only if the put succeeded. */
  function PostEvt(m: Machine, e: Evt): Machine {
    if |m.evtQ| < EVT_QUEUE_LEN then m.(evtQ := m.evtQ + [e], queued := true) else m
  }

  function OpenSocket(m: Machine, a: Answer): Machine {
    if a.socketOk && a.bindOk then PostEvt(m, Ready) else m
  }

  function HandleFrames(n: Node, frames: seq<Frame>): Node
    decreases frames
  {
    if frames == [] then n else HandleFrames(HandleFrame(n, frames[0]), frames[1..])
  }

  function HandleEvent(m: Machine, e: Evt, env: nat -> Answer): Machine {
    match e
    case Attached =>
      if m.node.state != ThreadInit then m else
        var a := env(m.sessions);
        var tried := OpenSocket(m.(node := ShowAttached(m.node, a.leader)), a);
        tried.(node := tried.node.(state := ThreadAttached), sessions := m.sessions + 1)
    case Detached => m.(node := HandleDetached(m.node))
    case Ready => m.(node := HandleReady(m.node))
    case Rx => m.(node := HandleFrames(m.node, m.rxQ), rxQ := [])
    case BtnReleased(num) => m.(node := PressButton(m.node, num))
  }

  /** ATTACHED can post one more event while it is handled, so it weighs two. */
  function Weight(q: seq<Evt>): nat {
    if q == [] then 0 else (if q[0] == Attached then 2 else 1) + Weight(q[1..])
  }

  lemma {:induction false} WeightAppend(q: seq<Evt>, e: Evt)
    ensures Weight(q + [e]) == Weight(q) + Weight([e])
    ensures |q| <= Weight(q) <= 2 * |q|
  {
    if q == [] {
      assert q + [e] == [e];
    } else {
      WeightAppend(q[1..], e);
      assert (q + [e])[1..] == q[1..] + [e];
    }
  }

  /** Handling one event lowers the weight of the queue, although ATTACHED posts to it. */
  lemma HandlingLowersWeight(m: Machine, env: nat -> Answer)
    requires m.evtQ != []
    ensures Weight(HandleEvent(m.(evtQ := m.evtQ[1..]), m.evtQ[0], env).evtQ) < Weight(m.evtQ)
  {
    WeightAppend(m.evtQ[1..], Ready);
    assert Weight([Ready]) == 1 by { assert [Ready][1..] == []; }
  }

  /** The work handler with no producer running beside it. */
  function Drain(m: Machine, env: nat -> Answer): (d: Machine)
    ensures d.evtQ == []
    decreases Weight(m.evtQ)
  {
    if m.evtQ == [] then m else
      HandlingLowersWeight(m, env);
      Drain(HandleEvent(m.(evtQ := m.evtQ[1..]), m.evtQ[0], env), env)
  }

  /** How often the loop of the handler turns. */
  function Turns(m: Machine, env: nat -> Answer): nat
    decreases Weight(m.evtQ)
  {
    if m.evtQ == [] then 0 else
      HandlingLowersWeight(m, env);
      1 + Turns(HandleEvent(m.(evtQ := m.evtQ[1..]), m.evtQ[0], env), env)
  }

  /** A drain handles at most two events per queued one: 16 for a full queue. */
  lemma {:induction false} DrainIsBounded(m: Machine, env: nat -> Answer)
    requires |m.evtQ| <= EVT_QUEUE_LEN
    ensures Turns(m, env) <= Weight(m.evtQ) <= 16
    decreases Weight(m.evtQ)
  {
    WeightAppend(m.evtQ, Rx);
    if m.evtQ != [] {
      HandlingLowersWeight(m, env);
      DrainIsBounded(HandleEvent(m.(evtQ := m.evtQ[1..]), m.evtQ[0], env), env);
    }
  }

  class AppFsm {
    var state: AppState
    var seqNo: u8
    const leds: AppLed
    /** Every message handed to the socket so far. */
    ghost var sent: seq<Packet>
    /** The message queue of events, at most EVT_QUEUE_LEN long. */
    var evtQ: seq<Evt>
    /** The message queue of frames, at most RX_QUEUE_LEN long. */
    var rxQ: seq<Frame>
    /** The pending flag of the one work item. */
    var workQueued: bool
    var sessions: nat
    const env: nat -> Answer

    ghost predicate Valid()
      reads this, leds
    {
      leds.Valid() && |evtQ| <= EVT_QUEUE_LEN && |rxQ| <= RX_QUEUE_LEN
    }

    ghost function TheNode(): Node
      requires leds.shadow.Length == LED_COUNT && leds.pins.Length == LED_COUNT
      reads this, leds.shadow, leds.pins
    {
      Node(state, seqNo, leds.Shadow(), leds.Pins(), sent)
    }

    ghost function TheMachine(): Machine
      requires leds.shadow.Length == LED_COUNT && leds.pins.Length == LED_COUNT
      reads this, leds.shadow, leds.pins
    {
      Machine(TheNode(), evtQ, rxQ, workQueued, sessions)
    }

    /** `app_fsm_init` on initialised LEDs; `thread_init` only talks to the Thread stack. */
    constructor (leds: AppLed, env: nat -> Answer)
      requires leds.Valid()
      ensures Valid() && this.leds == leds && this.env == env
      ensures TheMachine() == Machine(Node(ThreadInit, 0, leds.Shadow(), leds.Pins(), []), [], [], false, 0)
    {
      this.leds := leds;
      this.env := env;
      seqNo, sent := 0, [];
      evtQ, rxQ, workQueued, sessions := [], [], false, 0;
      state := ThreadInit;
    }

    method MakeLedCmd(kind: u8) returns (m: Msg)
      modifies this`seqNo
      ensures m == LedCmd(kind, old(seqNo)) && seqNo == (old(seqNo) + 1) % 256
      ensures Encode(m) == [kind, old(seqNo), 0, 0] + Zeros(60)
    {
      m := Msg(kind, seqNo, 0, Zeros(UDP_PAYLOAD_MAX));
      seqNo := (seqNo + 1) % 256;
    }

    method FsmEvtPost(e: Evt)
      requires Valid()
      modifies this`evtQ, this`workQueued
      ensures Valid() && TheMachine() == PostEvt(old(TheMachine()), e)
      ensures |old(evtQ)| < 8 ==> evtQ == old(evtQ) + [e] && workQueued
      ensures |old(evtQ)| >= 8 ==> evtQ == old(evtQ) && workQueued == old(workQueued)
    {
      if |evtQ| >= EVT_QUEUE_LEN {
        return;
      }
      evtQ := evtQ + [e];
      workQueued := true;
    }

    /** `on_thread_state_changed` of thread.c. */
    method OnThreadStateChanged(roleChanged: bool, role: Role)
      requires Valid()
      modifies this`evtQ, this`workQueued
      ensures Valid()
      ensures !roleChanged || role == Unknown ==> TheMachine() == old(TheMachine())
      ensures roleChanged && (role == Leader || role == Router || role == Child) ==>
                TheMachine() == PostEvt(old(TheMachine()), Attached)
      ensures roleChanged && (role == DetachedRole || role == Disabled) ==>
                TheMachine() == PostEvt(old(TheMachine()), Detached)
    {
      if !roleChanged {
        return;
      }
      var e := RoleEvent(role);
      if e.Some? {
        FsmEvtPost(e.value);
      }
    }

    /** One turn of the receive thread's endless loop; a negative count is a failed `recvfrom`. */
    method UdpRxOnce(n: int, src: nat, datagram: seq<u8>)
      requires Valid() && (n >= 0 ==> n == Min(|datagram|, UDP_MSG_SIZE))
      modifies this`rxQ, this`evtQ, this`workQueued
      ensures Valid()
      ensures n < 0 || |old(rxQ)| == RX_QUEUE_LEN ==> TheMachine() == old(TheMachine())
      ensures n >= 0 && |old(rxQ)| < RX_QUEUE_LEN ==>
                TheMachine() == PostEvt(old(TheMachine().(rxQ := rxQ + [Receive(src, datagram)])), Rx)
      ensures n >= 0 && |old(rxQ)| < 16 ==>
                && |rxQ| == |old(rxQ)| + 1 && rxQ[..|old(rxQ)|] == old(rxQ)
                && rxQ[|old(rxQ)|].src == src && rxQ[|old(rxQ)|].len == n
                && Encode(rxQ[|old(rxQ)|].msg) == datagram[..n] + Zeros(64 - n)
                && (|old(evtQ)| < 8 ==> evtQ == old(evtQ) + [Rx] && workQueued)
    {
      if n < 0 {
        return;
      }
      var frame := Frame(src, n, Decode(datagram[..n] + Zeros(UDP_MSG_SIZE - n)));
      if |rxQ| >= RX_QUEUE_LEN {
        return;
      }
      AnyDatagram(src, datagram);
      rxQ := rxQ + [frame];
      FsmEvtPost(Rx);
    }

    method UdpRxGet() returns (f: Option<Frame>)
      requires Valid()
      modifies this`rxQ
      ensures Valid()
      ensures old(rxQ) == [] ==> f == None && rxQ == []
      ensures old(rxQ) != [] ==> f == Some(old(rxQ[0])) && rxQ == old(rxQ[1..])
    {
      if rxQ == [] {
        return None;
      }
      f := Some(rxQ[0]);
      rxQ := rxQ[1..];
    }

    method UdpOpen(a: Answer) returns (err: int)
      requires Valid()
      modifies this`evtQ, this`workQueued
      ensures Valid() && TheMachine() == OpenSocket(old(TheMachine()), a)
      ensures err == 0 <==> a.socketOk && a.bindOk
      ensures err == 0 && |old(evtQ)| < 8 ==> evtQ == old(evtQ) + [Ready] && workQueued
      ensures err != 0 ==> evtQ == old(evtQ) && workQueued == old(workQueued)
    {
      if !a.socketOk {
        return -5;
      }
      if !a.bindOk {
        return -5;
      }
      FsmEvtPost(Ready);
      return 0;
    }

    method OnUdpRx()
      requires Valid()
      modifies this`rxQ, leds.shadow, leds.pins
      ensures Valid() && rxQ == [] && TheNode() == HandleFrames(old(TheNode()), old(rxQ))
    {
      var f := UdpRxGet();
      while f.Some?
        invariant Valid()
        invariant f.None? ==> rxQ == []
        invariant HandleFrames(TheNode(), (if f.Some? then [f.value] else []) + rxQ)
               == HandleFrames(old(TheNode()), old(rxQ))
        decreases f.Some?, |rxQ|
      {
        ghost var before, rest := TheNode(), rxQ;
        var kind := f.value.msg.kind;
        if kind == MSG_TYPE_LED_ON {
          leds.Set(LED_RX, true);
        } else if kind == MSG_TYPE_LED_OFF {
          leds.Set(LED_RX, false);
        } else {
          leds.Toggle(LED_RX);
        }
        assert TheNode() == HandleFrame(before, f.value);
        assert ([f.value] + rest)[1..] == rest;
        assert rest == [] || rest == [rest[0]] + rest[1..];
        f := UdpRxGet();
        assert (if f.Some? then [f.value] else []) + rxQ == rest;
      }
      assert [] + rxQ == [];
    }

    method OnBtnReleased(num: u8)
      requires Valid()
      modifies this`seqNo, this`sent, leds.shadow, leds.pins
      ensures Valid() && TheNode() == PressButton(old(TheNode()), num)
      ensures state == UdpReady && num <= 1 ==>
                && |sent| == |old(sent)| + 1 && sent[..|old(sent)|] == old(sent)
                && sent[|old(sent)|].multicast == (num == 1)
                && Encode(sent[|old(sent)|].msg) == [1, old(seqNo), 0, 0] + Zeros(60)
                && seqNo == (old(seqNo) + 1) % 256
                && leds.Shadow() == old(leds.Shadow()[LED_TX := !leds.Shadow()[LED_TX]])
                && leds.Pins() == old(leds.Pins()[LED_TX := !leds.Shadow()[LED_TX]])
      ensures state != UdpReady || num > 1 ==> TheNode() == old(TheNode())
    {
      if state != UdpReady {
        return;
      }
      if num == 0 {
        var m := MakeLedCmd(MSG_TYPE_LED_TOGGLE);
        leds.Toggle(LED_TX);
        sent := sent + [Packet(false, m)];
      } else if num == 1 {
        var m := MakeLedCmd(MSG_TYPE_LED_TOGGLE);
        leds.Toggle(LED_TX);
        sent := sent + [Packet(true, m)];
      }
    }

    method HandleOne(e: Evt)
      requires Valid()
      modifies this, leds.shadow, leds.pins
      ensures Valid() && TheMachine() == HandleEvent(old(TheMachine()), e, env)
    {
      match e
      case Attached =>
        if state == ThreadInit {
          var a := env(sessions);
          leds.Set(LED_THREAD, true);
          leds.Set(LED_ROLE, a.leader);
          var _ := UdpOpen(a);
          state := ThreadAttached;
          sessions := sessions + 1;
        }
      case Detached =>
        leds.Set(LED_THREAD, false);
        leds.Set(LED_ROLE, false);
        state := ThreadInit;
      case Ready =>
        if state == ThreadAttached {
          state := UdpReady;
        }
      case Rx =>
        OnUdpRx();
      case BtnReleased(num) =>
        OnBtnReleased(num);
    }

    /** `fsm_evt_work_handler`: one run of the work item, started by the work queue. */
    method FsmEvtWorkHandler()
      requires Valid()
      modifies this, leds.shadow, leds.pins
      ensures Valid() && evtQ == []
      ensures TheMachine() == Drain(old(TheMachine()), env)
    {
      while evtQ != []
        invariant Valid()
        invariant Drain(TheMachine(), env) == Drain(old(TheMachine()), env)
        decreases Weight(evtQ)
      {
        HandlingLowersWeight(TheMachine(), env);
        var e := evtQ[0];
        evtQ := evtQ[1..];
        HandleOne(e);
      }
    }
  }
}
