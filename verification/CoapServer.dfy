/**
 * The CoAP server with its handlers run one at a time against a clock (coap_server.c, ot_coap_utils.c):
 * the pairing window with its two timers, the provisioning handler, and the light resource.
 */
module CoapServer {
  import opened Common
  import opened Light

  const BLINK_PERIOD := 100
  const PAIRING_TIME := 5000

  /** A kernel timer: stopped, or due at a point in time. */
  datatype Timer = Stopped | Due(at: nat)

  /**
   * `blinkVal` is the static of the LED timer callback. The rest are histories: `openedAt` is the time of the
   * last activation, `blinks` counts LED timer expiries, `atOpen` how many there were at the last activation
   * and `atDark` when the LED timer was last started from rest; `commands` are the light commands taken.
   */
  datatype Server = Server(
    now: nat, enabled: bool, ledTimer: Timer, pairingTimer: Timer,
    provisioningLed: bool, blinkVal: bool, connectionLed: bool,
    lightVal: bool, lightLed: bool,
    openedAt: nat, blinks: nat, atOpen: nat, atDark: nat, responses: nat, commands: seq<u8>)

  datatype MsgType = Confirmable | NonConfirmable | OtherType
  datatype Code = Get | Put | OtherCode

  datatype Event =
    | Button
    | LedExpiry
    | PairingExpiry
    | RoleChanged(attached: bool)
    | Provisioning(mtype: MsgType, code: Code, sendOk: bool)
    | LightPut(mtype: MsgType, code: Code, payload: seq<u8>)
    | Elapse(ms: nat)

  const INITIAL := Server(0, false, Stopped, Stopped, false, true, false, false, false, 0, 0, 0, 0, 0, [])

  /** A timer fires when it is due, and the clock does not pass a due timer. */
  predicate Possible(s: Server, e: Event) {
    match e
    case LedExpiry => s.ledTimer == Due(s.now)
    case PairingExpiry => s.pairingTimer == Due(s.now)
    case Elapse(ms) =>
      && (s.ledTimer.Due? ==> s.now + ms <= s.ledTimer.at)
      && (s.pairingTimer.Due? ==> s.now + ms <= s.pairingTimer.at)
    case _ => true
  }

  function Activate(s: Server): Server {
    s.(enabled := true, ledTimer := Due(s.now + BLINK_PERIOD), pairingTimer := Due(s.now + PAIRING_TIME),
       openedAt := s.now, atOpen := s.blinks, atDark := if s.ledTimer == Stopped then s.blinks else s.atDark)
  }

  /** Stopping a running LED timer runs its stop callback; stopping a stopped timer does nothing. */
  function Deactivate(s: Server): Server {
    s.(ledTimer := Stopped, provisioningLed := if s.ledTimer == Stopped then s.provisioningLed else false,
       pairingTimer := Stopped, enabled := false)
  }

  function Blink(s: Server): Server {
    s.(provisioningLed := s.blinkVal, blinkVal := !s.blinkVal, ledTimer := Due(s.now + BLINK_PERIOD),
       blinks := s.blinks + 1)
  }

  function LightCommand(s: Server, c: u8): Server {
    var v := if c == CMD_ON then true else if c == CMD_OFF then false
             else if c == CMD_TOGGLE then !s.lightVal else s.lightVal;
    s.(lightVal := v, lightLed := if c == CMD_ON || c == CMD_OFF || c == CMD_TOGGLE then v else s.lightLed,
       commands := s.commands + [c])
  }

  function Apply(s: Server, e: Event): Server {
    match e
    case Button => Activate(s)
    case LedExpiry => Blink(s)
    case PairingExpiry => Deactivate(s.(pairingTimer := Stopped))
    case RoleChanged(attached) =>
      if attached then s.(connectionLed := true) else Deactivate(s.(connectionLed := false))
    case Provisioning(mtype, code, sendOk) =>
      if s.enabled && mtype == NonConfirmable && code == Get && sendOk
      then Deactivate(s.(responses := s.responses + 1)) else s
    case LightPut(mtype, code, payload) =>
      if mtype == NonConfirmable && code == Put && payload != [] then LightCommand(s, payload[0]) else s
    case Elapse(ms) => s.(now := s.now + ms)
  }

  predicate Runs(s: Server, es: seq<Event>)
    decreases |es|
  {
    es == [] || (Possible(s, es[0]) && Runs(Apply(s, es[0]), es[1..]))
  }

  function Exec(s: Server, es: seq<Event>): Server
    decreases |es|
  {
    if es == [] then s else Exec(Apply(s, es[0]), es[1..])
  }

  // ---- what the events of a run say ----

  predicate Closes(e: Event) {
    e == PairingExpiry || e == RoleChanged(false) || e == Provisioning(NonConfirmable, Get, true)
  }

  /** The button opens the window; expiry, role loss and an answered request close it. */
  function Opened(es: seq<Event>): bool {
    es != [] && (es[|es| - 1] == Button || (!Closes(es[|es| - 1]) && Opened(es[..|es| - 1])))
  }

  function Clock(es: seq<Event>): nat {
    if es == [] then 0 else
      var e := es[|es| - 1];
      Clock(es[..|es| - 1]) + if e.Elapse? then e.ms else 0
  }

  /** The time of the last button press. */
  function OpenedAt(es: seq<Event>): nat {
    if es == [] then 0
    else if es[|es| - 1] == Button then Clock(es[..|es| - 1])
    else OpenedAt(es[..|es| - 1])
  }

  function Blinks(es: seq<Event>): nat {
    if es == [] then 0 else Blinks(es[..|es| - 1]) + if es[|es| - 1] == LedExpiry then 1 else 0
  }

  /** The blinks before the last button press. */
  function BlinksAtOpen(es: seq<Event>): nat {
    if es == [] then 0
    else if es[|es| - 1] == Button then Blinks(es[..|es| - 1])
    else BlinksAtOpen(es[..|es| - 1])
  }

  /** The blinks before the last button press that found the window closed. */
  function BlinksAtDark(es: seq<Event>): nat {
    if es == [] then 0
    else if es[|es| - 1] == Button && !Opened(es[..|es| - 1]) then Blinks(es[..|es| - 1])
    else BlinksAtDark(es[..|es| - 1])
  }

  /** The non-confirmable GETs that found the window open and could be answered. */
  function Answered(es: seq<Event>): nat {
    if es == [] then 0 else
      var e, init := es[|es| - 1], es[..|es| - 1];
      Answered(init) + if e == Provisioning(NonConfirmable, Get, true) && Opened(init) then 1 else 0
  }

  /** A non-confirmable PUT to the light carries a command if it has a payload: its first byte. */
  function TakenFrom(e: Event): seq<u8> {
    if e.LightPut? && e.mtype == NonConfirmable && e.code == Put && |e.payload| > 0 then [e.payload[0]] else []
  }

  function Commands(es: seq<Event>): seq<u8> {
    if es == [] then [] else Commands(es[..|es| - 1]) + TakenFrom(es[|es| - 1])
  }

  /** The last role change was an attach. */
  function Attached(es: seq<Event>): bool {
    if es == [] then false
    else if es[|es| - 1].RoleChanged? then es[|es| - 1].attached
    else Attached(es[..|es| - 1])
  }

  predicate TellsWindow(s: Server, es: seq<Event>) {
    && s.enabled == Opened(es) && s.responses == Answered(es)
    && s.now == Clock(es) && s.openedAt == OpenedAt(es)
  }

  predicate TellsBlinks(s: Server, es: seq<Event>) {
    s.blinks == Blinks(es) && s.atOpen == BlinksAtOpen(es) && s.atDark == BlinksAtDark(es)
  }

  predicate TellsRest(s: Server, es: seq<Event>) {
    s.commands == Commands(es) && s.connectionLed == Attached(es)
  }

  lemma WindowSnoc(es: seq<Event>, e: Event)
    ensures Opened(es + [e]) == (e == Button || (!Closes(e) && Opened(es)))
    ensures Answered(es + [e])
         == Answered(es) + if e == Provisioning(NonConfirmable, Get, true) && Opened(es) then 1 else 0
    ensures Clock(es + [e]) == Clock(es) + if e.Elapse? then e.ms else 0
    ensures OpenedAt(es + [e]) == if e == Button then Clock(es) else OpenedAt(es)
  {
    assert (es + [e])[..|es|] == es;
  }

  /** A light request takes its command and touches nothing but the light. */
  lemma LightPutStep(s: Server, e: Event)
    requires e.LightPut?
    ensures var t := Apply(s, e);
            && t == s.(lightVal := t.lightVal, lightLed := t.lightLed, commands := s.commands + TakenFrom(e))
  {
    assert s.commands + [] == s.commands;
  }

  lemma FlagStep(s: Server, e: Event)
    ensures Apply(s, e).enabled == (e == Button || (!Closes(e) && s.enabled))
    ensures Apply(s, e).responses
         == s.responses + if e == Provisioning(NonConfirmable, Get, true) && s.enabled then 1 else 0
  {
  }

  lemma ClockStep(s: Server, e: Event)
    ensures Apply(s, e).now == s.now + if e.Elapse? then e.ms else 0
    ensures Apply(s, e).openedAt == if e == Button then s.now else s.openedAt
  {
    if e.LightPut? {
      LightPutStep(s, e);
    }
  }

  lemma TellsWindowStep(s: Server, es: seq<Event>, e: Event)
    requires TellsWindow(s, es)
    ensures TellsWindow(Apply(s, e), es + [e])
  {
    WindowSnoc(es, e);
    FlagStep(s, e);
    ClockStep(s, e);
  }

  lemma BlinksUntouched(s: Server, e: Event)
    requires e != Button && e != LedExpiry
    ensures Apply(s, e).blinks == s.blinks && Apply(s, e).atOpen == s.atOpen && Apply(s, e).atDark == s.atDark
  {
    if e.LightPut? {
      LightPutStep(s, e);
    }
  }

  lemma TellsBlinksStep(s: Server, es: seq<Event>, e: Event)
    requires TellsBlinks(s, es) && s.enabled == Opened(es) && s.ledTimer.Due? == s.enabled
    ensures TellsBlinks(Apply(s, e), es + [e])
  {
    assert (es + [e])[..|es|] == es;
    if e != Button && e != LedExpiry {
      BlinksUntouched(s, e);
    }
  }

  lemma RestSnoc(es: seq<Event>, e: Event)
    ensures Commands(es + [e]) == Commands(es) + TakenFrom(e)
    ensures Attached(es + [e]) == if e.RoleChanged? then e.attached else Attached(es)
  {
    assert (es + [e])[..|es|] == es;
  }

  lemma RestStep(s: Server, e: Event)
    ensures Apply(s, e).commands == s.commands + TakenFrom(e)
    ensures Apply(s, e).connectionLed == if e.RoleChanged? then e.attached else s.connectionLed
  {
    if e.LightPut? {
      LightPutStep(s, e);
    } else {
      CommandsUntouched(s, e);
    }
  }

  lemma CommandsUntouched(s: Server, e: Event)
    requires !e.LightPut?
    ensures Apply(s, e).commands == s.commands
  {
  }

  lemma TellsRestStep(s: Server, es: seq<Event>, e: Event)
    requires TellsRest(s, es)
    ensures TellsRest(Apply(s, e), es + [e])
  {
    RestSnoc(es, e);
    RestStep(s, e);
  }

  lemma {:induction false} RunsSnoc(s: Server, es: seq<Event>, e: Event)
    requires Runs(s, es + [e])
    ensures Runs(s, es) && Possible(Exec(s, es), e) && Exec(s, es + [e]) == Apply(Exec(s, es), e)
    decreases |es|
  {
    if es == [] {
      assert es + [e] == [e] && [e][1..] == [];
    } else {
      assert (es + [e])[1..] == es[1..] + [e];
      RunsSnoc(Apply(s, es[0]), es[1..], e);
    }
  }

  /** In every run the recorded state is what the events say, by folds that know nothing of the handlers. */
  lemma {:induction false} RunTells(es: seq<Event>)
    requires Runs(INITIAL, es)
    ensures TellsWindow(Exec(INITIAL, es), es)
    ensures TellsBlinks(Exec(INITIAL, es), es)
    ensures TellsRest(Exec(INITIAL, es), es)
    decreases |es|
  {
    if es != [] {
      var init, e := es[..|es| - 1], es[|es| - 1];
      assert es == init + [e];
      RunsSnoc(INITIAL, init, e);
      RunTells(init);
      InvExec(INITIAL, init);
      TellsWindowStep(Exec(INITIAL, init), init, e);
      TellsBlinksStep(Exec(INITIAL, init), init, e);
      TellsRestStep(Exec(INITIAL, init), init, e);
    }
  }

  // ---- the timed window ----

  predicate TimersInv(s: Server) {
    && s.enabled == s.pairingTimer.Due? == s.ledTimer.Due?
    && (s.pairingTimer.Due? ==> s.now <= s.pairingTimer.at == s.openedAt + PAIRING_TIME)
    && (s.ledTimer.Due? ==>
          && s.now <= s.ledTimer.at <= s.now + BLINK_PERIOD
          && s.ledTimer.at == s.openedAt + BLINK_PERIOD * (s.blinks - s.atOpen + 1))
    && s.openedAt <= s.now && s.atDark <= s.atOpen <= s.blinks
  }

  predicate LedInv(s: Server) {
    && s.provisioningLed == (s.ledTimer.Due? && s.blinks > s.atDark && s.blinks % 2 == 1)
    && s.blinkVal == (s.blinks % 2 == 0)
  }

  predicate WindowInv(s: Server) {
    TimersInv(s) && LedInv(s)
  }

  predicate LightInv(s: Server) {
    s.lightLed == s.lightVal == LightAfter(s.commands)
  }

  lemma LightSame(s: Server, t: Server)
    requires LightInv(s) && t.commands == s.commands && t.lightLed == s.lightLed && t.lightVal == s.lightVal
    ensures LightInv(t)
  {
  }

  lemma CommandKeepsLight(s: Server, c: u8)
    requires LightInv(s)
    ensures LightInv(LightCommand(s, c))
  {
    assert (s.commands + [c])[..|s.commands|] == s.commands;
  }

  lemma DeactivateKeepsLight(s: Server)
    ensures var t := Deactivate(s);
            t.commands == s.commands && t.lightLed == s.lightLed && t.lightVal == s.lightVal
  {
  }

  /** The events that may deactivate provisioning. */
  predicate MayClose(e: Event) {
    e.RoleChanged? || e.Provisioning? || e == PairingExpiry
  }

  lemma ClosingKeepsLight(s: Server, e: Event)
    requires LightInv(s) && MayClose(e)
    ensures LightInv(Apply(s, e))
  {
    if e.RoleChanged? {
      DeactivateKeepsLight(s.(connectionLed := e.attached));
    } else if e.Provisioning? {
      DeactivateKeepsLight(s.(responses := s.responses + 1));
    } else {
      DeactivateKeepsLight(s.(pairingTimer := Stopped));
    }
    LightSame(s, Apply(s, e));
  }

  lemma OthersKeepLight(s: Server, e: Event)
    requires LightInv(s) && (e == Button || e == LedExpiry || e.Elapse?)
    ensures LightInv(Apply(s, e))
  {
    LightSame(s, Apply(s, e));
  }

  lemma LightStep(s: Server, e: Event)
    requires LightInv(s)
    ensures LightInv(Apply(s, e))
  {
    if e.LightPut? {
      if e.payload != [] {
        CommandKeepsLight(s, e.payload[0]);
      }
    } else if MayClose(e) {
      ClosingKeepsLight(s, e);
    } else {
      OthersKeepLight(s, e);
    }
  }

  lemma BlinkKeepsTimers(s: Server)
    requires TimersInv(s) && s.ledTimer == Due(s.now)
    ensures TimersInv(Blink(s))
  {
    assert BLINK_PERIOD * (s.blinks + 1 - s.atOpen + 1) == BLINK_PERIOD * (s.blinks - s.atOpen + 1) + BLINK_PERIOD;
  }

  lemma DeactivateKeepsTimers(s: Server)
    requires TimersInv(s)
    ensures TimersInv(Deactivate(s))
  {
  }

  lemma ActivateKeepsTimers(s: Server)
    requires TimersInv(s)
    ensures TimersInv(Activate(s))
  {
    assert BLINK_PERIOD * (s.blinks - s.blinks + 1) == BLINK_PERIOD;
  }

  lemma ElapseKeepsTimers(s: Server, ms: nat)
    requires TimersInv(s) && Possible(s, Elapse(ms))
    ensures TimersInv(Apply(s, Elapse(ms)))
  {
  }

  /** `TimersInv` does not look at the LEDs, the light and the commands. */
  lemma TimersSame(s: Server, t: Server)
    requires TimersInv(s) && t.now == s.now && t.enabled == s.enabled
    requires t.ledTimer == s.ledTimer && t.pairingTimer == s.pairingTimer
    requires t.openedAt == s.openedAt && t.blinks == s.blinks && t.atOpen == s.atOpen && t.atDark == s.atDark
    ensures TimersInv(t)
  {
  }

  lemma RoleKeepsTimers(s: Server, attached: bool)
    requires TimersInv(s)
    ensures TimersInv(Apply(s, RoleChanged(attached)))
  {
    var t := s.(connectionLed := attached);
    TimersSame(s, t);
    DeactivateKeepsTimers(t);
  }

  lemma RequestKeepsTimers(s: Server, e: Event)
    requires TimersInv(s) && e.Provisioning?
    ensures TimersInv(Apply(s, e))
  {
    var t := s.(responses := s.responses + 1);
    TimersSame(s, t);
    DeactivateKeepsTimers(t);
  }

  lemma ExpiryKeepsTimers(s: Server)
    requires TimersInv(s)
    ensures TimersInv(Apply(s, PairingExpiry))
  {
    assert Apply(s, PairingExpiry) == Deactivate(s);
    DeactivateKeepsTimers(s);
  }

  lemma TimersStep(s: Server, e: Event)
    requires TimersInv(s) && Possible(s, e)
    ensures TimersInv(Apply(s, e))
  {
    match e
    case Button => ActivateKeepsTimers(s);
    case LedExpiry => BlinkKeepsTimers(s);
    case PairingExpiry => ExpiryKeepsTimers(s);
    case RoleChanged(attached) => RoleKeepsTimers(s, attached);
    case Provisioning(_, _, _) => RequestKeepsTimers(s, e);
    case LightPut(_, _, _) => TimersSame(s, Apply(s, e));
    case Elapse(ms) => ElapseKeepsTimers(s, ms);
  }

  lemma LedStep(s: Server, e: Event)
    requires WindowInv(s) && Possible(s, e)
    ensures LedInv(Apply(s, e))
  {
  }

  lemma {:induction false} InvExec(s: Server, es: seq<Event>)
    requires WindowInv(s) && LightInv(s) && Runs(s, es)
    ensures WindowInv(Exec(s, es)) && LightInv(Exec(s, es))
    decreases |es|
  {
    if es != [] {
      TimersStep(s, es[0]);
      LedStep(s, es[0]);
      LightStep(s, es[0]);
      InvExec(Apply(s, es[0]), es[1..]);
    }
  }

  /**
   * In every run the window is open exactly if the events opened it last, with the pairing timer due 5000 ms after
   * the last button press and the blink timer due 100 ms after the last blink or press. Otherwise both timers are
   * stopped and the provisioning LED is dark.
   */
  lemma TimedWindow(es: seq<Event>)
    requires Runs(INITIAL, es)
    ensures var s := Exec(INITIAL, es);
            && s.enabled == Opened(es) && s.now == Clock(es)
            && (Opened(es) ==>
                  && s.pairingTimer == Due(OpenedAt(es) + 5000)
                  && s.ledTimer.Due? && s.ledTimer.at == OpenedAt(es) + 100 * (Blinks(es) - BlinksAtOpen(es) + 1)
                  && Clock(es) - OpenedAt(es) <= 5000)
            && (!Opened(es) ==> s.pairingTimer == Stopped && s.ledTimer == Stopped && !s.provisioningLed)
  {
    InvExec(INITIAL, es);
    RunTells(es);
  }

  /** Responses are the non-confirmable GETs that came while the events had the window open. */
  lemma AnsweredRequests(es: seq<Event>)
    requires Runs(INITIAL, es)
    ensures Exec(INITIAL, es).responses == Answered(es)
    ensures Exec(INITIAL, es).connectionLed == Attached(es)
  {
    RunTells(es);
  }

  /**
   * An open window has blinked once per full 100 ms since the last button press (one blink may be due). The LED
   * is lit exactly if an odd number of blinks happened since start-up, the last of them in this window.
   */
  lemma BlinkCadence(es: seq<Event>)
    requires Runs(INITIAL, es) && Opened(es)
    ensures var blinks := Blinks(es) - BlinksAtOpen(es);
            && 100 * blinks <= Clock(es) - OpenedAt(es) <= 100 * (blinks + 1)
            && (Exec(INITIAL, es).provisioningLed <==> Blinks(es) > BlinksAtDark(es) && Blinks(es) % 2 == 1)
  {
    InvExec(INITIAL, es);
    RunTells(es);
  }

  /** At five seconds an open window lets no time pass until something has been handled, and expiry closes it. */
  lemma WindowEndsOnTime(es: seq<Event>, ms: nat)
    requires Runs(INITIAL, es) && Opened(es) && Clock(es) == OpenedAt(es) + 5000
    ensures Possible(Exec(INITIAL, es), Elapse(ms)) ==> ms == 0
    ensures Possible(Exec(INITIAL, es), PairingExpiry) && !Apply(Exec(INITIAL, es), PairingExpiry).enabled
  {
    InvExec(INITIAL, es);
    RunTells(es);
  }

  /** Response sent, window shut: a second request in the same window gets no answer. */
  lemma SecondRequestUnanswered(s: Server, between: seq<Event>, e: Event)
    requires WindowInv(s) && s.enabled && Runs(Apply(s, Provisioning(NonConfirmable, Get, true)), between)
    requires Button !in between && e.Provisioning?
    ensures var t := Exec(Apply(s, Provisioning(NonConfirmable, Get, true)), between);
            t.responses == s.responses + 1 && Apply(t, e) == t
  {
    ClosedStaysClosed(Apply(s, Provisioning(NonConfirmable, Get, true)), between);
  }

  lemma {:induction false} ClosedStaysClosed(s: Server, es: seq<Event>)
    requires !s.enabled && Button !in es
    ensures !Exec(s, es).enabled && Exec(s, es).responses == s.responses
    decreases |es|
  {
    if es != [] {
      assert es[0] != Button;
      ClosedStaysClosed(Apply(s, es[0]), es[1..]);
    }
  }

  // ---- the light ----

  /**
   * Every run drives the light LED to what the light commands among its events mean: the first bytes of the
   * non-confirmable PUTs that have a payload.
   */
  lemma LightFollowsCommands(es: seq<Event>)
    requires Runs(INITIAL, es)
    ensures Exec(INITIAL, es).lightLed == LightAfter(Commands(es))
  {
    InvExec(INITIAL, es);
    RunTells(es);
  }

  // ---- the code ----

  class Device {
    var now: nat
    var provisioningEnabled: bool
    var ledTimer: Timer
    var provisioningTimer: Timer
    var provisioningLed: bool
    var blinkVal: bool
    var connectionLed: bool
    var lightVal: bool
    var lightLed: bool
    ghost var openedAt: nat
    ghost var blinks: nat
    ghost var atOpen: nat
    ghost var atDark: nat
    ghost var responses: nat
    ghost var commands: seq<u8>

    ghost function State(): Server
      reads this
    {
      Server(now, provisioningEnabled, ledTimer, provisioningTimer, provisioningLed, blinkVal, connectionLed,
             lightVal, lightLed, openedAt, blinks, atOpen, atDark, responses, commands)
    }

    constructor ()
      ensures State() == INITIAL
    {
      now, provisioningEnabled, ledTimer, provisioningTimer := 0, false, Stopped, Stopped;
      provisioningLed, blinkVal, connectionLed, lightVal, lightLed := false, true, false, false, false;
      openedAt, blinks, atOpen, atDark, responses, commands := 0, 0, 0, 0, 0, [];
    }

    method OnLightRequest(command: u8)
      modifies this
      ensures State() == LightCommand(old(State()), command)
    {
      commands := commands + [command];
      if command == CMD_ON {
        lightLed := true;
        lightVal := true;
      } else if command == CMD_OFF {
        lightLed := false;
        lightVal := false;
      } else if command == CMD_TOGGLE {
        lightVal := !lightVal;
        lightLed := lightVal;
      }
    }

    method ActivateProvisioning()
      modifies this
      ensures State() == Apply(old(State()), Button)
    {
      provisioningEnabled := true;
      openedAt, atOpen := now, blinks;
      if ledTimer == Stopped {
        atDark := blinks;
      }
      ledTimer := Due(now + BLINK_PERIOD);
      provisioningTimer := Due(now + PAIRING_TIME);
    }

    method StopLedTimer()
      modifies this
      ensures State() == old(State()).(ledTimer := Stopped,
                provisioningLed := if old(ledTimer) == Stopped then old(provisioningLed) else false)
    {
      if ledTimer != Stopped {
        ledTimer := Stopped;
        provisioningLed := false;
      }
    }

    method DeactivateProvisioning()
      modifies this
      ensures State() == Deactivate(old(State()))
    {
      StopLedTimer();
      provisioningTimer := Stopped;
      if provisioningEnabled {
        provisioningEnabled := false;
      }
    }

    method OnProvisioningTimerExpiry()
      requires Possible(State(), PairingExpiry)
      modifies this
      ensures State() == Apply(old(State()), PairingExpiry)
    {
      provisioningTimer := Stopped;
      DeactivateProvisioning();
    }

    method OnLedTimerExpiry()
      requires Possible(State(), LedExpiry)
      modifies this
      ensures State() == Apply(old(State()), LedExpiry)
    {
      ledTimer := Due(now + BLINK_PERIOD);
      provisioningLed := blinkVal;
      blinkVal := !blinkVal;
      blinks := blinks + 1;
    }

    method OnThreadStateChanged(roleChanged: bool, attached: bool)
      modifies this
      ensures State() == if roleChanged then Apply(old(State()), RoleChanged(attached)) else old(State())
    {
      if roleChanged {
        if attached {
          connectionLed := true;
        } else {
          connectionLed := false;
          DeactivateProvisioning();
        }
      }
    }

    method ProvisioningRequestHandler(mtype: MsgType, code: Code, sendOk: bool)
      modifies this
      ensures State() == Apply(old(State()), Provisioning(mtype, code, sendOk))
    {
      if !provisioningEnabled {
        return;
      }
      if mtype == NonConfirmable && code == Get {
        if sendOk {
          responses := responses + 1;
          DeactivateProvisioning();
          provisioningEnabled := false;
        }
      }
    }

    method LightRequestHandler(mtype: MsgType, code: Code, payload: seq<u8>)
      modifies this
      ensures State() == Apply(old(State()), LightPut(mtype, code, payload))
    {
      if mtype != NonConfirmable {
        return;
      }
      if code != Put {
        return;
      }
      if |payload| < 1 {
        return;
      }
      OnLightRequest(payload[0]);
    }
  }
}
