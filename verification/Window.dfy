/**
 * The pairing window of the CoAP server (coap_server.c, ot_coap_utils.c) under every interleaving of the
 * work queue that activates it, the timer expiry that closes it, and the OpenThread thread that either
 * closes it on a role change or serves provisioning requests.
 */
module Window {
  /** Where `deactivate_provisionig` is. */
  datatype Deact = StopLed | StopPairing | CheckFlag | ClearFlag

  datatype Activator = Resting | FlagSet | LedStarted
  datatype Expiry = NoExpiry | Expiring(at: Deact)

  /**
   * `Checked` has passed the enabled check of the request handler, `Serving` has sent the response and is
   * inside the provisioning callback, `Closing` is about to clear the flag a second time.
   */
  datatype Thread = Waiting | Detaching(at: Deact) | Checked(nonGet: bool, token: nat) | Serving(at: Deact) | Closing

  /** `activations` counts flag sets by the activator, `responses` the successful provisioning responses. */
  datatype Win = Win(
    enabled: bool, pairing: bool, blink: bool,
    activator: Activator, expiry: Expiry, thread: Thread,
    activations: nat, responses: nat)

  datatype Label =
    | Activate | StartLed | StartPairing
    | Expire | ExpiryStep
    | RoleLost | Request(nonGet: bool, token: nat) | Respond(ok: bool) | ThreadStep

  const INITIAL := Win(false, false, false, Resting, NoExpiry, Waiting, 0, 0)

  predicate Enabled(w: Win, l: Label) {
    match l
    case Activate => w.activator == Resting
    case StartLed => w.activator == FlagSet
    case StartPairing => w.activator == LedStarted
    case Expire => w.pairing && w.expiry == NoExpiry
    case ExpiryStep => w.expiry.Expiring?
    case RoleLost => w.thread == Waiting
    case Request(_, _) => w.thread == Waiting
    case Respond(_) => w.thread.Checked?
    case ThreadStep => w.thread.Detaching? || w.thread.Serving? || w.thread == Closing
  }

  predicate Stops(w: Win, d: Deact) {
    d == ClearFlag || (d == CheckFlag && !w.enabled)
  }

  /** The next step of the deactivation; meaningful while it does not stop. */
  function After(d: Deact): Deact {
    match d
    case StopLed => StopPairing
    case StopPairing => CheckFlag
    case _ => ClearFlag
  }

  function DeactStep(w: Win, d: Deact): Win {
    match d
    case StopLed => w.(blink := false)
    case StopPairing => w.(pairing := false)
    case CheckFlag => w
    case ClearFlag => w.(enabled := false)
  }

  function Next(w: Win, l: Label): Win
    requires Enabled(w, l)
  {
    match l
    case Activate => w.(enabled := true, activator := FlagSet, activations := w.activations + 1)
    case StartLed => w.(blink := true, activator := LedStarted)
    case StartPairing => w.(pairing := true, activator := Resting)
    case Expire => w.(pairing := false, expiry := Expiring(StopLed))
    case ExpiryStep =>
      DeactStep(w, w.expiry.at).(expiry := if Stops(w, w.expiry.at) then NoExpiry else Expiring(After(w.expiry.at)))
    case RoleLost => w.(thread := Detaching(StopLed))
    case Request(nonGet, token) => if w.enabled then w.(thread := Checked(nonGet, token)) else w
    case Respond(ok) =>
      if w.thread.nonGet && ok then w.(thread := Serving(StopLed), responses := w.responses + 1)
      else w.(thread := Waiting)
    case ThreadStep =>
      match w.thread
      case Detaching(d) => DeactStep(w, d).(thread := if Stops(w, d) then Waiting else Detaching(After(d)))
      case Serving(d) => DeactStep(w, d).(thread := if Stops(w, d) then Closing else Serving(After(d)))
      case _ => w.(enabled := false, thread := Waiting)
  }

  predicate Runs(w: Win, ls: seq<Label>)
    decreases |ls|
  {
    ls == [] || (Enabled(w, ls[0]) && Runs(Next(w, ls[0]), ls[1..]))
  }

  function Exec(w: Win, ls: seq<Label>): Win
    requires Runs(w, ls)
    decreases |ls|
  {
    if ls == [] then w else Exec(Next(w, ls[0]), ls[1..])
  }

  ghost predicate Reachable(w: Win) {
    exists ls: seq<Label> :: Runs(INITIAL, ls) && w == Exec(INITIAL, ls)
  }

  /** A deactivation that has dealt with the pairing timer and will still look at the flag. */
  predicate Past(d: Deact) {
    d == CheckFlag || d == ClearFlag
  }

  /** Somebody is bound to close the window. */
  predicate Bound(w: Win) {
    || w.pairing
    || w.activator != Resting
    || w.expiry.Expiring?
    || ((w.thread.Detaching? || w.thread.Serving?) && Past(w.thread.at))
    || w.thread == Closing
  }

  predicate WindowInv(w: Win) {
    w.enabled ==> Bound(w)
  }

  /** An open window blinks, or is about to, or is about to be closed. */
  predicate BlinkOnInv(w: Win) {
    w.enabled ==>
      || w.blink
      || w.activator == FlagSet
      || (w.expiry.Expiring? && w.expiry.at != StopLed)
      || ((w.thread.Detaching? || w.thread.Serving?) && w.thread.at != StopLed)
      || w.thread == Closing
  }

  /** Every response took an activation of its own. */
  predicate SingleUseInv(w: Win) {
    match w.thread
    case Checked(_, _) => w.responses < w.activations
    case Serving(_) => w.responses <= w.activations
    case Closing => w.responses <= w.activations
    case _ => w.responses + (if w.enabled then 1 else 0) <= w.activations
  }

  lemma InvStep(w: Win, l: Label)
    requires WindowInv(w) && BlinkOnInv(w) && SingleUseInv(w) && Enabled(w, l)
    ensures WindowInv(Next(w, l)) && BlinkOnInv(Next(w, l)) && SingleUseInv(Next(w, l))
  {
  }

  lemma {:induction false} InvExec(w: Win, ls: seq<Label>)
    requires WindowInv(w) && BlinkOnInv(w) && SingleUseInv(w) && Runs(w, ls)
    ensures WindowInv(Exec(w, ls)) && BlinkOnInv(Exec(w, ls)) && SingleUseInv(Exec(w, ls))
    decreases |ls|
  {
    if ls != [] {
      InvStep(w, ls[0]);
      InvExec(Next(w, ls[0]), ls[1..]);
    }
  }

  /**
   * An open window has the pairing timer running, or an activator about to start it, or the expiry of the
   * timer or a deactivation that has stopped it still under way. At rest it has both timers running.
   */
  lemma WindowHasCloser(w: Win)
    requires Reachable(w)
    ensures w.enabled ==> Bound(w)
    ensures w.enabled && w.activator == Resting && w.expiry == NoExpiry && w.thread == Waiting ==> w.pairing && w.blink
  {
    var ls: seq<Label> :| Runs(INITIAL, ls) && w == Exec(INITIAL, ls);
    InvExec(INITIAL, ls);
  }

  /** Pairing is single-use: one activation pays for at most one response, whatever falls in between. */
  lemma PairingIsSingleUse(w: Win)
    requires Reachable(w)
    ensures w.responses <= w.activations
    ensures w.thread == Waiting && w.enabled ==> w.responses < w.activations
  {
    var ls: seq<Label> :| Runs(INITIAL, ls) && w == Exec(INITIAL, ls);
    InvExec(INITIAL, ls);
  }

  // ---- the window closes when the contexts run on ----

  function Left(d: Deact): nat {
    match d
    case StopLed => 4
    case StopPairing => 3
    case CheckFlag => 2
    case ClearFlag => 1
  }

  /** A bound on the steps until the activator, the thread, the expiry and the pairing timer have nothing left to do. */
  function Work(w: Win): nat {
    (match w.thread
     case Waiting => 0
     case Detaching(d) => Left(d)
     case Checked(_, _) => 6
     case Serving(d) => 1 + Left(d)
     case Closing => 1)
    + (match w.activator
       case Resting => 0
       case FlagSet => 7
       case LedStarted => 6)
    + (if w.expiry.Expiring? then Left(w.expiry.at) else 0)
    + (if w.pairing then 5 else 0)
  }

  /** The steps that finish what is under way: no new activation, role change or request. */
  predicate Finishes(l: Label) {
    l != Activate && l != RoleLost && !l.Request?
  }

  lemma FinishStep(w: Win, l: Label)
    requires WindowInv(w) && Enabled(w, l) && Finishes(l)
    ensures WindowInv(Next(w, l)) && Work(Next(w, l)) < Work(w)
  {
    if l == ThreadStep {
      ThreadWorks(w);
    }
  }

  lemma ThreadWorks(w: Win)
    requires Enabled(w, ThreadStep)
    ensures Work(Next(w, ThreadStep)) < Work(w)
  {
  }

  /** Something is left to do exactly while some step can finish something. */
  lemma WorkIffEnabled(w: Win)
    ensures Work(w) > 0 <==> exists l :: Enabled(w, l) && Finishes(l)
  {
    if w.activator == FlagSet {
      assert Enabled(w, StartLed);
    } else if w.activator == LedStarted {
      assert Enabled(w, StartPairing);
    } else if w.expiry.Expiring? {
      assert Enabled(w, ExpiryStep);
    } else if w.pairing {
      assert Enabled(w, Expire);
    } else if w.thread.Checked? {
      assert Enabled(w, Respond(true));
    } else if w.thread != Waiting {
      assert Enabled(w, ThreadStep);
    }
  }

  /**
   * From any state, activation in progress or not, every schedule that lets the contexts finish is short, and when
   * it cannot be continued the window is closed.
   */
  lemma {:induction false} WindowCloses(w: Win, ls: seq<Label>)
    requires WindowInv(w) && Runs(w, ls) && forall l :: l in ls ==> Finishes(l)
    ensures |ls| + Work(Exec(w, ls)) <= Work(w) <= 22
    ensures (exists l :: Enabled(Exec(w, ls), l) && Finishes(l)) || !Exec(w, ls).enabled
    decreases |ls|
  {
    if ls == [] {
      WorkIffEnabled(w);
    } else {
      FinishStep(w, ls[0]);
      WindowCloses(Next(w, ls[0]), ls[1..]);
    }
  }

  // ---- the blink timer ----

  /**
   * Somebody is bound to stop a running blink timer: the pairing timer when it expires, an activation that goes on
   * to start the pairing timer, or a deactivation that has not yet stopped the blink timer.
   */
  predicate BlinkBound(w: Win) {
    || w.pairing
    || w.activator != Resting
    || w.expiry == Expiring(StopLed)
    || w.thread == Detaching(StopLed)
    || w.thread == Serving(StopLed)
  }

  predicate BlinkInv(w: Win) {
    w.blink ==> BlinkBound(w)
  }

  /** The step in which one of the deactivations stops the pairing timer. */
  predicate StopsPairing(w: Win, l: Label) {
    || (l == ExpiryStep && w.expiry == Expiring(StopPairing))
    || (l == ThreadStep && (w.thread == Detaching(StopPairing) || w.thread == Serving(StopPairing)))
  }

  /**
   * A deactivation stops the pairing timer after the blink timer has been restarted behind it, with no activation
   * in progress, which would start the pairing timer again, and no other deactivation about to stop the blink timer.
   */
  predicate Orphans(w: Win, l: Label) {
    && StopsPairing(w, l) && w.blink && w.activator == Resting
    && w.expiry != Expiring(StopLed) && w.thread != Detaching(StopLed) && w.thread != Serving(StopLed)
  }

  /** No other step leaves the blink timer without anybody to stop it. */
  lemma BlinkOrphanedIff(w: Win, l: Label)
    requires BlinkInv(w) && Enabled(w, l)
    ensures !BlinkInv(Next(w, l)) <==> Orphans(w, l)
  {
  }

  predicate OrphansIn(w: Win, ls: seq<Label>)
    requires Runs(w, ls)
    decreases |ls|
  {
    ls != [] && (Orphans(w, ls[0]) || OrphansIn(Next(w, ls[0]), ls[1..]))
  }

  /** A running blink timer has somebody bound to stop it in every state of the run. */
  predicate BlinkInvThroughout(w: Win, ls: seq<Label>)
    requires Runs(w, ls)
    decreases |ls|
  {
    BlinkInv(w) && (ls == [] || BlinkInvThroughout(Next(w, ls[0]), ls[1..]))
  }

  /**
   * In any run somebody is bound to stop the blink timer all along exactly when no step orphans it; such a run
   * never rests with a stopped pairing timer and a running blink timer.
   */
  lemma {:induction false} BlinkKeptIff(w: Win, ls: seq<Label>)
    requires BlinkInv(w) && Runs(w, ls)
    ensures BlinkInvThroughout(w, ls) <==> !OrphansIn(w, ls)
    ensures var t := Exec(w, ls);
            !OrphansIn(w, ls) && t.activator == Resting && t.expiry == NoExpiry && t.thread == Waiting ==>
              (t.blink ==> t.pairing)
    decreases |ls|
  {
    if ls != [] {
      BlinkOrphanedIff(w, ls[0]);
      if BlinkInv(Next(w, ls[0])) {
        BlinkKeptIff(Next(w, ls[0]), ls[1..]);
      }
    }
  }

  /** A request past the enabled check that may still be answered, and then deactivates. */
  predicate MayAnswer(w: Win) {
    w.thread.Checked? && w.thread.nonGet
  }

  /** Once nobody is bound to stop it, the blink timer runs on until the next button, role change or request. */
  lemma {:induction false} OrphanBlinksOn(w: Win, ls: seq<Label>)
    requires w.blink && !BlinkBound(w) && !MayAnswer(w)
    requires Runs(w, ls) && forall l :: l in ls ==> Finishes(l)
    ensures Exec(w, ls).blink && !BlinkBound(Exec(w, ls))
    decreases |ls|
  {
    if ls != [] {
      assert Finishes(ls[0]);
      OrphanBlinksOn(Next(w, ls[0]), ls[1..]);
    }
  }

  /**
   * When everything under way has been finished, the provisioning LED is left blinking only if a step orphaned its
   * timer, and then for certain, unless a request that was past its check at the start was still answered.
   */
  lemma {:induction false} LeftBlinkingIff(w: Win, ls: seq<Label>)
    requires BlinkInv(w) && Runs(w, ls) && forall l :: l in ls ==> Finishes(l)
    requires Work(Exec(w, ls)) == 0
    ensures Exec(w, ls).blink ==> OrphansIn(w, ls)
    ensures OrphansIn(w, ls) && !MayAnswer(w) ==> Exec(w, ls).blink
    decreases |ls|
  {
    if ls != [] {
      var u := Next(w, ls[0]);
      assert Finishes(ls[0]);
      BlinkOrphanedIff(w, ls[0]);
      if BlinkInv(u) {
        LeftBlinkingIff(u, ls[1..]);
      } else if !MayAnswer(w) {
        OrphanBlinksOn(u, ls[1..]);
      }
    }
  }

  lemma {:induction false} RunsConcat(w: Win, ls: seq<Label>, l: Label)
    requires Runs(w, ls) && Enabled(Exec(w, ls), l)
    ensures Runs(w, ls + [l]) && Exec(w, ls + [l]) == Next(Exec(w, ls), l)
    decreases |ls|
  {
    if ls == [] {
      assert ls + [l] == [l] && [l][1..] == [];
    } else {
      RunsConcat(Next(w, ls[0]), ls[1..], l);
      assert (ls + [l])[1..] == ls[1..] + [l];
    }
  }

  lemma Step(w: Win, l: Label) returns (t: Win)
    requires Reachable(w) && Enabled(w, l)
    ensures t == Next(w, l) && Reachable(t)
  {
    var ls: seq<Label> :| Runs(INITIAL, ls) && w == Exec(INITIAL, ls);
    RunsConcat(INITIAL, ls, l);
    t := Next(w, l);
  }

  /** A role change during an activation leaves the provisioning LED blinking over a closed window for good. */
  lemma BlinkOutlivesWindow() returns (w: Win)
    ensures Reachable(w) && w.blink && !w.pairing && !w.enabled
    ensures w.activator == Resting && w.expiry == NoExpiry && w.thread == Waiting
  {
    w := INITIAL;
    assert Runs(w, []) && Exec(w, []) == w;
    w := Step(w, Activate);
    w := Step(w, RoleLost);
    w := Step(w, ThreadStep);
    w := Step(w, StartLed);
    w := Step(w, StartPairing);
    w := Step(w, ThreadStep);
    w := Step(w, ThreadStep);
    w := Step(w, ThreadStep);
  }

  // ---- a swallowed button press ----

  /** A deactivation is about to stop the pairing timer. */
  predicate PairingStops(w: Win) {
    || w.expiry == Expiring(StopLed) || w.expiry == Expiring(StopPairing)
    || w.thread == Detaching(StopLed) || w.thread == Detaching(StopPairing)
    || w.thread == Serving(StopLed) || w.thread == Serving(StopPairing)
  }

  /** A running pairing timer belongs to an open window, or is about to be stopped. */
  predicate TimerInv(w: Win) {
    w.pairing ==> w.enabled || PairingStops(w)
  }

  /** A deactivation clears the flag, or the request handler clears it once more after its callback. */
  predicate ClearsFlag(w: Win, l: Label) {
    || (l == ExpiryStep && w.expiry == Expiring(ClearFlag))
    || (l == ThreadStep && (w.thread == Detaching(ClearFlag) || w.thread == Serving(ClearFlag) || w.thread == Closing))
  }

  /**
   * The flag of a new activation is cleared by somebody who stopped the timers before it: after the activation
   * has started the pairing timer, or so early that it starts the timer for a closed window.
   */
  predicate Swallows(w: Win, l: Label) {
    !PairingStops(w) && ((ClearsFlag(w, l) && w.pairing) || (l == StartPairing && !w.enabled))
  }

  /** A deactivation goes on to clear the flag exactly if it finds it set; the request handler does so either way. */
  lemma FlagIsChecked(w: Win, l: Label)
    requires Enabled(w, l)
    ensures l == ExpiryStep && w.expiry == Expiring(CheckFlag) ==>
              Next(w, l) == w.(expiry := if w.enabled then Expiring(ClearFlag) else NoExpiry)
    ensures l == ThreadStep && w.thread == Detaching(CheckFlag) ==>
              Next(w, l) == w.(thread := if w.enabled then Detaching(ClearFlag) else Waiting)
    ensures l == ThreadStep && w.thread == Serving(CheckFlag) ==>
              Next(w, l) == w.(thread := if w.enabled then Serving(ClearFlag) else Closing)
    ensures l == ThreadStep && w.thread == Closing ==> Next(w, l) == w.(enabled := false, thread := Waiting)
  {
  }

  lemma PressSwallowedIff(w: Win, l: Label)
    requires TimerInv(w) && Enabled(w, l)
    ensures !TimerInv(Next(w, l)) <==> Swallows(w, l)
  {
  }

  predicate SwallowsIn(w: Win, ls: seq<Label>)
    requires Runs(w, ls)
    decreases |ls|
  {
    ls != [] && (Swallows(w, ls[0]) || SwallowsIn(Next(w, ls[0]), ls[1..]))
  }

  predicate TimerInvThroughout(w: Win, ls: seq<Label>)
    requires Runs(w, ls)
    decreases |ls|
  {
    TimerInv(w) && (ls == [] || TimerInvThroughout(Next(w, ls[0]), ls[1..]))
  }

  /**
   * In any run a running pairing timer means an open window all along exactly when no step swallows a press; such a
   * run, wherever it rests, has both or neither.
   */
  lemma {:induction false} PressKeptIff(w: Win, ls: seq<Label>)
    requires TimerInv(w) && WindowInv(w) && BlinkOnInv(w) && SingleUseInv(w) && Runs(w, ls)
    ensures TimerInvThroughout(w, ls) <==> !SwallowsIn(w, ls)
    ensures var t := Exec(w, ls);
            !SwallowsIn(w, ls) && t.activator == Resting && t.expiry == NoExpiry && t.thread == Waiting ==>
              t.enabled == t.pairing
    decreases |ls|
  {
    if ls != [] {
      PressSwallowedIff(w, ls[0]);
      InvStep(w, ls[0]);
      if TimerInv(Next(w, ls[0])) {
        PressKeptIff(Next(w, ls[0]), ls[1..]);
      }
    }
  }

  lemma WindowOpens() returns (w: Win)
    ensures Reachable(w) && w == Win(true, true, true, Resting, NoExpiry, Waiting, 1, 0)
  {
    w := INITIAL;
    assert Runs(w, []) && Exec(w, []) == w;
    w := Step(w, Activate);
    w := Step(w, StartLed);
    w := Step(w, StartPairing);
  }

  /** After an answered request and its callback, the handler is still to clear the flag once more. */
  lemma CallbackReturns() returns (w: Win)
    ensures Reachable(w) && w == Win(false, false, false, Resting, NoExpiry, Closing, 1, 1)
  {
    w := WindowOpens();
    w := Step(w, Request(true, 0));
    w := Step(w, Respond(true));
    w := Step(w, ThreadStep);
    assert w.thread == Serving(StopPairing);
    w := Step(w, ThreadStep);
    w := Step(w, ThreadStep);
    assert w.thread == Serving(ClearFlag);
    w := Step(w, ThreadStep);
  }

  /** A button pressed while an answered request is being finished: timer and LED run, and the window is closed. */
  lemma PressSwallowed() returns (w: Win)
    ensures Reachable(w) && w.pairing && w.blink && !w.enabled && w.activations == 2 && w.responses == 1
    ensures w.activator == Resting && w.expiry == NoExpiry && w.thread == Waiting
  {
    w := CallbackReturns();
    w := Step(w, Activate);
    w := Step(w, StartLed);
    w := Step(w, StartPairing);
    w := Step(w, ThreadStep);
  }
}
