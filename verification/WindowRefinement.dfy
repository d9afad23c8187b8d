/** The atomic handlers of the CoAP server are the handlers of the window module, each run without interruption. */
module WindowRefinement {
  import opened CoapServer
  import Window

  /** What the interleaved model sees of a server at rest after `n` activations. */
  function AtRest(s: Server, n: nat): Window.Win {
    Window.Win(s.enabled, s.pairingTimer.Due?, s.ledTimer.Due?,
               Window.Resting, Window.NoExpiry, Window.Waiting, n, s.responses)
  }

  function FinishThread(w: Window.Win): Window.Win
    decreases Window.Work(w)
  {
    if w.thread.Detaching? || w.thread.Serving? || w.thread == Window.Closing
    then FinishThread(Window.Next(w, Window.ThreadStep)) else w
  }

  function FinishExpiry(w: Window.Win): Window.Win
    decreases Window.Work(w)
  {
    if w.expiry.Expiring? then FinishExpiry(Window.Next(w, Window.ExpiryStep)) else w
  }

  lemma ButtonIsAtomic(s: Server, n: nat)
    ensures var w := Window.Next(AtRest(s, n), Window.Activate);
            Window.Next(Window.Next(w, Window.StartLed), Window.StartPairing) == AtRest(Apply(s, Button), n + 1)
  {
  }

  /** The timers once a deactivation at `d` has run out. */
  function RunOut(w: Window.Win, d: Window.Deact): Window.Win {
    w.(enabled := false, blink := if d == Window.StopLed then false else w.blink,
       pairing := if d == Window.StopLed || d == Window.StopPairing then false else w.pairing)
  }

  lemma {:induction false} ThreadRunsOut(w: Window.Win)
    requires w.thread.Detaching? || w.thread.Serving? || w.thread == Window.Closing
    ensures FinishThread(w)
         == RunOut(w, if w.thread == Window.Closing then Window.ClearFlag else w.thread.at).(thread := Window.Waiting)
    decreases Window.Work(w)
  {
    var t := Window.Next(w, Window.ThreadStep);
    if t.thread != Window.Waiting {
      ThreadRunsOut(t);
    }
  }

  lemma {:induction false} ExpiryRunsOut(w: Window.Win)
    requires w.expiry.Expiring?
    ensures FinishExpiry(w) == RunOut(w, w.expiry.at).(expiry := Window.NoExpiry)
    decreases Window.Work(w)
  {
    var t := Window.Next(w, Window.ExpiryStep);
    if t.expiry != Window.NoExpiry {
      ExpiryRunsOut(t);
    }
  }

  lemma RoleLossIsAtomic(s: Server, n: nat)
    ensures FinishThread(Window.Next(AtRest(s, n), Window.RoleLost)) == AtRest(Apply(s, RoleChanged(false)), n)
  {
    ThreadRunsOut(Window.Next(AtRest(s, n), Window.RoleLost));
  }

  lemma PairingExpiryIsAtomic(s: Server, n: nat)
    requires s.pairingTimer.Due?
    ensures FinishExpiry(Window.Next(AtRest(s, n), Window.Expire)) == AtRest(Apply(s, PairingExpiry), n)
  {
    ExpiryRunsOut(Window.Next(AtRest(s, n), Window.Expire));
  }

  /** A provisioning request from the enabled check to the end, for every kind of message and send outcome. */
  lemma RequestIsAtomic(s: Server, n: nat, mtype: MsgType, code: Code, sendOk: bool, token: nat)
    ensures var nonGet := mtype == NonConfirmable && code == Get;
            var w := Window.Next(AtRest(s, n), Window.Request(nonGet, token));
            (if w.thread.Checked? then FinishThread(Window.Next(w, Window.Respond(sendOk))) else w)
            == AtRest(Apply(s, Provisioning(mtype, code, sendOk)), n)
  {
    var nonGet := mtype == NonConfirmable && code == Get;
    var w := Window.Next(AtRest(s, n), Window.Request(nonGet, token));
    if w.thread.Checked? && nonGet && sendOk {
      ThreadRunsOut(Window.Next(w, Window.Respond(sendOk)));
    }
  }
}
