/**
 * Pairing end to end: one client, any number of servers, and a network that may lose, duplicate, delay and
 * reorder messages but does not forge them. Every server runs all interleavings of the window module.
 * Requests are non-confirmable (section 4.3 of RFC 7252) and responses echo their token (section 5.3.1).
 */
module Pairing {
  import opened Common
  import opened CoapClient
  import Window

  datatype Msg = Ask(token: nat) | Answer(token: nat, eid: Addr)

  /**
   * Messages stay in `net` for ever: taking one twice is a duplicate, never taking it a loss.
   * `asked` holds the tokens of the client's requests, `passed` the servers whose handler passed the enabled
   * check for a non-confirmable GET.
   */
  datatype World = World(servers: seq<Window.Win>, client: Client, net: set<Msg>, asked: set<nat>, passed: set<nat>)

  datatype Label =
    | AtServer(i: nat, l: Window.Label)
    | AtClient(e: Event, token: nat)
    | Deliver(m: Msg)

  function Start(n: nat, period: nat, med: bool): World {
    World(seq(n, i => Window.INITIAL), Initial(period, med), {}, {}, {})
  }

  /** The client step that sends a provisioning request. */
  predicate Asks(c: Client, e: Event) {
    e.RunWork? && c.queue != [] && c.queue[0] == Provision
  }

  predicate Enabled(w: World, l: Label) {
    match l
    case AtServer(i, sl) =>
      && i < |w.servers| && Window.Enabled(w.servers[i], sl)
      && (sl.Request? && sl.nonGet ==> Ask(sl.token) in w.net)
    case AtClient(e, token) => !e.Reply? && CoapClient.Possible(w.client, e) && token !in w.asked
    case Deliver(m) => m in w.net && m.Answer? && m.token in w.asked
  }

  predicate Passes(s: Window.Win, l: Window.Label) {
    l.Request? && l.nonGet && s.enabled
  }

  predicate Responds(s: Window.Win, l: Window.Label) {
    l == Window.Respond(true) && s.thread.Checked? && s.thread.nonGet
  }

  function Next(w: World, l: Label, eids: seq<Addr>, sedBuild: bool): World
    requires Enabled(w, l) && |eids| == |w.servers|
  {
    match l
    case AtServer(i, sl) =>
      var s := w.servers[i];
      w.(servers := w.servers[i := Window.Next(s, sl)],
         net := if Responds(s, sl) then w.net + {Answer(s.thread.token, eids[i])} else w.net,
         passed := if Passes(s, sl) then w.passed + {i} else w.passed)
    case AtClient(e, token) =>
      w.(client := CoapClient.Apply(w.client, e, sedBuild),
         net := if Asks(w.client, e) then w.net + {Ask(token)} else w.net,
         asked := if Asks(w.client, e) then w.asked + {token} else w.asked)
    case Deliver(m) => w.(client := CoapClient.Apply(w.client, Reply(Some(m.eid)), sedBuild))
  }

  predicate Runs(w: World, ls: seq<Label>, eids: seq<Addr>, sedBuild: bool)
    requires |eids| == |w.servers|
    decreases |ls|
  {
    ls == [] || (Enabled(w, ls[0]) && Runs(Next(w, ls[0], eids, sedBuild), ls[1..], eids, sedBuild))
  }

  function Exec(w: World, ls: seq<Label>, eids: seq<Addr>, sedBuild: bool): World
    requires |eids| == |w.servers| && Runs(w, ls, eids, sedBuild)
    decreases |ls|
  {
    if ls == [] then w else Exec(Next(w, ls[0], eids, sedBuild), ls[1..], eids, sedBuild)
  }

  // ---- invariants ----

  /** The addresses of the servers that passed the check. */
  function Paired(passed: set<nat>, eids: seq<Addr>): set<Addr> {
    set i | i in passed && i < |eids| :: eids[i]
  }

  predicate ServerInv(s: Window.Win, i: nat, asked: set<nat>, passed: set<nat>) {
    && Window.WindowInv(s) && Window.BlinkOnInv(s) && Window.SingleUseInv(s)
    && (s.thread.Checked? && s.thread.nonGet ==> i in passed && s.thread.token in asked)
    && (i in passed ==> s.activations >= 1)
  }

  predicate NetInv(net: set<Msg>, asked: set<nat>, known: set<Addr>) {
    forall m :: m in net ==> m.token in asked && (m.Answer? ==> m.eid in known)
  }

  ghost predicate Inv(w: World, eids: seq<Addr>) {
    && |eids| == |w.servers|
    && (forall i :: 0 <= i < |w.servers| ==> ServerInv(w.servers[i], i, w.asked, w.passed))
    && NetInv(w.net, w.asked, Paired(w.passed, eids))
    && PeerInv(w.client, Paired(w.passed, eids))
    && (forall i :: i in w.passed ==> i < |w.servers|)
  }

  lemma PairedGrows(passed: set<nat>, i: nat, eids: seq<Addr>)
    requires i < |eids|
    ensures eids[i] in Paired(passed + {i}, eids)
    ensures Paired(passed, eids) <= Paired(passed + {i}, eids)
  {
  }

  lemma PeerMonotone(c: Client, some: set<Addr>, more: set<Addr>)
    requires PeerInv(c, some) && some <= more
    ensures PeerInv(c, more)
  {
  }

  lemma ServerStep(w: World, i: nat, sl: Window.Label, eids: seq<Addr>)
    requires Inv(w, eids) && Enabled(w, AtServer(i, sl))
    ensures Inv(Next(w, AtServer(i, sl), eids, true), eids)
  {
    var s := w.servers[i];
    var t := Next(w, AtServer(i, sl), eids, true);
    assert ServerInv(s, i, w.asked, w.passed);
    Window.InvStep(s, sl);
    if sl.Request? && sl.nonGet {
      assert Ask(sl.token) in w.net;
    }
    PairedGrows(w.passed, i, eids);
    var known, known' := Paired(w.passed, eids), Paired(t.passed, eids);
    assert known <= known';
    PeerMonotone(w.client, known, known');
    forall m | m in t.net
      ensures m.token in t.asked && (m.Answer? ==> m.eid in known')
    {
      if m !in w.net {
        assert i in w.passed;
      }
    }
    forall k | 0 <= k < |t.servers|
      ensures ServerInv(t.servers[k], k, t.asked, t.passed)
    {
      assert ServerInv(w.servers[k], k, w.asked, w.passed);
    }
  }

  lemma ClientStep(w: World, e: Event, token: nat, eids: seq<Addr>, sedBuild: bool)
    requires Inv(w, eids) && Enabled(w, AtClient(e, token))
    ensures Inv(Next(w, AtClient(e, token), eids, sedBuild), eids)
  {
    var t := Next(w, AtClient(e, token), eids, sedBuild);
    var known := Paired(w.passed, eids);
    PeerStep(w.client, e, sedBuild, known);
    assert known + LearnedBy(e) == known;
    forall k | 0 <= k < |t.servers|
      ensures ServerInv(t.servers[k], k, t.asked, t.passed)
    {
      assert ServerInv(w.servers[k], k, w.asked, w.passed);
    }
  }

  lemma DeliverStep(w: World, m: Msg, eids: seq<Addr>, sedBuild: bool)
    requires Inv(w, eids) && Enabled(w, Deliver(m))
    ensures Inv(Next(w, Deliver(m), eids, sedBuild), eids)
  {
  }

  lemma {:induction false} InvExec(w: World, ls: seq<Label>, eids: seq<Addr>, sedBuild: bool)
    requires Inv(w, eids) && Runs(w, ls, eids, sedBuild)
    ensures Inv(Exec(w, ls, eids, sedBuild), eids)
    decreases |ls|
  {
    if ls != [] {
      var l := ls[0];
      match l {
        case AtServer(i, sl) => ServerStep(w, i, sl, eids);
        case AtClient(e, token) => ClientStep(w, e, token, eids, sedBuild);
        case Deliver(m) => DeliverStep(w, m, eids, sedBuild);
      }
      InvExec(Next(w, l, eids, sedBuild), ls[1..], eids, sedBuild);
    }
  }

  lemma StartInv(eids: seq<Addr>, period: nat, med: bool)
    ensures Inv(Start(|eids|, period, med), eids)
  {
  }

  /** Server `i` has the address, passed the check for a GET, and had its button pressed. */
  predicate PairedWith(w: World, eids: seq<Addr>, i: nat, a: Addr) {
    i < |eids| == |w.servers| && i in w.passed && eids[i] == a && w.servers[i].activations >= 1
  }

  /**
   * In every run the stored address is zero or belongs to a server that really opened its window and passed
   * the check, and every unicast light request goes to such a server.
   */
  lemma EndToEnd(ls: seq<Label>, eids: seq<Addr>, sedBuild: bool, period: nat, med: bool)
    requires Runs(Start(|eids|, period, med), ls, eids, sedBuild)
    ensures var w := Exec(Start(|eids|, period, med), ls, eids, sedBuild);
            && (w.client.addr == NO_ADDR || exists i :: PairedWith(w, eids, i, w.client.addr))
            && (forall r :: r in w.client.sent && r.LightOne? ==> exists i :: PairedWith(w, eids, i, r.dest))
  {
    StartInv(eids, period, med);
    InvExec(Start(|eids|, period, med), ls, eids, sedBuild);
    var w := Exec(Start(|eids|, period, med), ls, eids, sedBuild);
    forall a | a in Paired(w.passed, eids)
      ensures exists i :: PairedWith(w, eids, i, a)
    {
      var i: nat :| i in w.passed && i < |eids| && eids[i] == a;
      assert ServerInv(w.servers[i], i, w.asked, w.passed);
      assert PairedWith(w, eids, i, a);
    }
    forall r | r in w.client.sent && r.LightOne?
      ensures exists i :: PairedWith(w, eids, i, r.dest)
    {
      assert ToLearned(r, Paired(w.passed, eids));
    }
  }

  // ---- what the client learns and does with it ----

  /** The address in the last answer delivered, or zero. */
  function LastDelivered(ls: seq<Label>): Addr {
    if ls == [] then Zeros(16) else
      var l := ls[|ls| - 1];
      if l.Deliver? && l.m.Answer? then l.m.eid else LastDelivered(ls[..|ls| - 1])
  }

  lemma {:induction false} RunsSnoc(w: World, ls: seq<Label>, l: Label, eids: seq<Addr>, sedBuild: bool)
    requires |eids| == |w.servers| && Runs(w, ls + [l], eids, sedBuild)
    ensures Runs(w, ls, eids, sedBuild) && Enabled(Exec(w, ls, eids, sedBuild), l)
    ensures |Exec(w, ls, eids, sedBuild).servers| == |eids|
    ensures Exec(w, ls + [l], eids, sedBuild) == Next(Exec(w, ls, eids, sedBuild), l, eids, sedBuild)
    decreases |ls|
  {
    if ls == [] {
      assert ls + [l] == [l] && [l][1..] == [];
    } else {
      assert (ls + [l])[1..] == ls[1..] + [l];
      RunsSnoc(Next(w, ls[0], eids, sedBuild), ls[1..], l, eids, sedBuild);
    }
  }

  /** Delivering an answer stores its address; no other step touches it. */
  lemma DeliverLearns(w: World, l: Label, eids: seq<Addr>, sedBuild: bool)
    requires |eids| == |w.servers| && Enabled(w, l)
    ensures Next(w, l, eids, sedBuild).client.addr == if l.Deliver? then l.m.eid else w.client.addr
  {
  }

  /** In every run the stored address is the one in the last answer delivered. */
  lemma {:induction false} LearnsLastAnswer(ls: seq<Label>, eids: seq<Addr>, sedBuild: bool, period: nat, med: bool)
    requires Runs(Start(|eids|, period, med), ls, eids, sedBuild)
    ensures Exec(Start(|eids|, period, med), ls, eids, sedBuild).client.addr == LastDelivered(ls)
    decreases |ls|
  {
    if ls != [] {
      var init, l := ls[..|ls| - 1], ls[|ls| - 1];
      assert ls == init + [l];
      RunsSnoc(Start(|eids|, period, med), init, l, eids, sedBuild);
      LearnsLastAnswer(init, eids, sedBuild, period, med);
      DeliverLearns(Exec(Start(|eids|, period, med), init, eids, sedBuild), l, eids, sedBuild);
    }
  }

  /** A unicast item sends one toggle to the stored address, unless its first two bytes are zero. */
  lemma UnicastTogglesPeer(w: World, ok: bool, token: nat, eids: seq<Addr>, sedBuild: bool)
    requires |eids| == |w.servers| && Enabled(w, AtClient(RunWork(ok), token)) && w.client.queue[0] == Unicast
    ensures var a := w.client.addr;
            Next(w, AtClient(RunWork(ok), token), eids, sedBuild).client.sent
            == w.client.sent + if a[0] == 0 && a[1] == 0 then [] else [LightOne(a, 50)]
  {
  }

  /** What a step puts on the network: a provisioning item asks, and a server that responds sends its own address. */
  lemma NetworkStep(w: World, l: Label, eids: seq<Addr>, sedBuild: bool)
    requires |eids| == |w.servers| && Enabled(w, l)
    ensures l.AtClient? && l.e.RunWork? && w.client.queue[0] == Provision ==>
              Next(w, l, eids, sedBuild).net == w.net + {Ask(l.token)}
    ensures l.AtServer? && l.l == Window.Respond(true) && w.servers[l.i].thread.nonGet ==>
              Next(w, l, eids, sedBuild).net == w.net + {Answer(w.servers[l.i].thread.token, eids[l.i])}
    ensures Next(w, l, eids, sedBuild).net != w.net ==>
              || (l.AtClient? && l.e.RunWork? && w.client.queue[0] == Provision)
              || (l.AtServer? && l.l == Window.Respond(true) && w.servers[l.i].thread.nonGet)
  {
  }

  lemma Step(w: World, ls: seq<Label>, l: Label, eids: seq<Addr>, sedBuild: bool, period: nat, med: bool)
    returns (t: World, more: seq<Label>)
    requires Runs(Start(|eids|, period, med), ls, eids, sedBuild)
    requires w == Exec(Start(|eids|, period, med), ls, eids, sedBuild) && |w.servers| == |eids| && Enabled(w, l)
    ensures more == ls + [l] && Runs(Start(|eids|, period, med), more, eids, sedBuild)
    ensures t == Next(w, l, eids, sedBuild) && t == Exec(Start(|eids|, period, med), more, eids, sedBuild)
    ensures |t.servers| == |eids|
  {
    t, more := Next(w, l, eids, sedBuild), ls + [l];
    RunsAppend(Start(|eids|, period, med), ls, l, eids, sedBuild);
  }

  lemma {:induction false} RunsAppend(w: World, ls: seq<Label>, l: Label, eids: seq<Addr>, sedBuild: bool)
    requires |eids| == |w.servers| && Runs(w, ls, eids, sedBuild)
    requires |Exec(w, ls, eids, sedBuild).servers| == |eids| && Enabled(Exec(w, ls, eids, sedBuild), l)
    ensures Runs(w, ls + [l], eids, sedBuild)
    ensures Exec(w, ls + [l], eids, sedBuild) == Next(Exec(w, ls, eids, sedBuild), l, eids, sedBuild)
    decreases |ls|
  {
    if ls == [] {
      assert ls + [l] == [l] && [l][1..] == [];
    } else {
      assert (ls + [l])[1..] == ls[1..] + [l];
      RunsAppend(Next(w, ls[0], eids, sedBuild), ls[1..], l, eids, sedBuild);
    }
  }

  /** A client that attaches and has provisioning requested asks the network once. */
  lemma ClientAsks(eids: seq<Addr>, sedBuild: bool, period: nat, med: bool) returns (w: World, ls: seq<Label>)
    ensures Runs(Start(|eids|, period, med), ls, eids, sedBuild)
    ensures w == Exec(Start(|eids|, period, med), ls, eids, sedBuild)
    ensures w.servers == seq(|eids|, i => Window.INITIAL) && w.net == {Ask(0)} && w.asked == {0}
    ensures w.client.connected && w.client.queue == [] && w.client.sent == [AskProvisioning]
  {
    w, ls := Start(|eids|, period, med), [];
    w, ls := Step(w, ls, AtClient(RoleChanged(true), 0), eids, sedBuild, period, med);
    w, ls := Step(w, ls, AtClient(RunWork(true), 0), eids, sedBuild, period, med);
    assert w.client.queue == [] && w.client.connected;
    w, ls := Step(w, ls, AtClient(Press(Provision), 0), eids, sedBuild, period, med);
    assert w.client.queue == [Provision];
    w, ls := Step(w, ls, AtClient(RunWork(true), 0), eids, sedBuild, period, med);
  }

  /** A server whose button is pressed answers the request it finds on the network. */
  lemma ServerAnswers(w0: World, ls0: seq<Label>, i: nat, eids: seq<Addr>, sedBuild: bool, period: nat, med: bool)
    returns (w: World, ls: seq<Label>)
    requires Runs(Start(|eids|, period, med), ls0, eids, sedBuild)
    requires w0 == Exec(Start(|eids|, period, med), ls0, eids, sedBuild)
    requires i < |eids| == |w0.servers| && w0.servers[i] == Window.INITIAL && Ask(0) in w0.net
    ensures Runs(Start(|eids|, period, med), ls, eids, sedBuild)
    ensures w == Exec(Start(|eids|, period, med), ls, eids, sedBuild) && |w.servers| == |eids|
    ensures Answer(0, eids[i]) in w.net && w.client == w0.client && w.asked == w0.asked
  {
    w, ls := Step(w0, ls0, AtServer(i, Window.Activate), eids, sedBuild, period, med);
    w, ls := Step(w, ls, AtServer(i, Window.Request(true, 0)), eids, sedBuild, period, med);
    assert w.servers[i].thread == Window.Checked(true, 0);
    w, ls := Step(w, ls, AtServer(i, Window.Respond(true)), eids, sedBuild, period, med);
  }

  /** Whichever server answers: there is a run in which the client learns its address and toggles its light. */
  lemma PairingSucceeds(i: nat, eids: seq<Addr>, sedBuild: bool, period: nat, med: bool)
    returns (w: World, ls: seq<Label>)
    requires i < |eids| && !(eids[i][0] == 0 && eids[i][1] == 0)
    ensures Runs(Start(|eids|, period, med), ls, eids, sedBuild)
    ensures w == Exec(Start(|eids|, period, med), ls, eids, sedBuild)
    ensures w.client.addr == eids[i] && w.client.sent == [AskProvisioning, LightOne(eids[i], 50)]
  {
    w, ls := ClientAsks(eids, sedBuild, period, med);
    w, ls := ServerAnswers(w, ls, i, eids, sedBuild, period, med);
    w, ls := Step(w, ls, Deliver(Answer(0, eids[i])), eids, sedBuild, period, med);
    assert w.client.addr == eids[i] && w.client.queue == [] && w.client.connected;
    w, ls := Step(w, ls, AtClient(Press(Unicast), 1), eids, sedBuild, period, med);
    assert w.client.queue == [Unicast];
    w, ls := Step(w, ls, AtClient(RunWork(true), 1), eids, sedBuild, period, med);
  }

  // ---- how many answers there can be ----

  function Activations(ss: seq<Window.Win>): nat {
    if ss == [] then 0 else Activations(ss[..|ss| - 1]) + ss[|ss| - 1].activations
  }

  function Responses(ss: seq<Window.Win>): nat {
    if ss == [] then 0 else Responses(ss[..|ss| - 1]) + ss[|ss| - 1].responses
  }

  lemma {:induction false} ResponsesUpdate(ss: seq<Window.Win>, i: nat, s: Window.Win)
    requires i < |ss|
    ensures Responses(ss[i := s]) == Responses(ss) - ss[i].responses + s.responses
  {
    var n := |ss| - 1;
    if i < n {
      ResponsesUpdate(ss[..n], i, s);
      assert ss[i := s][..n] == ss[..n][i := s];
    } else {
      assert ss[i := s][..n] == ss[..n];
    }
  }

  lemma {:induction false} ResponsesPaid(ss: seq<Window.Win>)
    requires forall i :: 0 <= i < |ss| ==> Window.SingleUseInv(ss[i])
    ensures Responses(ss) <= Activations(ss)
  {
    if ss != [] {
      ResponsesPaid(ss[..|ss| - 1]);
      assert Window.SingleUseInv(ss[|ss| - 1]);
    }
  }

  function Answers(net: set<Msg>): set<Msg> {
    set m | m in net && m.Answer?
  }

  lemma AnswersStep(w: World, l: Label, eids: seq<Addr>, sedBuild: bool)
    requires |eids| == |w.servers| && Enabled(w, l) && |Answers(w.net)| <= Responses(w.servers)
    ensures |Answers(Next(w, l, eids, sedBuild).net)| <= Responses(Next(w, l, eids, sedBuild).servers)
  {
    var t := Next(w, l, eids, sedBuild);
    if l.AtServer? {
      var s := w.servers[l.i];
      ResponsesUpdate(w.servers, l.i, Window.Next(s, l.l));
      if Responds(s, l.l) {
        assert Answers(t.net) == Answers(w.net) + {Answer(s.thread.token, eids[l.i])};
      }
    } else {
      assert Answers(t.net) == Answers(w.net);
    }
  }

  lemma {:induction false} AnswersExec(w: World, ls: seq<Label>, eids: seq<Addr>, sedBuild: bool)
    requires |eids| == |w.servers| && Runs(w, ls, eids, sedBuild) && |Answers(w.net)| <= Responses(w.servers)
    ensures |Answers(Exec(w, ls, eids, sedBuild).net)| <= Responses(Exec(w, ls, eids, sedBuild).servers)
    decreases |ls|
  {
    if ls != [] {
      AnswersStep(w, ls[0], eids, sedBuild);
      AnswersExec(Next(w, ls[0], eids, sedBuild), ls[1..], eids, sedBuild);
    }
  }

  /** However many copies of a request the network delivers, there are no more answers than activations. */
  lemma AnswersArePaid(ls: seq<Label>, eids: seq<Addr>, sedBuild: bool, period: nat, med: bool)
    requires Runs(Start(|eids|, period, med), ls, eids, sedBuild)
    ensures var w := Exec(Start(|eids|, period, med), ls, eids, sedBuild);
            |Answers(w.net)| <= Responses(w.servers) <= Activations(w.servers)
  {
    var w0 := Start(|eids|, period, med);
    StartInv(eids, period, med);
    InvExec(w0, ls, eids, sedBuild);
    var w := Exec(w0, ls, eids, sedBuild);
    assert Answers(w0.net) == {};
    AnswersExec(w0, ls, eids, sedBuild);
    forall i | 0 <= i < |w.servers|
      ensures Window.SingleUseInv(w.servers[i])
    {
      assert ServerInv(w.servers[i], i, w.asked, w.passed);
    }
    ResponsesPaid(w.servers);
  }
}
