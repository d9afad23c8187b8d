/**
 * The CoAP client (coap_client_utils.c and the button and LED callbacks of coap_client.c): one work queue
 * of coalescing work items, the learned server address, the saved poll period, and the mesh command.
 */
module CoapClient {
  import opened Common
  import opened Light
  import CoapServer

  const RESPONSE_POLL_PERIOD := 100
  const ADDR_SIZE := 16

  /** An IPv6 address. */
  type Addr = a: seq<u8> | |a| == ADDR_SIZE witness Zeros(ADDR_SIZE)

  const NO_ADDR: Addr := Zeros(ADDR_SIZE)

  datatype Work = Unicast | Multicast | ModeToggle | Provision | OnConnect | OnDisconnect

  datatype Request = AskProvisioning | LightOne(dest: Addr, cmd: u8) | LightAll(cmd: u8)

  /**
   * `saved` is the static poll_period, `link` the period the link layer uses, `med` the receive-when-idle
   * mode, `queue` the pending work items, `ledOn` the connection LED.
   */
  datatype Client = Client(
    saved: nat, link: nat, med: bool, connected: bool, ledOn: bool,
    addr: Addr, command: u8, queue: seq<Work>, sent: seq<Request>)

  /** `ok` is the outcome of setting the link mode. */
  datatype Event =
    | Press(w: Work)
    | RoleChanged(attached: bool)
    | RunWork(ok: bool)
    | Reply(payload: Option<seq<u8>>)

  function Initial(period: nat, med: bool): Client {
    Client(0, period, med, false, false, NO_ADDR, CMD_OFF, [], [])
  }

  predicate Possible(c: Client, e: Event) {
    match e
    case Press(w) => w != OnConnect && w != OnDisconnect
    case RunWork(_) => c.queue != []
    case _ => true
  }

  /** `k_work_submit_to_queue`: an item that is already pending stays where it is. */
  function Submit(c: Client, w: Work): Client {
    if w in c.queue then c else c.(queue := c.queue + [w])
  }

  function SubmitIfConnected(c: Client, w: Work): Client {
    if c.connected then Submit(c, w) else c
  }

  function SavePeriod(c: Client): Client {
    if c.med || c.saved != 0 then c else c.(saved := c.link, link := RESPONSE_POLL_PERIOD)
  }

  function RestorePeriod(c: Client): Client {
    if c.med || c.saved == 0 then c else c.(link := c.saved, saved := 0)
  }

  function OtherLevel(cmd: u8): u8 {
    if cmd == CMD_OFF then CMD_ON else CMD_OFF
  }

  /** Only the first two bytes of the stored address are looked at. */
  predicate HasPeer(a: Addr) {
    a[0] != 0 || a[1] != 0
  }

  /** `sedBuild` is the CONFIG_OPENTHREAD_MTD_SED build option. */
  function Perform(c: Client, w: Work, ok: bool, sedBuild: bool): Client {
    match w
    case Unicast => if HasPeer(c.addr) then c.(sent := c.sent + [LightOne(c.addr, CMD_TOGGLE)]) else c
    case Multicast =>
      c.(command := OtherLevel(c.command), sent := c.sent + [LightAll(OtherLevel(c.command))])
    case ModeToggle => if ok then c.(med := !c.med) else c
    case Provision =>
      var d := if sedBuild then SavePeriod(c) else c;
      d.(sent := d.sent + [AskProvisioning])
    case OnConnect => c.(ledOn := true)
    case OnDisconnect => c.(ledOn := false)
  }

  function Learn(c: Client, payload: Option<seq<u8>>): Client {
    if payload.Some? && |payload.value| == ADDR_SIZE then c.(addr := payload.value) else c
  }

  function Apply(c: Client, e: Event, sedBuild: bool): Client
    requires Possible(c, e)
  {
    match e
    case Press(w) =>
      if w == ModeToggle then (if sedBuild then Submit(c, w) else c) else SubmitIfConnected(c, w)
    case RoleChanged(attached) =>
      Submit(c, if attached then OnConnect else OnDisconnect).(connected := attached)
    case RunWork(ok) => Perform(c.(queue := c.queue[1..]), c.queue[0], ok, sedBuild)
    case Reply(payload) => if sedBuild then RestorePeriod(Learn(c, payload)) else Learn(c, payload)
  }

  predicate Runs(c: Client, es: seq<Event>, sedBuild: bool)
    decreases |es|
  {
    es == [] || (Possible(c, es[0]) && Runs(Apply(c, es[0], sedBuild), es[1..], sedBuild))
  }

  function Exec(c: Client, es: seq<Event>, sedBuild: bool): Client
    requires Runs(c, es, sedBuild)
    decreases |es|
  {
    if es == [] then c else Exec(Apply(c, es[0], sedBuild), es[1..], sedBuild)
  }

  // ---- what the events of a run say ----

  /** The last role change was an attach. */
  function Attached(es: seq<Event>): bool {
    if es == [] then false
    else if es[|es| - 1].RoleChanged? then es[|es| - 1].attached
    else Attached(es[..|es| - 1])
  }

  /** The item an event submits: mode toggles in a sleepy build, other buttons while attached, role changes always. */
  function Submitted(attached: bool, e: Event, sedBuild: bool): Option<Work> {
    match e
    case Press(w) => if (if w == ModeToggle then sedBuild else attached) then Some(w) else None
    case RoleChanged(now) => Some(if now then OnConnect else OnDisconnect)
    case _ => None
  }

  /** Items pend first in, first out, and no item twice. */
  function QueueAfter(q: seq<Work>, e: Event, w: Option<Work>): seq<Work> {
    if e.RunWork? then (if q == [] then [] else q[1..])
    else if w.Some? && w.value !in q then q + [w.value]
    else q
  }

  /** The pending items. */
  function Pending(es: seq<Event>, sedBuild: bool): seq<Work> {
    if es == [] then [] else
      var init, e := es[..|es| - 1], es[|es| - 1];
      QueueAfter(Pending(init, sedBuild), e, Submitted(Attached(init), e, sedBuild))
  }

  /** `e` runs the item `w` after `es`. */
  predicate Performs(es: seq<Event>, e: Event, sedBuild: bool, w: Work) {
    e.RunWork? && Pending(es, sedBuild) != [] && Pending(es, sedBuild)[0] == w
  }

  /** The work items run, in order. */
  function Ran(es: seq<Event>, sedBuild: bool): seq<Work> {
    if es == [] then [] else
      var init, e := es[..|es| - 1], es[|es| - 1];
      Ran(init, sedBuild)
      + if e.RunWork? && Pending(init, sedBuild) != [] then [Pending(init, sedBuild)[0]] else []
  }

  /** The payload of the last reply that had 16 bytes, or zero. */
  function LastAddress(es: seq<Event>): Addr {
    if es == [] then Zeros(16) else
      var e := es[|es| - 1];
      if e.Reply? && e.payload.Some? && |e.payload.value| == 16 then e.payload.value
      else LastAddress(es[..|es| - 1])
  }

  /** The starting mode, flipped by every mode toggle that succeeded. */
  function Mode(es: seq<Event>, sedBuild: bool, med: bool): bool {
    if es == [] then med else
      var init, e := es[..|es| - 1], es[|es| - 1];
      Mode(init, sedBuild, med) != (Performs(init, e, sedBuild, ModeToggle) && e.ok)
  }

  /**
   * Every provisioning item asks; a mesh item sends ON and OFF in turn; a unicast item toggles the last address
   * learned, if its first two bytes are not zero.
   */
  function Requests(es: seq<Event>, sedBuild: bool): seq<Request> {
    if es == [] then [] else
      var init, e := es[..|es| - 1], es[|es| - 1];
      var sent, a := Requests(init, sedBuild), LastAddress(init);
      if Performs(init, e, sedBuild, Provision) then sent + [AskProvisioning]
      else if Performs(init, e, sedBuild, Multicast)
      then sent + [LightAll(if |MeshCommands(sent)| % 2 == 0 then 49 else 48)]
      else if Performs(init, e, sedBuild, Unicast) && !(a[0] == 0 && a[1] == 0) then sent + [LightOne(a, 50)]
      else sent
  }

  /** The fast period is in use: a provisioning item ran in sleepy mode and no reply came in sleepy mode since. */
  function Fast(es: seq<Event>, sedBuild: bool, med: bool): bool {
    if es == [] then false else
      var init, e := es[..|es| - 1], es[|es| - 1];
      if !sedBuild || Mode(init, sedBuild, med) then Fast(init, sedBuild, med)
      else if Performs(init, e, sedBuild, Provision) then true
      else if e.Reply? then false
      else Fast(init, sedBuild, med)
  }

  predicate TellsQueue(c: Client, es: seq<Event>, sedBuild: bool) {
    c.connected == Attached(es) && c.queue == Pending(es, sedBuild)
  }

  predicate TellsAddress(c: Client, es: seq<Event>) {
    c.addr == LastAddress(es)
  }

  predicate TellsLed(c: Client, es: seq<Event>, sedBuild: bool) {
    c.ledOn == LedWhenDone(false, Ran(es, sedBuild))
  }

  predicate TellsMode(c: Client, es: seq<Event>, sedBuild: bool, med: bool) {
    c.med == Mode(es, sedBuild, med)
  }

  predicate TellsRequests(c: Client, es: seq<Event>, sedBuild: bool) {
    c.sent == Requests(es, sedBuild)
  }

  predicate TellsPeriod(c: Client, es: seq<Event>, sedBuild: bool, med: bool, period: nat) {
    period != 0 ==>
      (c.saved, c.link) == if Fast(es, sedBuild, med) then (period, 100) else (0, period)
  }

  lemma PendingSnoc(es: seq<Event>, e: Event, sedBuild: bool)
    ensures Pending(es + [e], sedBuild) == QueueAfter(Pending(es, sedBuild), e, Submitted(Attached(es), e, sedBuild))
    ensures Attached(es + [e]) == if e.RoleChanged? then e.attached else Attached(es)
  {
    assert (es + [e])[..|es|] == es;
  }

  lemma WorkKeepsRest(c: Client, ok: bool, sedBuild: bool)
    requires c.queue != []
    ensures Apply(c, RunWork(ok), sedBuild).queue == c.queue[1..]
    ensures Apply(c, RunWork(ok), sedBuild).connected == c.connected
  {
  }

  lemma QueueStep(c: Client, e: Event, sedBuild: bool)
    requires Possible(c, e)
    ensures Apply(c, e, sedBuild).queue == QueueAfter(c.queue, e, Submitted(c.connected, e, sedBuild))
    ensures Apply(c, e, sedBuild).connected == if e.RoleChanged? then e.attached else c.connected
  {
    if e.RunWork? {
      WorkKeepsRest(c, e.ok, sedBuild);
    }
  }

  lemma TellsQueueStep(c: Client, es: seq<Event>, e: Event, sedBuild: bool)
    requires TellsQueue(c, es, sedBuild) && Possible(c, e)
    ensures TellsQueue(Apply(c, e, sedBuild), es + [e], sedBuild)
  {
    PendingSnoc(es, e, sedBuild);
    QueueStep(c, e, sedBuild);
  }

  lemma TellsAddressStep(c: Client, es: seq<Event>, e: Event, sedBuild: bool)
    requires TellsAddress(c, es) && Possible(c, e)
    ensures TellsAddress(Apply(c, e, sedBuild), es + [e])
  {
    assert (es + [e])[..|es|] == es;
  }

  lemma RanSnoc(es: seq<Event>, e: Event, sedBuild: bool)
    ensures Ran(es + [e], sedBuild)
         == Ran(es, sedBuild) + if e.RunWork? && Pending(es, sedBuild) != [] then [Pending(es, sedBuild)[0]] else []
  {
    assert (es + [e])[..|es|] == es;
  }

  lemma LedStep(c: Client, e: Event, sedBuild: bool)
    requires Possible(c, e)
    ensures Apply(c, e, sedBuild).ledOn
         == if !e.RunWork? then c.ledOn
            else if c.queue[0] == OnConnect then true
            else if c.queue[0] == OnDisconnect then false
            else c.ledOn
  {
  }

  lemma TellsLedStep(c: Client, es: seq<Event>, e: Event, sedBuild: bool)
    requires TellsLed(c, es, sedBuild) && TellsQueue(c, es, sedBuild) && Possible(c, e)
    ensures TellsLed(Apply(c, e, sedBuild), es + [e], sedBuild)
  {
    RanSnoc(es, e, sedBuild);
    LedStep(c, e, sedBuild);
    if e.RunWork? {
      LastDecides(false, Ran(es, sedBuild), c.queue[0]);
    } else {
      assert Ran(es, sedBuild) + [] == Ran(es, sedBuild);
    }
  }

  lemma ModeSnoc(es: seq<Event>, e: Event, sedBuild: bool, med: bool)
    ensures Mode(es + [e], sedBuild, med)
         == (Mode(es, sedBuild, med) != (Performs(es, e, sedBuild, ModeToggle) && e.ok))
  {
    assert (es + [e])[..|es|] == es;
  }

  lemma ModeStep(c: Client, e: Event, sedBuild: bool)
    requires Possible(c, e)
    ensures Apply(c, e, sedBuild).med == (c.med != (e.RunWork? && c.queue[0] == ModeToggle && e.ok))
  {
  }

  lemma TellsModeStep(c: Client, es: seq<Event>, e: Event, sedBuild: bool, med: bool)
    requires TellsMode(c, es, sedBuild, med) && TellsQueue(c, es, sedBuild) && Possible(c, e)
    ensures TellsMode(Apply(c, e, sedBuild), es + [e], sedBuild, med)
  {
    ModeSnoc(es, e, sedBuild, med);
    ModeStep(c, e, sedBuild);
  }

  lemma TellsRequestsStep(c: Client, es: seq<Event>, e: Event, sedBuild: bool)
    requires TellsRequests(c, es, sedBuild) && TellsQueue(c, es, sedBuild) && TellsAddress(c, es)
    requires MeshInv(c) && Possible(c, e)
    ensures TellsRequests(Apply(c, e, sedBuild), es + [e], sedBuild)
  {
    assert (es + [e])[..|es|] == es;
    SentStep(c, e, sedBuild);
  }

  lemma FastSnoc(es: seq<Event>, e: Event, sedBuild: bool, med: bool)
    ensures Fast(es + [e], sedBuild, med)
         == if !sedBuild || Mode(es, sedBuild, med) then Fast(es, sedBuild, med)
            else if Performs(es, e, sedBuild, Provision) then true
            else if e.Reply? then false
            else Fast(es, sedBuild, med)
  {
    assert (es + [e])[..|es|] == es;
  }

  /** The poll period changes only when a provisioning item saves it or a reply restores it. */
  lemma PeriodStep(c: Client, e: Event, sedBuild: bool)
    requires Possible(c, e)
    ensures var d := Apply(c, e, sedBuild);
            (d.saved, d.link)
            == if sedBuild && e.RunWork? && c.queue[0] == Provision then (SavePeriod(c).saved, SavePeriod(c).link)
               else if sedBuild && e.Reply? then (RestorePeriod(c).saved, RestorePeriod(c).link)
               else (c.saved, c.link)
  {
  }

  lemma TellsPeriodStep(c: Client, es: seq<Event>, e: Event, sedBuild: bool, med: bool, period: nat)
    requires TellsPeriod(c, es, sedBuild, med, period) && TellsQueue(c, es, sedBuild)
    requires TellsMode(c, es, sedBuild, med) && Possible(c, e)
    ensures TellsPeriod(Apply(c, e, sedBuild), es + [e], sedBuild, med, period)
  {
    FastSnoc(es, e, sedBuild, med);
    PeriodStep(c, e, sedBuild);
  }

  lemma {:induction false} RunsSplit(c: Client, a: seq<Event>, b: seq<Event>, sedBuild: bool)
    requires Runs(c, a + b, sedBuild)
    ensures Runs(c, a, sedBuild) && Runs(Exec(c, a, sedBuild), b, sedBuild)
    ensures Exec(c, a + b, sedBuild) == Exec(Exec(c, a, sedBuild), b, sedBuild)
    decreases |a|
  {
    if a == [] {
      assert a + b == b;
    } else {
      assert (a + b)[1..] == a[1..] + b;
      RunsSplit(Apply(c, a[0], sedBuild), a[1..], b, sedBuild);
    }
  }

  /** In every run the client's state is what the events say, by folds that know nothing of the handlers. */
  lemma {:induction false} RunTells(es: seq<Event>, sedBuild: bool, period: nat, med: bool)
    requires Runs(Initial(period, med), es, sedBuild)
    ensures TellsQueue(Exec(Initial(period, med), es, sedBuild), es, sedBuild)
    ensures TellsAddress(Exec(Initial(period, med), es, sedBuild), es)
    ensures TellsLed(Exec(Initial(period, med), es, sedBuild), es, sedBuild)
    ensures TellsMode(Exec(Initial(period, med), es, sedBuild), es, sedBuild, med)
    ensures TellsRequests(Exec(Initial(period, med), es, sedBuild), es, sedBuild)
    ensures TellsPeriod(Exec(Initial(period, med), es, sedBuild), es, sedBuild, med, period)
    decreases |es|
  {
    if es != [] {
      var init, e := es[..|es| - 1], es[|es| - 1];
      assert es == init + [e] && [e][1..] == [];
      RunsSplit(Initial(period, med), init, [e], sedBuild);
      var c := Exec(Initial(period, med), init, sedBuild);
      RunTells(init, sedBuild, period, med);
      RequestsExec(Initial(period, med), init, sedBuild, {});
      TellsQueueStep(c, init, e, sedBuild);
      TellsAddressStep(c, init, e, sedBuild);
      TellsLedStep(c, init, e, sedBuild);
      TellsModeStep(c, init, e, sedBuild, med);
      TellsRequestsStep(c, init, e, sedBuild);
      TellsPeriodStep(c, init, e, sedBuild, med, period);
    }
  }

  // ---- the poll period ----

  /** The configured period is in use, or saved while the fast one is in use. */
  predicate PeriodSafe(c: Client, period: nat) {
    || (c.saved == 0 && c.link == period)
    || (c.saved == period && c.link == RESPONSE_POLL_PERIOD)
  }

  lemma {:induction false} PeriodStaysSafe(c: Client, es: seq<Event>, sedBuild: bool, period: nat)
    requires Runs(c, es, sedBuild) && period != 0 && PeriodSafe(c, period)
    ensures PeriodSafe(Exec(c, es, sedBuild), period)
    decreases |es|
  {
    if es != [] {
      PeriodStaysSafe(Apply(c, es[0], sedBuild), es[1..], sedBuild, period);
    }
  }

  /** A reply taken in sleepy mode puts the configured period back, whatever its payload. */
  lemma ReplyRestoresPeriod(es: seq<Event>, payload: Option<seq<u8>>, period: nat, med: bool)
    requires period != 0 && Runs(Initial(period, med), es, true) && !Exec(Initial(period, med), es, true).med
    ensures var c := Apply(Exec(Initial(period, med), es, true), Reply(payload), true);
            c.link == period && c.saved == 0
  {
    PeriodStaysSafe(Initial(period, med), es, true, period);
  }

  /** A reply in sleepy mode would put the configured period back now. */
  predicate Restorable(c: Client, period: nat) {
    RestorePeriod(c.(med := false)).link == period
  }

  ghost predicate AlwaysRestorable(period: nat) {
    forall es :: Runs(Initial(period, false), es, true) ==>
      Restorable(Exec(Initial(period, false), es, true), period)
  }

  /** Zero marks "nothing saved", so a zero period is the one that a request loses. */
  lemma RestorableIff(period: nat)
    ensures AlwaysRestorable(period) <==> period != 0
  {
    if period != 0 {
      forall es | Runs(Initial(period, false), es, true)
        ensures Restorable(Exec(Initial(period, false), es, true), period)
      {
        PeriodStaysSafe(Initial(period, false), es, true, period);
      }
    } else {
      var l4 := [RunWork(true)];
      var l3, l2 := [RunWork(true)] + l4, [Press(Provision), RunWork(true)] + l4;
      var l1 := [RoleChanged(true)] + l2;
      assert l4[1..] == [] && l3[1..] == l4 && l2[1..] == l3 && l1[1..] == l2;
      var c0 := Initial(period, false);
      var c1 := Apply(c0, l1[0], true);
      var c2 := Apply(c1, l2[0], true);
      assert c2.queue == [OnConnect, Provision];
      var c3 := Apply(c2, l3[0], true);
      assert c3.queue == [Provision];
      var c4 := Apply(c3, l4[0], true);
      assert Runs(c4, [], true) && Runs(c3, l4, true) && Runs(c2, l3, true) && Runs(c1, l2, true);
      assert Runs(c0, l1, true) && Exec(c4, [], true) == c4 && Exec(c3, l4, true) == c4;
      assert Exec(c2, l3, true) == c4 && Exec(c1, l2, true) == c4 && Exec(c0, l1, true) == c4;
      assert !Restorable(c4, period);
    }
  }

  // ---- requests ----

  function MeshCommands(rs: seq<Request>): seq<u8> {
    if rs == [] then [] else
      MeshCommands(rs[..|rs| - 1]) + match rs[|rs| - 1] { case LightAll(cmd) => [cmd] case _ => [] }
  }

  /** Mesh commands alternate, starting with ON; `command` is the last of them. */
  ghost predicate Alternates(cs: seq<u8>, command: u8) {
    && (forall i :: 0 <= i < |cs| ==> cs[i] == if i % 2 == 0 then CMD_ON else CMD_OFF)
    && command == (if |cs| % 2 == 1 then CMD_ON else CMD_OFF)
  }

  ghost predicate MeshInv(c: Client) {
    Alternates(MeshCommands(c.sent), c.command)
  }

  predicate ToLearned(r: Request, learned: set<Addr>) {
    r.LightOne? ==> r.dest in learned && HasPeer(r.dest) && r.cmd == CMD_TOGGLE
  }

  /** Light requests to one server go only to an address that was learned. */
  ghost predicate PeerInv(c: Client, learned: set<Addr>) {
    && (c.addr == NO_ADDR || c.addr in learned)
    && (forall r :: r in c.sent ==> ToLearned(r, learned))
  }

  function LearnedBy(e: Event): set<Addr> {
    if e.Reply? && e.payload.Some? && |e.payload.value| == ADDR_SIZE then {e.payload.value} else {}
  }

  /** The well-formed payloads among the replies of a run. */
  function Learned(es: seq<Event>): set<Addr> {
    if es == [] then {} else LearnedBy(es[0]) + Learned(es[1..])
  }

  lemma MeshSnoc(rs: seq<Request>, r: Request)
    ensures MeshCommands(rs + [r]) == MeshCommands(rs) + if r.LightAll? then [r.cmd] else []
  {
  }

  /** What a step appends to the requests sent. */
  function Emitted(c: Client, e: Event): seq<Request>
    requires Possible(c, e)
  {
    if !e.RunWork? then []
    else match c.queue[0]
      case Unicast => if HasPeer(c.addr) then [LightOne(c.addr, CMD_TOGGLE)] else []
      case Multicast => [LightAll(OtherLevel(c.command))]
      case Provision => [AskProvisioning]
      case _ => []
  }

  lemma WorkSends(c: Client, ok: bool, sedBuild: bool)
    requires c.queue != []
    ensures Apply(c, RunWork(ok), sedBuild).sent == c.sent + Emitted(c, RunWork(ok))
    ensures Apply(c, RunWork(ok), sedBuild).command
         == if c.queue[0] == Multicast then OtherLevel(c.command) else c.command
    ensures Apply(c, RunWork(ok), sedBuild).addr == c.addr
  {
  }

  lemma SentStep(c: Client, e: Event, sedBuild: bool)
    requires Possible(c, e)
    ensures Apply(c, e, sedBuild).sent == c.sent + Emitted(c, e)
    ensures Apply(c, e, sedBuild).command
         == if e.RunWork? && c.queue[0] == Multicast then OtherLevel(c.command) else c.command
    ensures Apply(c, e, sedBuild).addr == c.addr || Apply(c, e, sedBuild).addr in LearnedBy(e)
  {
    if e.RunWork? {
      WorkSends(c, e.ok, sedBuild);
    }
  }

  lemma AlternatesOn(cs: seq<u8>, command: u8)
    requires Alternates(cs, command)
    ensures Alternates(cs + [OtherLevel(command)], OtherLevel(command))
  {
  }

  lemma MeshStep(c: Client, e: Event, sedBuild: bool)
    requires MeshInv(c) && Possible(c, e)
    ensures MeshInv(Apply(c, e, sedBuild))
  {
    var d, out := Apply(c, e, sedBuild), Emitted(c, e);
    SentStep(c, e, sedBuild);
    if out == [] {
      assert d.sent == c.sent && d.command == c.command;
    } else {
      assert out == [out[0]];
      MeshSnoc(c.sent, out[0]);
      if out[0].LightAll? {
        AlternatesOn(MeshCommands(c.sent), c.command);
      } else {
        assert MeshCommands(c.sent) + [] == MeshCommands(c.sent) && d.command == c.command;
      }
    }
  }

  lemma PeerStep(c: Client, e: Event, sedBuild: bool, learned: set<Addr>)
    requires PeerInv(c, learned) && Possible(c, e)
    ensures PeerInv(Apply(c, e, sedBuild), learned + LearnedBy(e))
  {
    SentStep(c, e, sedBuild);
    forall r | r in c.sent + Emitted(c, e)
      ensures ToLearned(r, learned + LearnedBy(e))
    {
      assert r in c.sent || r in Emitted(c, e);
      assert r in c.sent ==> ToLearned(r, learned);
    }
  }

  lemma {:induction false} RequestsExec(c: Client, es: seq<Event>, sedBuild: bool, learned: set<Addr>)
    requires MeshInv(c) && PeerInv(c, learned) && Runs(c, es, sedBuild)
    ensures MeshInv(Exec(c, es, sedBuild)) && PeerInv(Exec(c, es, sedBuild), learned + Learned(es))
    decreases |es|
  {
    if es == [] {
      assert learned + Learned(es) == learned;
    } else {
      MeshStep(c, es[0], sedBuild);
      PeerStep(c, es[0], sedBuild, learned);
      RequestsExec(Apply(c, es[0], sedBuild), es[1..], sedBuild, learned + LearnedBy(es[0]));
      assert learned + LearnedBy(es[0]) + Learned(es[1..]) == learned + Learned(es);
    }
  }

  /** The k-th mesh command is ON exactly when k is odd, and unicast toggles go only to learned addresses. */
  lemma RequestsOfRun(es: seq<Event>, sedBuild: bool, period: nat, med: bool)
    requires Runs(Initial(period, med), es, sedBuild)
    ensures var c := Exec(Initial(period, med), es, sedBuild);
            && (forall k :: 1 <= k <= |MeshCommands(c.sent)| ==>
                  (MeshCommands(c.sent)[k - 1] == CMD_ON <==> k % 2 == 1))
            && (forall r :: r in c.sent && r.LightOne? ==> r.dest in Learned(es) && r.dest != NO_ADDR)
            && (c.addr == NO_ADDR || c.addr in Learned(es))
  {
    RequestsExec(Initial(period, med), es, sedBuild, {});
    assert {} + Learned(es) == Learned(es);
  }

  /** The last light command among the events of a server's run is `cmd`. */
  predicate TookLast(es: seq<CoapServer.Event>, cmd: u8) {
    var commands := CoapServer.Commands(es);
    CoapServer.Runs(CoapServer.INITIAL, es) && commands != [] && commands[|commands| - 1] == cmd
  }

  /**
   * Two servers that took the k-th mesh command last drive their lights alike, on exactly when k is odd, whatever
   * else happened to each of them.
   */
  lemma MeshLightsAgree(es: seq<Event>, sedBuild: bool, period: nat, med: bool, k: nat,
                        a: seq<CoapServer.Event>, b: seq<CoapServer.Event>)
    requires Runs(Initial(period, med), es, sedBuild)
    requires 1 <= k <= |MeshCommands(Exec(Initial(period, med), es, sedBuild).sent)|
    requires TookLast(a, MeshCommands(Exec(Initial(period, med), es, sedBuild).sent)[k - 1])
    requires TookLast(b, MeshCommands(Exec(Initial(period, med), es, sedBuild).sent)[k - 1])
    ensures CoapServer.Exec(CoapServer.INITIAL, a).lightLed == (k % 2 == 1)
    ensures CoapServer.Exec(CoapServer.INITIAL, b).lightLed == (k % 2 == 1)
  {
    RequestsExec(Initial(period, med), es, sedBuild, {});
    var cmd := MeshCommands(Exec(Initial(period, med), es, sedBuild).sent)[k - 1];
    assert cmd == if k % 2 == 1 then CMD_ON else CMD_OFF;
    ServerShows(a, cmd);
    ServerShows(b, cmd);
  }

  lemma ServerShows(es: seq<CoapServer.Event>, cmd: u8)
    requires TookLast(es, cmd) && (cmd == CMD_ON || cmd == CMD_OFF)
    ensures CoapServer.Exec(CoapServer.INITIAL, es).lightLed == (cmd == CMD_ON)
  {
    CoapServer.LightFollowsCommands(es);
  }

  /** Nothing in the queue needs a connection. */
  predicate Idling(c: Client) {
    !c.connected && forall i :: 0 <= i < |c.queue| ==> c.queue[i] == ModeToggle || c.queue[i] == OnDisconnect
  }

  lemma IdlingStep(c: Client, e: Event, sedBuild: bool)
    requires Idling(c) && Possible(c, e) && e != RoleChanged(true)
    ensures Idling(Apply(c, e, sedBuild)) && Apply(c, e, sedBuild).sent == c.sent
  {
  }

  /** Never attached, nothing sent, whatever is pressed: only mode toggles and disconnects are ever queued. */
  lemma {:induction false} SilentUntilAttached(c: Client, es: seq<Event>, sedBuild: bool)
    requires Runs(c, es, sedBuild) && Idling(c) && forall i :: 0 <= i < |es| ==> es[i] != RoleChanged(true)
    ensures Exec(c, es, sedBuild).sent == c.sent
    decreases |es|
  {
    if es != [] {
      IdlingStep(c, es[0], sedBuild);
      SilentUntilAttached(Apply(c, es[0], sedBuild), es[1..], sedBuild);
    }
  }

  // ---- the connection LED ----

  /** What the LED shows once the pending work items have run. */
  function LedWhenDone(led: bool, queue: seq<Work>): bool {
    if queue == [] then led
    else if queue[|queue| - 1] == OnConnect then true
    else if queue[|queue| - 1] == OnDisconnect then false
    else LedWhenDone(led, queue[..|queue| - 1])
  }

  predicate LedWillAgree(c: Client) {
    LedWhenDone(c.ledOn, c.queue) == c.connected
  }

  lemma {:induction false} LedWhenDoneStep(led: bool, queue: seq<Work>)
    requires queue != []
    ensures LedWhenDone(led, queue)
         == LedWhenDone(if queue[0] == OnConnect then true else if queue[0] == OnDisconnect then false else led,
                        queue[1..])
  {
    if |queue| > 1 {
      assert queue[1..][..|queue| - 2] == queue[..|queue| - 1][1..];
      LedWhenDoneStep(led, queue[..|queue| - 1]);
    }
  }

  lemma LastDecides(led: bool, queue: seq<Work>, w: Work)
    ensures LedWhenDone(led, queue + [w])
         == if w == OnConnect then true else if w == OnDisconnect then false else LedWhenDone(led, queue)
  {
    assert (queue + [w])[..|queue|] == queue;
  }

  lemma WorkKeepsLed(c: Client, ok: bool, sedBuild: bool)
    requires c.queue != []
    ensures LedWillAgree(Apply(c, RunWork(ok), sedBuild)) == LedWillAgree(c)
  {
    LedWhenDoneStep(c.ledOn, c.queue);
    var d := Apply(c, RunWork(ok), sedBuild);
    assert d.queue == c.queue[1..] && d.connected == c.connected;
  }

  /** Running work items, buttons and replies never change which way the LED will settle. */
  lemma LedSettlesTheSame(c: Client, e: Event, sedBuild: bool)
    requires Possible(c, e) && !e.RoleChanged?
    ensures LedWillAgree(Apply(c, e, sedBuild)) == LedWillAgree(c)
  {
    if e.RunWork? {
      WorkKeepsLed(c, e.ok, sedBuild);
    } else if e.Press? {
      LastDecides(c.ledOn, c.queue, e.w);
    } else {
      assert Apply(c, e, sedBuild).queue == c.queue;
    }
  }

  /** The work item of a role change. */
  function ItemFor(attached: bool): Work {
    if attached then OnConnect else OnDisconnect
  }

  /** No item is pending twice. */
  predicate NoRepeats(queue: seq<Work>) {
    forall i, j :: 0 <= i < j < |queue| ==> queue[i] != queue[j]
  }

  /** The item of the role change is pending, and the opposite one is pending behind it. */
  predicate Outrun(queue: seq<Work>, attached: bool) {
    exists i, j :: 0 <= i < j < |queue| && queue[i] == ItemFor(attached) && queue[j] == ItemFor(!attached)
  }

  lemma {:induction false} LedByQueue(led: bool, queue: seq<Work>, attached: bool)
    requires NoRepeats(queue) && ItemFor(attached) in queue
    ensures LedWhenDone(led, queue) == attached <==> !Outrun(queue, attached)
  {
    var n := |queue| - 1;
    var init, last := queue[..n], queue[n];
    if last == ItemFor(attached) {
      assert forall i :: 0 <= i < n ==> queue[i] != last;
    } else {
      assert ItemFor(attached) in init;
      if last == ItemFor(!attached) {
        var i :| 0 <= i < n && queue[i] == ItemFor(attached);
      } else {
        LedByQueue(led, init, attached);
        assert Outrun(init, attached) ==> Outrun(queue, attached);
        if i, j :| 0 <= i < j < |queue| && queue[i] == ItemFor(attached) && queue[j] == ItemFor(!attached) {
          assert init[i] == queue[i] && init[j] == queue[j];
        }
      }
    }
  }

  /**
   * After a role change the LED will settle wrong exactly when the change's own work item was already pending, so
   * that submitting it did nothing, and the opposite one was pending behind it.
   */
  lemma LedFollowsRoleIff(c: Client, attached: bool, sedBuild: bool)
    requires NoRepeats(c.queue)
    ensures !LedWillAgree(Apply(c, RoleChanged(attached), sedBuild)) <==> Outrun(c.queue, attached)
  {
    if ItemFor(attached) in c.queue {
      LedByQueue(c.ledOn, c.queue, attached);
    } else {
      LastDecides(c.ledOn, c.queue, ItemFor(attached));
    }
  }

  lemma {:induction false} NeverTwice(c: Client, es: seq<Event>, sedBuild: bool)
    requires NoRepeats(c.queue) && Runs(c, es, sedBuild)
    ensures NoRepeats(Exec(c, es, sedBuild).queue)
    decreases |es|
  {
    if es != [] {
      NeverTwiceStep(c, es[0], sedBuild);
      NeverTwice(Apply(c, es[0], sedBuild), es[1..], sedBuild);
    }
  }

  lemma NeverTwiceStep(c: Client, e: Event, sedBuild: bool)
    requires NoRepeats(c.queue) && Possible(c, e)
    ensures NoRepeats(Apply(c, e, sedBuild).queue)
  {
    if e.RunWork? {
      assert Apply(c, e, sedBuild).queue == c.queue[1..];
    }
  }

  lemma {:induction false} LedSettlesOverRuns(c: Client, es: seq<Event>, sedBuild: bool)
    requires Runs(c, es, sedBuild) && forall e :: e in es ==> !e.RoleChanged?
    ensures LedWillAgree(Exec(c, es, sedBuild)) == LedWillAgree(c)
    decreases |es|
  {
    if es != [] {
      LedSettlesTheSame(c, es[0], sedBuild);
      LedSettlesOverRuns(Apply(c, es[0], sedBuild), es[1..], sedBuild);
    }
  }

  /**
   * After any run whose last role change comes at the end of `a`, the LED will settle wrong exactly when that change
   * found its item outrun; once the queue is empty, the LED is wrong exactly then.
   */
  lemma LedOfRunIff(a: seq<Event>, attached: bool, b: seq<Event>, sedBuild: bool, period: nat, med: bool)
    requires Runs(Initial(period, med), a + ([RoleChanged(attached)] + b), sedBuild)
    requires forall e :: e in b ==> !e.RoleChanged?
    ensures Runs(Initial(period, med), a, sedBuild)
    ensures var c := Exec(Initial(period, med), a + ([RoleChanged(attached)] + b), sedBuild);
            var wrong := Outrun(Pending(a, sedBuild), attached);
            && c.connected == attached
            && (!LedWillAgree(c) <==> wrong)
            && (c.queue == [] ==> (c.ledOn != attached <==> wrong))
  {
    RunsSplit(Initial(period, med), a, [RoleChanged(attached)] + b, sedBuild);
    var c := Exec(Initial(period, med), a, sedBuild);
    var d := Apply(c, RoleChanged(attached), sedBuild);
    assert ([RoleChanged(attached)] + b)[1..] == b;
    NeverTwice(Initial(period, med), a, sedBuild);
    RunTells(a, sedBuild, period, med);
    LedFollowsRoleIff(c, attached, sedBuild);
    LedSettlesOverRuns(d, b, sedBuild);
    StaysConnected(d, b, sedBuild);
  }

  lemma {:induction false} StaysConnected(c: Client, es: seq<Event>, sedBuild: bool)
    requires Runs(c, es, sedBuild) && forall e :: e in es ==> !e.RoleChanged?
    ensures Exec(c, es, sedBuild).connected == c.connected
    decreases |es|
  {
    if es != [] {
      assert Apply(c, es[0], sedBuild).connected == c.connected;
      StaysConnected(Apply(c, es[0], sedBuild), es[1..], sedBuild);
    }
  }

  /** Attach, detach and attach again before the work queue runs: connected, and the LED goes dark. */
  lemma LedGoesDarkWhileConnected()
    ensures var es: seq<Event> := [RoleChanged(true), RoleChanged(false), RoleChanged(true)];
            && Runs(Initial(1, false), es, true)
            && Exec(Initial(1, false), es, true).connected
            && !LedWhenDone(Exec(Initial(1, false), es, true).ledOn, Exec(Initial(1, false), es, true).queue)
  {
  }

  // ---- the code ----

  class Device {
    const sedBuild: bool
    var pollPeriod: nat
    var linkPeriod: nat
    var rxOnWhenIdle: bool
    var isConnected: bool
    var connectionLed: bool
    var uniqueLocalAddr: Addr
    var command: u8
    var queue: seq<Work>
    ghost var sent: seq<Request>

    ghost function State(): Client
      reads this
    {
      Client(pollPeriod, linkPeriod, rxOnWhenIdle, isConnected, connectionLed, uniqueLocalAddr, command, queue, sent)
    }

    constructor (sedBuild: bool, period: nat, med: bool)
      ensures State() == Initial(period, med) && this.sedBuild == sedBuild
    {
      this.sedBuild := sedBuild;
      pollPeriod, linkPeriod, rxOnWhenIdle := 0, period, med;
      isConnected, connectionLed, uniqueLocalAddr, command := false, false, NO_ADDR, CMD_OFF;
      queue, sent := [], [];
    }

    method PollPeriodResponseSet()
      modifies this`pollPeriod, this`linkPeriod
      ensures State() == SavePeriod(old(State()))
    {
      if rxOnWhenIdle {
        return;
      }
      if pollPeriod == 0 {
        pollPeriod := linkPeriod;
        linkPeriod := RESPONSE_POLL_PERIOD;
      }
    }

    method PollPeriodRestore()
      modifies this`pollPeriod, this`linkPeriod
      ensures State() == RestorePeriod(old(State()))
    {
      if rxOnWhenIdle {
        return;
      }
      if pollPeriod != 0 {
        linkPeriod := pollPeriod;
        pollPeriod := 0;
      }
    }

    /** `printable` is the outcome of `inet_ntop`; the address is stored before it is asked. */
    method OnProvisioningReply(payload: Option<seq<u8>>, printable: bool) returns (ret: int)
      modifies this`uniqueLocalAddr, this`pollPeriod, this`linkPeriod
      ensures State() == Apply(old(State()), Reply(payload), sedBuild)
      ensures payload.Some? && |payload.value| == 16 ==> uniqueLocalAddr == payload.value
      ensures payload == None || |payload.value| != 16 ==> uniqueLocalAddr == old(uniqueLocalAddr)
      ensures sedBuild && !rxOnWhenIdle && old(pollPeriod) != 0 ==> linkPeriod == old(pollPeriod) && pollPeriod == 0
      ensures !sedBuild || rxOnWhenIdle || old(pollPeriod) == 0 ==>
                linkPeriod == old(linkPeriod) && pollPeriod == old(pollPeriod)
      ensures ret == 0 <==> payload.Some? && |payload.value| == ADDR_SIZE && printable
    {
      ret := 0;
      if payload == None || |payload.value| != ADDR_SIZE {
        ret := -22;
      } else {
        uniqueLocalAddr := payload.value;
        if !printable {
          ret := -28;
        }
      }
      if sedBuild {
        PollPeriodRestore();
      }
    }

    method ToggleOneLight()
      modifies this`sent
      ensures State() == Perform(old(State()), Unicast, true, sedBuild)
      ensures sent == old(sent) + if uniqueLocalAddr[0] == 0 && uniqueLocalAddr[1] == 0 then []
                                  else [LightOne(uniqueLocalAddr, 50)]
    {
      if uniqueLocalAddr[0] == 0 && uniqueLocalAddr[1] == 0 {
        return;
      }
      sent := sent + [LightOne(uniqueLocalAddr, CMD_TOGGLE)];
    }

    method ToggleMeshLights()
      modifies this`command, this`sent
      ensures State() == Perform(old(State()), Multicast, true, sedBuild)
      ensures command == (if old(command) == 48 then 49 else 48) && sent == old(sent) + [LightAll(command)]
    {
      command := if command == CMD_OFF then CMD_ON else CMD_OFF;
      sent := sent + [LightAll(command)];
    }

    method SendProvisioningRequest()
      modifies this`sent, this`pollPeriod, this`linkPeriod
      ensures State() == Perform(old(State()), Provision, true, sedBuild)
    {
      if sedBuild {
        PollPeriodResponseSet();
      }
      sent := sent + [AskProvisioning];
    }

    method ToggleMinimalSleepyEndDevice(ok: bool)
      modifies this`rxOnWhenIdle
      ensures State() == Perform(old(State()), ModeToggle, ok, sedBuild)
      ensures rxOnWhenIdle == (old(rxOnWhenIdle) != ok)
    {
      var mode := !rxOnWhenIdle;
      if ok {
        rxOnWhenIdle := mode;
      }
    }

    method SubmitWork(w: Work)
      modifies this`queue
      ensures State() == Submit(old(State()), w)
    {
      if w !in queue {
        queue := queue + [w];
      }
    }

    method SubmitWorkIfConnected(w: Work)
      modifies this`queue
      ensures State() == SubmitIfConnected(old(State()), w)
    {
      if isConnected {
        SubmitWork(w);
      }
    }

    method OnButton(w: Work)
      requires Possible(State(), Press(w))
      modifies this`queue
      ensures State() == Apply(old(State()), Press(w), sedBuild)
    {
      if w == ModeToggle {
        if sedBuild {
          SubmitWork(w);
        }
      } else {
        SubmitWorkIfConnected(w);
      }
    }

    method OnThreadStateChanged(roleChanged: bool, attached: bool)
      modifies this`queue, this`isConnected
      ensures State() == if roleChanged then Apply(old(State()), RoleChanged(attached), sedBuild) else old(State())
    {
      if roleChanged {
        if attached {
          SubmitWork(OnConnect);
          isConnected := true;
        } else {
          SubmitWork(OnDisconnect);
          isConnected := false;
        }
      }
    }

    /** The work queue thread takes the oldest pending item; `ok` is the outcome of setting the link mode. */
    method RunOldestWork(ok: bool)
      requires queue != []
      modifies this
      ensures State() == Apply(old(State()), RunWork(ok), sedBuild)
    {
      var w := queue[0];
      queue := queue[1..];
      match w
      case Unicast => ToggleOneLight();
      case Multicast => ToggleMeshLights();
      case ModeToggle => ToggleMinimalSleepyEndDevice(ok);
      case Provision => SendProvisioningRequest();
      case OnConnect => connectionLed := true;
      case OnDisconnect => connectionLed := false;
    }
  }
}
