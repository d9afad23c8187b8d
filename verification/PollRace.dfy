/**
 * Saving and restoring the poll period when the work queue and the reply callback really interleave.
 * The save checks, remembers the link period and sets the fast one; the restore checks, sets the link and clears.
 */
module PollRace {
  import CoapClient

  const RESPONSE_POLL_PERIOD := CoapClient.RESPONSE_POLL_PERIOD

  datatype Saver = SaverIdle | SaveChecked | PeriodTaken
  datatype Restorer = RestorerIdle | RestoreChecked | LinkRestored

  datatype Poll = Poll(saved: nat, link: nat, saver: Saver, restorer: Restorer)

  datatype Label = CheckSave | TakePeriod | SetFast | CheckRestore | SetBack | Clear

  predicate Enabled(p: Poll, l: Label) {
    match l
    case CheckSave => p.saver == SaverIdle
    case TakePeriod => p.saver == SaveChecked
    case SetFast => p.saver == PeriodTaken
    case CheckRestore => p.restorer == RestorerIdle
    case SetBack => p.restorer == RestoreChecked
    case Clear => p.restorer == LinkRestored
  }

  function Next(p: Poll, l: Label): Poll {
    match l
    case CheckSave => if p.saved == 0 then p.(saver := SaveChecked) else p
    case TakePeriod => p.(saved := p.link, saver := PeriodTaken)
    case SetFast => p.(link := RESPONSE_POLL_PERIOD, saver := SaverIdle)
    case CheckRestore => if p.saved != 0 then p.(restorer := RestoreChecked) else p
    case SetBack => p.(link := p.saved, restorer := LinkRestored)
    case Clear => p.(saved := 0, restorer := RestorerIdle)
  }

  /** What is saved and what the link uses, at every pair of program points, while the period is safe. */
  predicate Safe(p: Poll, period: nat) {
    match (p.saver, p.restorer)
    case (SaverIdle, RestorerIdle) =>
      (p.saved == 0 && p.link == period) || (p.saved == period && p.link == RESPONSE_POLL_PERIOD)
    case (SaverIdle, RestoreChecked) => p.saved == period && p.link == RESPONSE_POLL_PERIOD
    case (SaveChecked, RestorerIdle) => p.saved == 0 && p.link == period
    case (SaveChecked, _) => false
    case (PeriodTaken, RestorerIdle) => (p.saved == period || p.saved == 0) && p.link == period
    case (_, _) => p.saved == period && p.link == period
  }

  predicate Runs(p: Poll, ls: seq<Label>)
    decreases |ls|
  {
    ls == [] || (Enabled(p, ls[0]) && Runs(Next(p, ls[0]), ls[1..]))
  }

  function Exec(p: Poll, ls: seq<Label>): Poll
    decreases |ls|
  {
    if ls == [] then p else Exec(Next(p, ls[0]), ls[1..])
  }

  /** The fast period is set after a restore has already written the link, whether or not it has cleared yet. */
  predicate Loses(p: Poll, l: Label) {
    l == SetFast && (p.restorer == LinkRestored || p.saved == 0)
  }

  /** Among all steps exactly these lose the configured period. */
  lemma PeriodLostIff(p: Poll, l: Label, period: nat)
    requires period != 0 && period != RESPONSE_POLL_PERIOD && Safe(p, period) && Enabled(p, l)
    ensures !Safe(Next(p, l), period) <==> Loses(p, l)
  {
  }

  predicate LosesIn(p: Poll, ls: seq<Label>)
    requires Runs(p, ls)
    decreases |ls|
  {
    ls != [] && (Loses(p, ls[0]) || LosesIn(Next(p, ls[0]), ls[1..]))
  }

  /** The period is safe in every state of the run. */
  predicate SafeThroughout(p: Poll, ls: seq<Label>, period: nat)
    requires Runs(p, ls)
    decreases |ls|
  {
    Safe(p, period) && (ls == [] || SafeThroughout(Next(p, ls[0]), ls[1..], period))
  }

  /**
   * In any interleaving the period is safe all along exactly when no step loses it; such a run that ends with both
   * sides idle ends with the period in use, or saved while the fast one is in use.
   */
  lemma {:induction false} PeriodKeptIff(p: Poll, ls: seq<Label>, period: nat)
    requires period != 0 && period != RESPONSE_POLL_PERIOD && Safe(p, period) && Runs(p, ls)
    ensures SafeThroughout(p, ls, period) <==> !LosesIn(p, ls)
    ensures var q := Exec(p, ls);
            !LosesIn(p, ls) && q.saver == SaverIdle && q.restorer == RestorerIdle ==>
              (q.saved == 0 && q.link == period) || (q.saved == period && q.link == RESPONSE_POLL_PERIOD)
    decreases |ls|
  {
    if ls != [] {
      PeriodLostIff(p, ls[0], period);
      if Safe(Next(p, ls[0]), period) {
        PeriodKeptIff(Next(p, ls[0]), ls[1..], period);
      }
    }
  }

  /** Uninterrupted, the three steps of each side are the atomic save and restore of the client. */
  lemma UninterruptedIsAtomic(c: CoapClient.Client)
    requires !c.med
    ensures var p := Next(Poll(c.saved, c.link, SaverIdle, RestorerIdle), CheckSave);
            var q := if p.saver == SaverIdle then p else Next(Next(p, TakePeriod), SetFast);
            q == Poll(CoapClient.SavePeriod(c).saved, CoapClient.SavePeriod(c).link, SaverIdle, RestorerIdle)
    ensures var p := Next(Poll(c.saved, c.link, SaverIdle, RestorerIdle), CheckRestore);
            var q := if p.restorer == RestorerIdle then p else Next(Next(p, SetBack), Clear);
            q == Poll(CoapClient.RestorePeriod(c).saved, CoapClient.RestorePeriod(c).link, SaverIdle, RestorerIdle)
  {
  }

  /** A reply that lands between the two writes of the request: the period is neither saved nor in use. */
  lemma PeriodCanBeLost(period: nat) returns (p: Poll)
    requires period != 0 && period != RESPONSE_POLL_PERIOD
    ensures p.saver == SaverIdle && p.restorer == RestorerIdle && p.saved == 0 && p.link != period
    ensures exists ls: seq<Label> :: p == Exec(Poll(0, period, SaverIdle, RestorerIdle), ls)
                                  && Runs(Poll(0, period, SaverIdle, RestorerIdle), ls)
  {
    var p0 := Poll(0, period, SaverIdle, RestorerIdle);
    var p1 := Next(p0, CheckSave);
    var p2 := Next(p1, TakePeriod);
    var p3 := Next(p2, CheckRestore);
    var p4 := Next(p3, SetBack);
    var p5 := Next(p4, Clear);
    p := Next(p5, SetFast);
    var l6 := [SetFast];
    var l5, l4 := [Clear] + l6, [SetBack, Clear] + l6;
    var l3, l2 := [CheckRestore] + l4, [TakePeriod, CheckRestore] + l4;
    var l1 := [CheckSave] + l2;
    assert l6[1..] == [] && l5[1..] == l6 && l4[1..] == l5 && l3[1..] == l4 && l2[1..] == l3 && l1[1..] == l2;
    assert Exec(p, []) == p && Exec(p5, l6) == p && Exec(p4, l5) == p && Exec(p3, l4) == p;
    assert Exec(p2, l3) == p && Exec(p1, l2) == p && Exec(p0, l1) == p;
    assert Runs(p, []) && Runs(p5, l6) && Runs(p4, l5) && Runs(p3, l4);
    assert Runs(p2, l3) && Runs(p1, l2) && Runs(p0, l1);
  }
}
