/**
 * The risk gate: a counter of live combos bounded by the configured maximum, a ticket-size
 * cap, and an exponentially weighted moving average of realised PnL that pauses new
 * deployments while it is negative. The mutex around the state is left out: the model has
 * a single owner.
 */
module ArbRisk {
  import opened ArbModel
  import opened ArbConfig

  /** Smoothing factor of the PnL average. */
  const ALPHA: real := 0.2

  datatype RiskState = RiskState(liveCombos: U32, ewmaPnl: real)

  /** The decision `approve` takes and the state it leaves behind. */
  datatype Decision = Decision(approved: bool, next: RiskState)

  /** `RiskManager::approve` on a state: three refusals, checked in order, then one more live combo. */
  function ApproveStep(s: RiskState, config: AppConfig, notionalUsd: real): (d: Decision)
    ensures s.liveCombos >= config.maxConcurrentCombos ==> !d.approved
    ensures notionalUsd > config.maxTicketUsd ==> !d.approved
    ensures s.ewmaPnl < 0.0 ==> !d.approved
    ensures d.approved <==>
      s.liveCombos < config.maxConcurrentCombos && notionalUsd <= config.maxTicketUsd && s.ewmaPnl >= 0.0
    ensures d.approved ==> d.next.liveCombos == s.liveCombos + 1 && d.next.ewmaPnl == s.ewmaPnl
    ensures !d.approved ==> d.next == s
  {
    if s.liveCombos >= config.maxConcurrentCombos then Decision(false, s)
    else if notionalUsd > config.maxTicketUsd then Decision(false, s)
    else if s.ewmaPnl < 0.0 then Decision(false, s)
    else Decision(true, s.(liveCombos := s.liveCombos + 1))
  }

  /** `RiskManager::release`: one combo fewer, saturating at zero. */
  function ReleaseStep(s: RiskState): (t: RiskState)
    ensures s.liveCombos > 0 ==> t.liveCombos == s.liveCombos - 1
    ensures s.liveCombos == 0 ==> t.liveCombos == 0
    ensures t.ewmaPnl == s.ewmaPnl
  {
    if s.liveCombos > 0 then s.(liveCombos := s.liveCombos - 1) else s
  }

  /** `RiskManager::record_pnl`: the new average is 0.8 of the old one plus 0.2 of the PnL. */
  function RecordPnlStep(s: RiskState, pnlUsd: real): (t: RiskState)
    ensures t.liveCombos == s.liveCombos
    ensures t.ewmaPnl == (1.0 - ALPHA) * s.ewmaPnl + ALPHA * pnlUsd
  {
    s.(ewmaPnl := (1.0 - ALPHA) * s.ewmaPnl + ALPHA * pnlUsd)
  }

  /** The risk manager, with the fields of its guarded `RiskState`. */
  class RiskManager {
    var liveCombos: U32
    var ewmaPnl: real

    function State(): RiskState
      reads this
    {
      RiskState(liveCombos, ewmaPnl)
    }

    /** `RiskManager::new`: no live combos and a zero average. */
    constructor ()
      ensures liveCombos == 0 && ewmaPnl == 0.0
    {
      liveCombos := 0;
      ewmaPnl := 0.0;
    }

    method Approve(config: AppConfig, opp: StrategyOpportunity) returns (approved: bool)
      modifies this
      ensures approved <==> old(liveCombos) < config.maxConcurrentCombos
                            && opp.notionalUsd <= config.maxTicketUsd && old(ewmaPnl) >= 0.0
      ensures liveCombos == if approved then old(liveCombos) + 1 else old(liveCombos)
      ensures ewmaPnl == old(ewmaPnl)
      ensures Decision(approved, State()) == ApproveStep(old(State()), config, opp.notionalUsd)
    {
      if liveCombos >= config.maxConcurrentCombos {
        return false;
      }
      if opp.notionalUsd > config.maxTicketUsd {
        return false;
      }
      if ewmaPnl < 0.0 {
        return false;
      }
      liveCombos := liveCombos + 1;
      return true;
    }

    method Release()
      modifies this
      ensures liveCombos == if old(liveCombos) > 0 then old(liveCombos) - 1 else 0
      ensures ewmaPnl == old(ewmaPnl)
      ensures State() == ReleaseStep(old(State()))
    {
      if liveCombos > 0 {
        liveCombos := liveCombos - 1;
      }
    }

    method RecordPnl(pnlUsd: real)
      modifies this
      ensures liveCombos == old(liveCombos)
      ensures ewmaPnl == 0.8 * old(ewmaPnl) + 0.2 * pnlUsd
      ensures State() == RecordPnlStep(old(State()), pnlUsd)
    {
      var alpha := ALPHA;
      ewmaPnl := (1.0 - alpha) * ewmaPnl + alpha * pnlUsd;
    }
  }

  // ---------------------------------------------------------------- sequences of calls

  datatype RiskEvent = Approval(notionalUsd: real) | Release | Pnl(pnlUsd: real)

  function Step(s: RiskState, config: AppConfig, e: RiskEvent): RiskState {
    match e
    case Approval(n) => ApproveStep(s, config, n).next
    case Release => ReleaseStep(s)
    case Pnl(p) => RecordPnlStep(s, p)
  }

  /** The state after a sequence of calls with one configuration. */
  function Run(s: RiskState, config: AppConfig, events: seq<RiskEvent>): RiskState
    decreases |events|
  {
    if |events| == 0 then s
    else Step(Run(s, config, events[..|events| - 1]), config, events[|events| - 1])
  }

  /** Whatever the calls, the number of live combos never exceeds the configured maximum. */
  lemma {:induction false} LiveCombosBounded(s: RiskState, config: AppConfig, events: seq<RiskEvent>)
    requires s.liveCombos <= config.maxConcurrentCombos
    ensures Run(s, config, events).liveCombos <= config.maxConcurrentCombos
    decreases |events|
  {
    if |events| > 0 {
      LiveCombosBounded(s, config, events[..|events| - 1]);
    }
  }

  /** Live combos only grow through approvals: each call moves the counter by at most one. */
  lemma {:induction false} LiveCombosBelowApprovals(s: RiskState, config: AppConfig, events: seq<RiskEvent>)
    ensures Run(s, config, events).liveCombos <= s.liveCombos + Approvals(events)
    decreases |events|
  {
    if |events| > 0 {
      LiveCombosBelowApprovals(s, config, events[..|events| - 1]);
    }
  }

  function Approvals(events: seq<RiskEvent>): nat
    decreases |events|
  {
    if |events| == 0 then 0
    else Approvals(events[..|events| - 1]) + (if events[|events| - 1].Approval? then 1 else 0)
  }

  /** An approval followed by a release restores the state. */
  lemma ReleaseUndoesApproval(s: RiskState, config: AppConfig, notionalUsd: real)
    requires ApproveStep(s, config, notionalUsd).approved
    ensures ReleaseStep(ApproveStep(s, config, notionalUsd).next) == s
  {
  }

  /** The new average lies between the old average and the recorded PnL. */
  lemma EwmaBetween(s: RiskState, pnlUsd: real)
    ensures var e := RecordPnlStep(s, pnlUsd).ewmaPnl;
      (s.ewmaPnl <= pnlUsd ==> s.ewmaPnl <= e <= pnlUsd)
      && (pnlUsd <= s.ewmaPnl ==> pnlUsd <= e <= s.ewmaPnl)
  {
  }

  predicate NoLosses(events: seq<RiskEvent>) {
    forall i :: 0 <= i < |events| && events[i].Pnl? ==> events[i].pnlUsd >= 0.0
  }

  /**
   * Starting from a non-negative average, a run with no losing PnL keeps the average
   * non-negative, so the PnL gate never refuses in it.
   */
  lemma {:induction false} EwmaStaysNonNegative(s: RiskState, config: AppConfig, events: seq<RiskEvent>)
    requires s.ewmaPnl >= 0.0 && NoLosses(events)
    ensures Run(s, config, events).ewmaPnl >= 0.0
    decreases |events|
  {
    if |events| > 0 {
      var front := events[..|events| - 1];
      assert NoLosses(front) by {
        assert forall i :: 0 <= i < |front| ==> front[i] == events[i];
      }
      EwmaStaysNonNegative(s, config, front);
      var last := events[|events| - 1];
      if last.Pnl? {
        EwmaBetween(Run(s, config, front), last.pnlUsd);
      }
    }
  }
}
