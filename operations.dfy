/** run_strategy (operations.py): look up the strategy by name, then run the
    entry or else the exit, and independently the stop-loss. The choice is a
    function of the three signals; the calls go to the System engine on the
    strategy's side. */
module Operations {
  import opened Types
  import opened Strategies
  import opened TradingSystem

  /** One execute_* call. */
  datatype Step = Entry | Exit | StopLoss

  /** The if / elif / if of run_strategy: entry, or else exit, then the stop
      whenever its signal holds. */
  function Dispatch(entry: bool, exit: bool, stop: bool): (steps: seq<Step>)
    ensures Entry in steps <==> entry
    ensures Exit in steps <==> !entry && exit
    ensures StopLoss in steps <==> stop
    ensures |steps| <= 2 && !(Entry in steps && Exit in steps)
    ensures stop ==> steps[|steps| - 1] == StopLoss
    ensures forall i, j :: 0 <= i < j < |steps| ==> steps[i] != steps[j]
  {
    (if entry then [Entry] else if exit then [Exit] else []) + (if stop then [StopLoss] else [])
  }

  /** The signals a Bollinger strategy computes from its engine's snapshot. */
  function BollingerSteps(cfg: BollingerConfig, s: Snapshot, ticker: real, meanPrice: real, meanStd: real): seq<Step>
  {
    var entry := EntryPrice(cfg, s.long, s.short);
    Dispatch(EntrySignal(cfg, ticker, meanPrice, meanStd), ExitSignal(cfg, entry, ticker), StopSignal(cfg, entry, ticker))
  }

  /** What one step emits on the given side, and whether it ran to the end. */
  function StepOutcome(side: StrategySide, step: Step, s: Snapshot): StopOutcome
    requires ValidSnapshot(s)
  {
    match (side, step)
    case (LongSide, Entry) => StopOutcome(LongEntryActions(s), true)
    case (ShortSide, Entry) => StopOutcome(ShortEntryActions(s), true)
    case (LongSide, Exit) => StopOutcome(LongExitActions(s), true)
    case (ShortSide, Exit) => StopOutcome(ShortExitActions(s), true)
    case (LongSide, StopLoss) => LongStopLoss(s)
    case (ShortSide, StopLoss) => ShortStopLoss(s)
  }

  /** The steps run in order against the same snapshot (no call re-fetches
      it); a step that raises ends the run. */
  function PlanOutcome(side: StrategySide, steps: seq<Step>, s: Snapshot): StopOutcome
    requires ValidSnapshot(s)
  {
    if steps == [] then StopOutcome([], true)
    else
      var prev := PlanOutcome(side, steps[..|steps| - 1], s);
      if !prev.completed then prev
      else
        var last := StepOutcome(side, steps[|steps| - 1], s);
        StopOutcome(prev.actions + last.actions, last.completed)
  }

  /** How a call of run_strategy ends. `VolumeRsiBollinger` has no
      argument-free signals, so the call on it raises before any order. */
  datatype RunOutcome = UnknownStrategy | SignalsNeedArguments | Ran(steps: seq<Step>, completed: bool)

  /** Without a position on its side the strategy has no entry price, so
      neither exit nor stop fires: at most the entry runs. */
  lemma FlatStrategyOnlyEnters(cfg: BollingerConfig, s: Snapshot, ticker: real, meanPrice: real, meanStd: real)
    requires |(if cfg.short then s.short else s.long)| == 0
    ensures BollingerSteps(cfg, s, ticker, meanPrice, meanStd)
            == (if EntrySignal(cfg, ticker, meanPrice, meanStd) then [Entry] else [])
  {
    var entry := EntryPrice(cfg, s.long, s.short);
    assert entry.None?;
  }

  /** With a positive entry price and the stop multiplier at most the
      take-profit multiplier, a run never both exits and stops out. */
  lemma NeverExitAndStop(cfg: BollingerConfig, s: Snapshot, ticker: real, meanPrice: real, meanStd: real)
    requires cfg.stopLossMultiplier <= cfg.takeProfitMultiplier
    requires forall p :: p in s.long + s.short ==> p.entryPrice > 0.0
    ensures var steps := BollingerSteps(cfg, s, ticker, meanPrice, meanStd);
            !(Exit in steps && StopLoss in steps)
  {
    var entry := EntryPrice(cfg, s.long, s.short);
    if entry.Some? {
      var own := if cfg.short then s.short else s.long;
      assert own[0] in s.long + s.short;
      ExitAndStopExclusive(cfg, entry, ticker);
    }
  }

  /** A signal to enter that coincides with a stop (and no exit) runs the
      entry and then the stop-loss of the strategy's side, in that order,
      against the same snapshot. */
  lemma EntryThenStop(side: StrategySide, s: Snapshot)
    requires ValidSnapshot(s)
    ensures var entry := if side == LongSide then LongEntryActions(s) else ShortEntryActions(s);
            var stop := if side == LongSide then LongStopLoss(s) else ShortStopLoss(s);
            PlanOutcome(side, Dispatch(true, false, true), s) == StopOutcome(entry + stop.actions, stop.completed)
  {
    var steps := Dispatch(true, false, true);
    var entry := StepOutcome(side, Entry, s).actions;
    assert steps == [Entry, StopLoss];
    assert steps[..1] == [Entry];
    assert steps[..1][..0] == [];
    assert PlanOutcome(side, [], s) == StopOutcome([], true);
    assert PlanOutcome(side, [Entry], s) == StopOutcome(entry, true) by {
      assert [] + entry == entry;
    }
  }

  /** Running one more step extends a completed prefix by that step. */
  lemma PlanStep(side: StrategySide, steps: seq<Step>, i: nat, s: Snapshot)
    requires ValidSnapshot(s) && i < |steps|
    requires PlanOutcome(side, steps[..i], s).completed
    ensures var prev := PlanOutcome(side, steps[..i], s);
            var last := StepOutcome(side, steps[i], s);
            PlanOutcome(side, steps[..i + 1], s) == StopOutcome(prev.actions + last.actions, last.completed)
  {
    assert steps[..i + 1][..i] == steps[..i];
  }

  /** One execute_* call on the strategy's side. */
  method RunStep(side: StrategySide, step: Step, sys: System) returns (completed: bool)
    requires sys.Valid()
    modifies sys`actions
    ensures sys.actions == old(sys.actions) + StepOutcome(side, step, sys.Snap()).actions
    ensures completed == StepOutcome(side, step, sys.Snap()).completed
  {
    completed := true;
    match (side, step) {
      case (LongSide, Entry) => sys.ExecuteLongEntry();
      case (ShortSide, Entry) => sys.ExecuteShortEntry();
      case (LongSide, Exit) => sys.ExecuteLongExit();
      case (ShortSide, Exit) => sys.ExecuteShortExit();
      case (LongSide, StopLoss) => completed := sys.ExecuteLongStoploss();
      case (ShortSide, StopLoss) => completed := sys.ExecuteShortStoploss();
    }
  }

  /** run_strategy with the strategy name and its configuration; the engine
      `sys` stands for the System the strategy object is built on. */
  method RunStrategy(name: string, cfg: BollingerConfig, sys: System) returns (outcome: RunOutcome)
    requires sys.Valid()
    modifies sys`actions
    ensures StrategyFor(name).None? ==> outcome == UnknownStrategy && sys.actions == old(sys.actions)
    ensures StrategyFor(name) == Some(VolumeRsiBollinger) ==>
              outcome == SignalsNeedArguments && sys.actions == old(sys.actions)
    ensures StrategyFor(name) == Some(Bollinger) ==>
              var steps := BollingerSteps(cfg, sys.Snap(), sys.ticker, sys.meanPrice, sys.meanStd);
              var plan := PlanOutcome(SideOf(cfg), steps, sys.Snap());
              && outcome == Ran(steps, plan.completed)
              && sys.actions == old(sys.actions) + plan.actions
  {
    var kind := StrategyFor(name);
    if kind.None? {
      return UnknownStrategy;
    }
    if kind.value == VolumeRsiBollinger {
      return SignalsNeedArguments;
    }
    var entry := EntryPrice(cfg, sys.longPositions, sys.shortPositions);
    var steps := Dispatch(EntrySignal(cfg, sys.ticker, sys.meanPrice, sys.meanStd),
                          ExitSignal(cfg, entry, sys.ticker),
                          StopSignal(cfg, entry, sys.ticker));
    var completed := RunPlan(SideOf(cfg), steps, sys);
    return Ran(steps, completed);
  }

  /** Runs the steps in order, stopping at the first that raises. */
  method RunPlan(side: StrategySide, steps: seq<Step>, sys: System) returns (completed: bool)
    requires sys.Valid()
    modifies sys`actions
    ensures sys.actions == old(sys.actions) + PlanOutcome(side, steps, sys.Snap()).actions
    ensures completed == PlanOutcome(side, steps, sys.Snap()).completed
  {
    ghost var s := sys.Snap();
    completed := true;
    var i := 0;
    while i < |steps| && completed
      invariant 0 <= i <= |steps|
      invariant sys.Snap() == s
      invariant PlanOutcome(side, steps[..i], s).completed == completed
      invariant sys.actions == old(sys.actions) + PlanOutcome(side, steps[..i], s).actions
      invariant !completed ==> PlanOutcome(side, steps, s) == PlanOutcome(side, steps[..i], s)
      decreases |steps| - i
    {
      PlanStep(side, steps, i, s);
      completed := RunStep(side, steps[i], sys);
      AppendTwo(old(sys.actions), PlanOutcome(side, steps[..i], s).actions, StepOutcome(side, steps[i], s).actions);
      i := i + 1;
      if !completed {
        PlanStopsAtFailure(side, steps, i, s);
      }
    }
    assert steps[..|steps|] == steps;
  }

  /** Once a prefix of the plan fails, the whole plan's outcome is that
      prefix's. */
  lemma {:induction false} PlanStopsAtFailure(side: StrategySide, steps: seq<Step>, i: nat, s: Snapshot)
    requires ValidSnapshot(s) && i <= |steps|
    requires !PlanOutcome(side, steps[..i], s).completed
    ensures PlanOutcome(side, steps, s) == PlanOutcome(side, steps[..i], s)
    decreases |steps| - i
  {
    if i < |steps| {
      var next := steps[..i + 1];
      assert next[..i] == steps[..i];
      PlanStopsAtFailure(side, steps, i + 1, s);
    } else {
      assert steps[..i] == steps;
    }
  }
}
