/** Context window arithmetic (agent/context_compaction_config.go). */
module CompactionConfig {
  import opened Transcript

  const DEFAULT_TRIGGER_RATIO := 0.80
  const TARGET_RATIO := 0.60

  datatype Config = Config(enabled: Option<bool>, triggerRatio: real)

  datatype ResolvedConfig = ResolvedConfig(enabled: bool, triggerRatio: real)

  datatype Limits = Limits(inputLimit: int, trigger: int, outputReserve: int)

  function ResolveConfig(config: Config, disabledForRun: bool): (resolved: ResolvedConfig)
    ensures 0.0 < resolved.triggerRatio < 1.0
    ensures disabledForRun ==> !resolved.enabled
  {
    var enabled := if config.enabled.Some? then config.enabled.value else true;
    var ratio := config.triggerRatio;
    ResolvedConfig(enabled && !disabledForRun, if ratio <= 0.0 || ratio >= 1.0 then DEFAULT_TRIGGER_RATIO else ratio)
  }

  function DefaultContextOutputReserve(window: int): int {
    if window <= 0 then 0
    else
      var reserve := window / 10;
      var reserve := if reserve < 4096 then 4096 else reserve;
      var reserve := if reserve > 32768 then 32768 else reserve;
      if reserve > window / 2 then window / 2 else reserve
  }

  function ContextInputLimits(window: int, config: ResolvedConfig, requestMaxTokens: int): Limits {
    if window <= 0 then Limits(0, 0, 0)
    else
      var reserve := if requestMaxTokens <= 0 then DefaultContextOutputReserve(window) else requestMaxTokens;
      if reserve >= window then Limits(0, 0, reserve)
      else
        var inputLimit := window - reserve;
        Limits(inputLimit, TriggerOf(inputLimit, config.triggerRatio), reserve)
  }

  // The input size that starts a compaction.
  function TriggerOf(inputLimit: int, ratio: real): int {
    var trigger := (inputLimit as real * ratio).Floor;
    if trigger < 1 then 1 else trigger
  }

  function CheckpointMaxOutputTokens(outputReserve: int): (tokens: int)
    ensures 0 <= tokens <= 4096
    ensures outputReserve > 0 ==> tokens <= outputReserve && (tokens < 4096 ==> tokens == outputReserve)
    ensures outputReserve <= 0 ==> tokens == 0
  {
    if outputReserve <= 0 then 0
    else if outputReserve > 4096 then 4096
    else outputReserve
  }

  // The input size a compaction aims for.
  function DesiredInput(inputLimit: int): int {
    if inputLimit > 0 then (inputLimit as real * TARGET_RATIO).Floor else 0
  }

  predicate IsShare(trigger: int, share: real) {
    trigger as real <= (if share < 1.0 then 1.0 else share) && share < trigger as real + 1.0
  }

  lemma FloorIsShare(share: real)
    requires share > 0.0
    ensures IsShare(if share.Floor < 1 then 1 else share.Floor, share)
  {
  }

  // What a run keeps free for the output: its own limit, or a tenth of the window, but at least 4096,
  // at most 32768, and never more than half.
  function ReserveFor(window: int, requestMaxTokens: int): int {
    if requestMaxTokens > 0 then requestMaxTokens
    else if window < 8192 then window / 2
    else if window < 40960 then 4096
    else if window < 327680 then window / 10
    else 32768
  }

  lemma DefaultReserve(window: int)
    requires window > 0
    ensures DefaultContextOutputReserve(window) == ReserveFor(window, 0)
  {
  }

  lemma ShareBelow(n: int, ratio: real)
    requires n > 0 && 0.0 < ratio < 1.0
    ensures 0.0 < n as real * ratio && (n as real * ratio).Floor <= n
  {
    assert n as real * 0.0 < n as real * ratio <= n as real * 1.0;
  }

  // In whole tokens, and at least one, the trigger is the configured ratio of the input limit.
  lemma TriggerIsShare(limit: int, ratio: real)
    requires limit > 0 && 0.0 < ratio < 1.0
    ensures 1 <= TriggerOf(limit, ratio) <= limit && IsShare(TriggerOf(limit, ratio), limit as real * ratio)
  {
    ShareBelow(limit, ratio);
    FloorIsShare(limit as real * ratio);
  }

  // A positive input limit is what the reserve leaves of the window.
  lemma LimitIsRest(window: int, config: ResolvedConfig, requestMaxTokens: int)
    ensures var limits := ContextInputLimits(window, config, requestMaxTokens);
            && limits.outputReserve == (if window <= 0 then 0 else ReserveFor(window, requestMaxTokens))
            && (limits.inputLimit > 0 <==> window > 0 && ReserveFor(window, requestMaxTokens) < window)
            && (limits.inputLimit > 0 ==>
                  && limits.inputLimit == window - limits.outputReserve
                  && limits.trigger == TriggerOf(limits.inputLimit, config.triggerRatio))
            && (limits.inputLimit <= 0 ==> limits.inputLimit == limits.trigger == 0)
  {
    if window > 0 && requestMaxTokens <= 0 {
      DefaultReserve(window);
    }
  }

  // A known window without its own output limit always leaves at least half of it for input. A positive
  // input limit and the reserve split the window between them, and the trigger, the configured share of the
  // limit, lies inside.
  lemma LimitsSplitWindow(window: int, config: ResolvedConfig, requestMaxTokens: int)
    requires 0.0 < config.triggerRatio < 1.0
    ensures var limits := ContextInputLimits(window, config, requestMaxTokens);
            && (limits.inputLimit > 0 <==> window > 0 && (requestMaxTokens <= 0 || requestMaxTokens < window))
            && limits.outputReserve == (if window <= 0 then 0 else ReserveFor(window, requestMaxTokens))
            && (limits.inputLimit > 0 ==>
                  && limits.inputLimit + limits.outputReserve == window
                  && limits.trigger == TriggerOf(limits.inputLimit, config.triggerRatio) && 1 <= limits.trigger <= limits.inputLimit)
            && (window > 0 && requestMaxTokens <= 0 ==> 2 * limits.inputLimit >= window)
  {
    var limits := ContextInputLimits(window, config, requestMaxTokens);
    LimitIsRest(window, config, requestMaxTokens);
    if limits.inputLimit > 0 {
      TriggerIsShare(limits.inputLimit, config.triggerRatio);
    }
  }

  lemma DesiredBelowLimit(inputLimit: int)
    ensures 0 <= DesiredInput(inputLimit)
    ensures inputLimit > 0 ==> DesiredInput(inputLimit) < inputLimit
    ensures inputLimit > 0 ==> 10 * DesiredInput(inputLimit) <= 6 * inputLimit < 10 * DesiredInput(inputLimit) + 10
    ensures inputLimit <= 0 ==> DesiredInput(inputLimit) == 0
  {
  }
}
