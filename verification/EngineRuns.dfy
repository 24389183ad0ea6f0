/**
 A run on the engine object itself: how it is started on a checkpoint store (Run in agent/engine.go),
 what its steps do, and how a paused run is set up again (resume in agent/engine_resume.go).
 */
module EngineRuns {
  import opened Transcript
  import opened CompactionConfig
  import opened CheckpointStore
  import opened CompactionEngine
  import opened Ledgers
  import opened ResumeStates
  import opened CompactionRuns
  import opened RunStart
  import opened MainCalls

  // What a run is configured with, before the configuration is resolved.
  datatype Setup = Setup(
    model: string,
    runId: string,
    toolTokens: nat,
    contextWindow: int,
    requestMaxTokens: int,
    config: Config,
    disabledForRun: bool)

  // A ratio of 0 stands for the default, but only where nothing else is configured.
  predicate ConfigAccepted(config: Config) {
    (config.triggerRatio == 0.0 && config.enabled.None?) || 0.0 < config.triggerRatio < 1.0
  }

  function SettingsOf(setup: Setup): Settings {
    Settings(setup.model, setup.runId, setup.toolTokens, setup.contextWindow, setup.requestMaxTokens,
             ResolveConfig(setup.config, setup.disabledForRun))
  }

  // A configuration is accepted exactly when the ratio it has is the one that is used, or when nothing is
  // configured; it is on unless it or the run turns it off.
  lemma AcceptedIsUsed(config: Config, disabledForRun: bool)
    ensures var resolved := ResolveConfig(config, disabledForRun);
            && (ConfigAccepted(config) <==>
                  resolved.triggerRatio == config.triggerRatio || (config.triggerRatio == 0.0 && config.enabled.None?))
            && (resolved.triggerRatio == config.triggerRatio || resolved.triggerRatio == 0.80)
            && (resolved.enabled <==> config.enabled != Some(false) && !disabledForRun)
  {
  }

  // Starts a run on the caller's store, or on one of its own. The run goes on from what the store holds.
  method Start(input: RunInput, setup: Setup, external: RunLocalCheckpointStore?) returns (e: Engine?)
    requires ValidInput(input)
    ensures var stored := if external == null then None else external.checkpoint;
      var begun := input.(loaded := stored);
      && (e != null <==> ConfigAccepted(setup.config) && LoadAccepted(stored))
      && (e != null ==>
            && fresh(e) && e.settings == SettingsOf(setup)
            && (if external == null then fresh(e.store) else e.store == external)
            && e.store.checkpoint == e.checkpoint
            && e.View() == StartState(begun)
            && |WithCurrent(begun).messages| > 1 + Offset(stored)
            && Valid(StartLedger(begun)) && Describes(StartLedger(begun), e.View()))
  {
    if !ConfigAccepted(setup.config) {
      return null;
    }
    var store := external;
    if store == null {
      store := new RunLocalCheckpointStore(None);
    }
    var loaded := store.Load();
    var st := BuildInitialState(input.(loaded := loaded));
    if st.None? {
      return null;
    }
    e := new Engine(SettingsOf(setup), store, st.value);
  }

  // What the step leaves in the store. A resume without the caller's store has one of its own.
  function StoredAfterStep(st: LoopState, settings: Settings, stored: Option<ContextCheckpoint>,
        step: RunStep): Option<ContextCheckpoint>
    requires 0 <= st.fixedMessageCount
  {
    match step
    case CompactNow(decision, _, env) =>
      var outcome := Compact(st, settings, stored, decision, env);
      if outcome.Compacted? then Some(outcome.checkpoint) else stored
    case PauseAndResume(external) => if external.None? then Step(st, settings, step).checkpoint else stored
    case _ => stored
  }

  // The steps of a run between its pauses, on the engine. A compaction works on what is stored.
  method Perform(e: Engine, step: RunStep)
    requires 0 <= e.fixedMessageCount && !step.PauseAndResume?
    requires step.CompactNow? ==> step.stored == e.store.checkpoint
    modifies e, e.store
    ensures e.View() == Step(old(e.View()), e.settings, step)
    ensures e.store.checkpoint == StoredAfterStep(old(e.View()), e.settings, old(e.store.checkpoint), step)
  {
    match step
    case AppendMessages(added) => e.Append(added);
    case ProtectLast => e.ProtectLastMessage();
    case RequestSucceeded(inputTokens) => e.MainSucceeded(inputTokens);
    case CompactNow(decision, _, env) =>
      var _, _ := e.CompactContext(decision, env);
  }

  // What a resume makes of a record, on the caller's store or on one of its own.
  function ResumedState(rs: ResumeState, external: Option<Option<ContextCheckpoint>>): Option<LoopState> {
    var accepted := UnmarshalResumeState(rs);
    if accepted.None? then None else Resume(accepted.value, external)
  }

  // Sets a paused run up again. It goes on from what its store holds.
  method ResumeEngine(rs: ResumeState, setup: Setup, external: RunLocalCheckpointStore?) returns (e: Engine?)
    ensures var resumed := ResumedState(rs, if external == null then None else Some(external.checkpoint));
      && (e != null <==> ConfigAccepted(setup.config) && resumed.Some?)
      && (e != null ==>
            && fresh(e) && e.settings == SettingsOf(setup)
            && (if external == null then fresh(e.store) else e.store == external)
            && e.store.checkpoint == e.checkpoint
            && e.View() == resumed.value)
  {
    if !ConfigAccepted(setup.config) {
      return null;
    }
    var accepted := UnmarshalResumeState(rs);
    if accepted.None? {
      return null;
    }
    var st := accepted.value;
    var checkpoint := st.checkpoint;
    var store := external;
    if store == null {
      store := new RunLocalCheckpointStore(checkpoint);
    } else {
      var loaded := store.Load();
      if loaded.Some? != checkpoint.Some? || (loaded.Some? && loaded.value.revision != checkpoint.value.revision) {
        return null;
      }
      if loaded.Some? {
        checkpoint := loaded;
      }
    }
    var fixedMessageCount := st.fixedMessageCount;
    if fixedMessageCount <= 0 && st.messages != [] && st.messages[0].role.System? {
      fixedMessageCount := 1;
    }
    e := new Engine(SettingsOf(setup), store, LoopState(
      st.messages, fixedMessageCount, st.metaMessageIndex, st.contextMessageCount, st.messageBoundaries,
      st.protectedIndexes, checkpoint, st.lastMainInputTokens, st.lastMainMessageCount, st.hasLastMainInputTokens));
  }

  // A run that no other run disturbs survives its pause: the resumed engine is in the state of the
  // paused one, whether it keeps the store or gets its own.
  method PauseThenResume(e: Engine, setup: Setup, keepsStore: bool, ghost l: Ledger) returns (resumed: Engine?)
    requires Valid(l) && Describes(l, e.View()) && e.store.checkpoint == e.checkpoint
    ensures resumed != null <==> ConfigAccepted(setup.config)
    ensures resumed != null ==>
      && fresh(resumed) && resumed.View() == e.View() && resumed.store.checkpoint == e.store.checkpoint
      && (if keepsStore then resumed.store == e.store else fresh(resumed.store))
  {
    PauseRoundTrip(l, e.View(), if keepsStore then Some(e.checkpoint) else None);
    resumed := ResumeEngine(Snapshot(e.View()), setup, if keepsStore then e.store else null);
  }

  // ----- A run that no other run disturbs -----

  // The step finds in the store what the run has left there.
  predicate FindsOwn(stored: Option<ContextCheckpoint>, step: RunStep) {
    && (step.CompactNow? ==> step.stored == stored)
    && (step.PauseAndResume? && step.external.Some? ==> step.external.value == stored)
  }

  function StoredAfter(st: LoopState, settings: Settings, steps: seq<RunStep>): Option<ContextCheckpoint>
    requires 0 <= st.fixedMessageCount
  {
    if steps == [] then st.checkpoint
    else
      var init := steps[..|steps| - 1];
      StoredAfterStep(StateAfter(st, settings, init), settings, StoredAfter(st, settings, init), steps[|steps| - 1])
  }

  ghost predicate Undisturbed(st: LoopState, settings: Settings, steps: seq<RunStep>)
    requires 0 <= st.fixedMessageCount
  {
    forall n :: 0 <= n < |steps| ==> FindsOwn(StoredAfter(st, settings, steps[..n]), steps[n])
  }

  lemma UndisturbedPrefix(st: LoopState, settings: Settings, steps: seq<RunStep>, n: nat)
    requires 0 <= st.fixedMessageCount && n <= |steps| && Undisturbed(st, settings, steps)
    ensures Undisturbed(st, settings, steps[..n])
  {
    forall m | 0 <= m < n ensures FindsOwn(StoredAfter(st, settings, steps[..n][..m]), steps[..n][m]) {
      assert steps[..n][..m] == steps[..m];
    }
  }

  lemma CompactionInStep(st: LoopState, settings: Settings, decision: Decision, env: Environment)
    requires 0 <= st.fixedMessageCount
    ensures var outcome := Compact(st, settings, st.checkpoint, decision, env);
            && outcome != Failed(SaveFailed(Conflict))
            && (outcome.Compacted? ==> outcome.state.checkpoint == Some(outcome.checkpoint))
  {
    SelectionsFit(st, settings, decision, env);
  }

  lemma StepInStep(st: LoopState, settings: Settings, step: RunStep)
    requires 0 <= st.fixedMessageCount && FindsOwn(st.checkpoint, step)
    ensures StoredAfterStep(st, settings, st.checkpoint, step) == Step(st, settings, step).checkpoint
  {
    if step.CompactNow? {
      CompactionInStep(st, settings, step.decision, step.env);
    }
  }

  // The run always goes on from what is stored ...
  lemma {:induction false} RunInStep(st: LoopState, settings: Settings, steps: seq<RunStep>)
    requires 0 <= st.fixedMessageCount && Undisturbed(st, settings, steps)
    ensures StoredAfter(st, settings, steps) == StateAfter(st, settings, steps).checkpoint
  {
    if steps != [] {
      var n := |steps| - 1;
      UndisturbedPrefix(st, settings, steps, n);
      RunInStep(st, settings, steps[..n]);
      StepInStep(StateAfter(st, settings, steps[..n]), settings, steps[n]);
    }
  }

  // ... so that no compaction of it meets a conflict, and every pause leaves its state as it was.
  lemma UndisturbedRun(l: Ledger, st: LoopState, settings: Settings, steps: seq<RunStep>, n: nat)
    requires Valid(l) && Describes(l, st) && Undisturbed(st, settings, steps) && n < |steps|
    ensures var before := StateAfter(st, settings, steps[..n]);
            match steps[n]
            case CompactNow(decision, stored, env) => Compact(before, settings, stored, decision, env) != Failed(SaveFailed(Conflict))
            case PauseAndResume(_) => StateAfter(st, settings, steps[..n + 1]) == before
            case _ => true
  {
    var before := StateAfter(st, settings, steps[..n]);
    UndisturbedPrefix(st, settings, steps, n);
    RunInStep(st, settings, steps[..n]);
    assert steps[..n + 1][..n] == steps[..n];
    match steps[n]
    case CompactNow(decision, _, env) => CompactionInStep(before, settings, decision, env);
    case PauseAndResume(external) =>
      RunKeepsLedger(l, st, settings, steps[..n]);
      PauseRoundTrip(LedgerAfter(l, st, settings, steps[..n]), before, external);
    case _ =>
  }
}
