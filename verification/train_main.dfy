/** The training entry point as one pure function: flags and environment in,
    file-system actions, the trainer call and the way the process ends out.
    The configuration loader, the trainer and the server are calls into code
    outside this file and arrive as parameters. */
module TrainMain {
  import opened Wrappers
  import opened ConfigSource
  import opened Role
  import opened Training

  /** The command-line flags the entry point reads. `master`,
      `workerReplicas` and `psTasks` are defined as flags but never read. */
  datatype Flags = Flags(
    paths: PathFlags,
    master: string,
    numClones: int,
    nSteps: int,
    allowMemoryGrowth: bool,
    maxCkptToKeep: int,
    saveIntervalSecs: int,
    cloneOnCpu: bool,
    workerReplicas: int,
    psTasks: int,
    enableMixedPrecision: int,
    nCpuThreads: int)

  /** The flag values when none is given on the command line. */
  const DefaultFlags: Flags := Flags(
    PathFlags("", "", "", "", "", 0, 0),
    "", 1, 0, true, 1, 600, false, 1, 0, 0, 4)

  /** The dictionary the loaders return, by its four entries: `model`,
      `train_config`, `train_input_config` and `graph_rewriter_config`, each
      possibly absent. The model, input and rewriter parts are passed on
      without being looked into. */
  datatype Configs = Configs(
    model: Option<string>,
    train: Option<TrainConfig>,
    input: Option<string>,
    graphRewriter: Option<string>)

  /** True when the three entries looked up by key are all present. */
  predicate HasRequiredKeys(c: Configs) {
    c.model.Some? && c.train.Some? && c.input.Some?
  }

  /** The key whose lookup raises `KeyError` first, in the order the entry
      point reads them: `model`, then `train_config`, then
      `train_input_config`. */
  function MissingKey(c: Configs): (key: string)
    requires !HasRequiredKeys(c)
    ensures c.model.None? ==> key == "model"
    ensures c.model.Some? && c.train.None? ==> key == "train_config"
    ensures c.model.Some? && c.train.Some? ==> key == "train_input_config"
  {
    if c.model.None? then "model"
    else if c.train.None? then "train_config"
    else "train_input_config"
  }

  /** The arguments of the one call into the trainer. `graphHook` is the
      rewriter configuration the hook is built from, if there is one. */
  datatype TrainCall = TrainCall(
    modelConfig: string,
    inputConfig: string,
    trainConfig: TrainConfig,
    master: string,
    task: int,
    numClones: int,
    workerReplicas: nat,
    cloneOnCpu: bool,
    psTasks: nat,
    workerJobName: string,
    isChief: bool,
    trainDir: string,
    graphHook: Option<string>,
    allowMemoryGrowth: bool,
    nCpuThreads: int,
    maxCkptToKeep: int,
    saveIntervalSecs: int,
    enableMixedPrecision: int)

  datatype MainError =
    | MissingTrainDir                      // the `train_dir` assertion fails
    | ConfigLoadFailed(message: string)    // the loader raised
    | MissingConfigKey(key: string)        // a required entry is absent
    | RoleFailed(error: RoleError)         // role resolution raised
    | TrainerFailed(exc: PyException)      // the trainer raised a non-`RuntimeError`

  /** How the process ends: normally, blocked forever serving as a parameter
      server, or with an escaping exception. */
  datatype Exit = Completed | ServingForever | Crashed(error: MainError)

  /** Everything one run does, in order. */
  datatype Run = Run(effects: seq<Effect>, trainCall: Option<TrainCall>, exit: Exit)

  /** The trainer arguments built from the flags, the loaded configurations
      and the resolved role. */
  function BuildCall(flags: Flags, configs: Configs, p: RoleParams): TrainCall
    requires HasRequiredKeys(configs)
  {
    TrainCall(
      configs.model.value, configs.input.value,
      OverrideSteps(configs.train.value, flags.nSteps),
      p.master, p.task, flags.numClones, p.workerReplicas, flags.cloneOnCpu,
      p.psTasks, p.workerJobName, p.isChief, flags.paths.trainDir,
      configs.graphRewriter,
      flags.allowMemoryGrowth, flags.nCpuThreads, flags.maxCkptToKeep,
      flags.saveIntervalSecs, flags.enableMixedPrecision)
  }

  /** One run of the entry point. `trainDirIsDir` is whether the training
      directory path names an existing directory at start, `load` the loader chosen by the source,
      `serverTarget` the distributed server's connection target and `trainer`
      the external training routine. */
  function Main(
    flags: Flags, trainDirIsDir: bool, load: Source -> Result<Configs, string>,
    env: Env, serverTarget: string, trainer: TrainCall -> TrainerOutcome): (run: Run)
    ensures flags.paths.trainDir == "" ==> run == Run([], None, Crashed(MissingTrainDir))
    ensures run.trainCall.Some? <==>
      && flags.paths.trainDir != ""
      && load(SelectSource(flags.paths)).Success?
      && HasRequiredKeys(load(SelectSource(flags.paths)).value)
      && Resolve(env, serverTarget).Train?
    ensures run.exit == ServingForever <==>
      && flags.paths.trainDir != ""
      && load(SelectSource(flags.paths)).Success?
      && HasRequiredKeys(load(SelectSource(flags.paths)).value)
      && Resolve(env, serverTarget).ServeAsPs?
    ensures run.trainCall.Some? ==>
      var call := run.trainCall.value;
      var p := Resolve(env, serverTarget).params;
      var loaded := load(SelectSource(flags.paths)).value;
      && call.trainConfig == OverrideSteps(loaded.train.value, flags.nSteps)
      && (call.psTasks, call.workerReplicas, call.workerJobName) == (p.psTasks, p.workerReplicas, p.workerJobName)
      && (call.task, call.isChief, call.master) == (p.task, p.isChief, p.master)
      && (run.exit == Completed <==> HandleTrainerOutcome(trainer(call)).Finished?)
    ensures flags.paths.trainDir != "" ==>
      run.effects == SetupEffects(flags.paths, trainDirIsDir)
        + (if load(SelectSource(flags.paths)).Success? then CopyEffects(flags.paths) else [])
    ensures flags.paths.trainDir != "" && load(SelectSource(flags.paths)).Failure? ==>
      run.exit == Crashed(ConfigLoadFailed(load(SelectSource(flags.paths)).error))
    ensures
      (flags.paths.trainDir != "" && load(SelectSource(flags.paths)).Success?
       && !HasRequiredKeys(load(SelectSource(flags.paths)).value)) ==>
      run.exit == Crashed(MissingConfigKey(MissingKey(load(SelectSource(flags.paths)).value)))
    ensures
      (flags.paths.trainDir != "" && load(SelectSource(flags.paths)).Success?
       && HasRequiredKeys(load(SelectSource(flags.paths)).value)
       && Resolve(env, serverTarget).Failed?) ==>
      run.exit == Crashed(RoleFailed(Resolve(env, serverTarget).error))
    ensures run.trainCall.Some? ==>
      var call := run.trainCall.value;
      var loaded := load(SelectSource(flags.paths)).value;
      && (call.modelConfig, call.inputConfig) == (loaded.model.value, loaded.input.value)
      && call.graphHook == loaded.graphRewriter
      && call.trainDir == flags.paths.trainDir
      && (call.numClones, call.cloneOnCpu) == (flags.numClones, flags.cloneOnCpu)
      && (call.allowMemoryGrowth, call.nCpuThreads) == (flags.allowMemoryGrowth, flags.nCpuThreads)
      && (call.maxCkptToKeep, call.saveIntervalSecs) == (flags.maxCkptToKeep, flags.saveIntervalSecs)
      && call.enableMixedPrecision == flags.enableMixedPrecision
      && (HandleTrainerOutcome(trainer(call)).Propagated? ==>
            run.exit == Crashed(TrainerFailed(trainer(call).exc)))
    ensures run.trainCall.None? ==> run.exit != Completed
    ensures flags.paths.task != 0 ==> forall e :: e in run.effects ==> e.RemoveTree?
  {
    if flags.paths.trainDir == "" then Run([], None, Crashed(MissingTrainDir))
    else
      var setup := SetupEffects(flags.paths, trainDirIsDir);
      match load(SelectSource(flags.paths))
      case Failure(msg) => Run(setup, None, Crashed(ConfigLoadFailed(msg)))
      case Success(configs) =>
        var effects := setup + CopyEffects(flags.paths);
        if !HasRequiredKeys(configs) then Run(effects, None, Crashed(MissingConfigKey(MissingKey(configs))))
        else match Resolve(env, serverTarget)
        case Failed(e) => Run(effects, None, Crashed(RoleFailed(e)))
        case ServeAsPs(_) => Run(effects, None, ServingForever)
        case Train(p) =>
          var call := BuildCall(flags, configs, p);
          match HandleTrainerOutcome(trainer(call))
          case Finished => Run(effects, Some(call), Completed)
          case Propagated(exc) => Run(effects, Some(call), Crashed(TrainerFailed(exc)))
  }

  /** The `master`, `worker_replicas` and `ps_tasks` flags have no effect:
      the role comes from `TF_CONFIG` alone. */
  lemma MainIgnoresRoleFlags(
    flags: Flags, trainDirIsDir: bool, load: Source -> Result<Configs, string>,
    env: Env, serverTarget: string, trainer: TrainCall -> TrainerOutcome,
    master: string, workerReplicas: int, psTasks: int)
    ensures var g := flags.(master := master, workerReplicas := workerReplicas, psTasks := psTasks);
      Main(g, trainDirIsDir, load, env, serverTarget, trainer)
        == Main(flags, trainDirIsDir, load, env, serverTarget, trainer)
  {
  }

  /** With a pipeline path given, the three separate paths change nothing in
      the run. */
  lemma MainPipelineHidesSeparatePaths(
    flags: Flags, trainDirIsDir: bool, load: Source -> Result<Configs, string>,
    env: Env, serverTarget: string, trainer: TrainCall -> TrainerOutcome,
    m: string, t: string, i: string)
    requires flags.paths.pipelinePath != ""
    ensures var g := flags.(paths := flags.paths.(modelPath := m, trainPath := t, inputPath := i));
      Main(g, trainDirIsDir, load, env, serverTarget, trainer)
        == Main(flags, trainDirIsDir, load, env, serverTarget, trainer)
  {
  }

  /** Two loaded configurations that differ at most in their step count
      produce the same run when `n_steps` is positive, and the trainer sees
      `n_steps` as the step count. */
  lemma MainStepsOverrideWins(
    flags: Flags, trainDirIsDir: bool, load: Source -> Result<Configs, string>,
    load': Source -> Result<Configs, string>,
    env: Env, serverTarget: string, trainer: TrainCall -> TrainerOutcome)
    requires flags.nSteps > 0
    requires var src := SelectSource(flags.paths);
      && load(src).Success? == load'(src).Success?
      && (load(src).Failure? ==> load(src) == load'(src))
      && (load(src).Success? ==>
            && load(src).value.(train := load'(src).value.train) == load'(src).value
            && load(src).value.train.Some? == load'(src).value.train.Some?
            && (load(src).value.train.Some? ==>
                  load(src).value.train.value.otherFields == load'(src).value.train.value.otherFields))
    ensures var run := Main(flags, trainDirIsDir, load, env, serverTarget, trainer);
      && run == Main(flags, trainDirIsDir, load', env, serverTarget, trainer)
      && (run.trainCall.Some? ==> run.trainCall.value.trainConfig.numSteps == flags.nSteps)
  {
  }

  /** A trainer that raises a `RuntimeError` (or a subclass of it) yields
      the same run as a trainer that returns. */
  lemma MainRuntimeErrorLooksLikeSuccess(
    flags: Flags, trainDirIsDir: bool, load: Source -> Result<Configs, string>,
    env: Env, serverTarget: string,
    trainer: TrainCall -> TrainerOutcome, trainer': TrainCall -> TrainerOutcome)
    requires forall call :: trainer(call) == Returned
    requires forall call :: trainer'(call).Raised? && IsInstance(trainer'(call).exc, "RuntimeError")
    ensures Main(flags, trainDirIsDir, load, env, serverTarget, trainer)
      == Main(flags, trainDirIsDir, load, env, serverTarget, trainer')
    ensures Main(flags, trainDirIsDir, load, env, serverTarget, trainer).exit.Crashed? ==>
      !Main(flags, trainDirIsDir, load, env, serverTarget, trainer).exit.error.TrainerFailed?
  {
  }

  /** Without a cluster the trainer is called once with the single-worker
      role, whatever the task entry says. */
  lemma MainSingleProcess(
    flags: Flags, trainDirIsDir: bool, load: Source -> Result<Configs, string>,
    env: Env, serverTarget: string, trainer: TrainCall -> TrainerOutcome)
    requires !HasCluster(env)
    requires flags.paths.trainDir != "" && load(SelectSource(flags.paths)).Success?
    requires HasRequiredKeys(load(SelectSource(flags.paths)).value)
    ensures var run := Main(flags, trainDirIsDir, load, env, serverTarget, trainer);
      && run.trainCall.Some?
      && run.trainCall.value.psTasks == 0
      && run.trainCall.value.workerReplicas == 1
      && run.trainCall.value.workerJobName == "lonely_worker"
      && run.trainCall.value.task == 0
      && run.trainCall.value.isChief
      && run.trainCall.value.master == ""
  {
  }

  /** A parameter-server process never reaches the trainer, yet, with the
      `task` flag left at 0, it still creates the training directory and
      writes the configuration copies, since those follow the flag and not
      the role. It serves forever unless a required configuration entry is
      missing, which ends it before the role is resolved. */
  lemma MainParameterServerStillCopies(
    flags: Flags, trainDirIsDir: bool, load: Source -> Result<Configs, string>,
    env: Env, serverTarget: string, trainer: TrainCall -> TrainerOutcome)
    requires flags.paths.trainDir != "" && flags.paths.task == 0
    requires load(SelectSource(flags.paths)).Success?
    requires Resolve(env, serverTarget).ServeAsPs?
    ensures var run := Main(flags, trainDirIsDir, load, env, serverTarget, trainer);
      && run.trainCall.None?
      && run.exit == (
           if HasRequiredKeys(load(SelectSource(flags.paths)).value) then ServingForever
           else Crashed(MissingConfigKey(MissingKey(load(SelectSource(flags.paths)).value))))
      && MakeDirs(flags.paths.trainDir) in run.effects
      && run.effects == SetupEffects(flags.paths, trainDirIsDir) + CopyEffects(flags.paths)
      && |CopyEffects(flags.paths)| == (if flags.paths.pipelinePath != "" then 1 else 3)
  {
  }

  /** With every flag at its declared default, `train_dir` is empty and the
      run stops at the assertion before touching anything. */
  lemma DefaultFlagsFailAssertion(
    trainDirIsDir: bool, load: Source -> Result<Configs, string>,
    env: Env, serverTarget: string, trainer: TrainCall -> TrainerOutcome)
    ensures Main(DefaultFlags, trainDirIsDir, load, env, serverTarget, trainer)
      == Run([], None, Crashed(MissingTrainDir))
  {
  }

  /** With `TF_CONFIG` unset, a run whose configuration loads with all its
      required entries calls the trainer once, with the single-worker role. */
  lemma MainWithoutTfConfig(
    flags: Flags, trainDirIsDir: bool, load: Source -> Result<Configs, string>,
    serverTarget: string, trainer: TrainCall -> TrainerOutcome)
    requires flags.paths.trainDir != "" && load(SelectSource(flags.paths)).Success?
    requires HasRequiredKeys(load(SelectSource(flags.paths)).value)
    ensures var run := Main(flags, trainDirIsDir, load, NoTfConfig, serverTarget, trainer);
      && run.trainCall.Some?
      && run.trainCall.value == BuildCall(flags, load(SelectSource(flags.paths)).value, SingleWorker)
  {
  }
}
