# Legacy object-detection training entry point, modelled in Dafny

This project models the decisions made by `main` in the legacy training
executable of the TensorFlow object-detection models:

- **Configuration source.** A non-empty `--pipeline_config_path` selects the
  single-file loader. Otherwise the three-file loader reads the model, train
  and input configuration paths.
- **Training-directory preparation.** When `--reset_train` is non-zero and
  the `train_dir` path is a directory (`os.path.isdir`), that directory is
  removed; a regular file of that name is left alone. When the `--task` flag
  is 0, the directory is created and the configuration files are copied
  into it: `pipeline.config`, or `model.config`, `train.config` and
  `input.config`, in that order.
- **Role resolution.** The role is derived from the parsed `TF_CONFIG`
  variable. It covers the worker-replica and parameter-server counts, the
  fail-fast check for workers without a parameter server, the
  parameter-server branch that joins its server and never trains, and the
  job name, task index, chief flag and master target of a distributed
  worker.
- **Step override.** A positive `--n_steps` replaces `num_steps` in the
  train configuration.
- **Trainer outcome policy.** A `RuntimeError` from the trainer, or any
  subclass of it, is swallowed. Any other exception escapes.

Modules:

- `Wrappers` holds `Option` and `Result`.
- `Text` renders `'%d'` and holds the decimal reader that inverts it.
- `Paths` models `os.path.join` on POSIX systems (`posixpath.join`).
- `ConfigSource` covers source selection, setup and copies.
- `Role` covers `TF_CONFIG` role resolution.
- `Training` covers the step override and the trainer-outcome policy.
- `TrainMain` models the whole `main` as one pure function, `Main`.

Calls into code this file does not contain become parameters of `Main`:

- the configuration loader, a function from the chosen `Source` to a loaded
  `Configs` dictionary (whose entries may be absent) or an error message;
- the trainer, a function from the `TrainCall` arguments to a
  `TrainerOutcome`;
- the server's connection target, a string;
- whether the `train_dir` path is a directory at start, a boolean.

`Main` returns a `Run`. It holds the ordered file-system actions, the
trainer call if one is made, and how the process ends: normally, blocked
forever serving as a parameter server, or with an escaping error.

Two behaviours of the code are worth knowing:

- The `--master`, `--worker_replicas` and `--ps_tasks` flags are defined
  but never read. The role always comes from `TF_CONFIG`
  (`MainIgnoresRoleFlags`).
- Directory creation and the configuration copies depend on the `--task`
  flag, not on the role resolved from `TF_CONFIG`. A parameter-server
  process whose flag keeps its default of 0 therefore still writes the
  copies before it starts serving (`MainParameterServerStillCopies`).

## Model

| member | source | states |
|---|---|---|
| Text.IntToStringRoundTrip | research/object_detection/legacy/train.py:199 | the `%d` rendering of the task index is read back to the same integer, for negative indices too |
| Text.IntToStringInjective | research/object_detection/legacy/train.py:199 | distinct task indices render as distinct numerals |
| Text.NatToDigits | research/object_detection/legacy/train.py:199 | the numeral is non-empty, all digits, and begins with `0` only for zero (no leading zeros) |
| Paths.JoinPlacesInside | research/object_detection/legacy/train.py:133 | joining a relative file name to the training directory gives a path that begins with the directory and ends with `/` followed by the name |
| Paths.JoinInjective | research/object_detection/legacy/train.py:144 | different relative names joined to the same directory give different paths |
| ConfigSource.SelectSource | research/object_detection/legacy/train.py:128-139 | the single-file loader is chosen exactly when the pipeline path is non-empty, with that path; otherwise the three-file loader gets the model, train and input paths |
| ConfigSource.CopyEach | research/object_detection/legacy/train.py:141-145 | one copy per (name, path) pair, in order, each from the pair's path into the directory under the pair's name |
| ConfigSource.CopyEffects | research/object_detection/legacy/train.py:131-145 | no copy unless the `task` flag is 0; then only `pipeline.config` for a pipeline path, or else `model.config`, `train.config`, `input.config` in that order from the three paths |
| ConfigSource.SetupEffects | research/object_detection/legacy/train.py:123-127 | the directory is removed exactly when reset is asked for and the path is a directory, and created exactly when the `task` flag is 0; at most these two actions, removal first; nothing else is touched |
| ConfigSource.PipelineHidesSeparatePaths | research/object_detection/legacy/train.py:128-145 | with a pipeline path given, changing the three separate paths changes neither the loader nor the copies |
| ConfigSource.CopyDestinationsDistinct | research/object_detection/legacy/train.py:141-145 | no two copies write the same destination |
| ConfigSource.CopiesStayInTrainDir | research/object_detection/legacy/train.py:131-145 | every copy writes strictly inside the training directory |
| Role.Resolve | research/object_detection/legacy/train.py:167-202 | no cluster gives exactly the single-worker role; the parameter-server error occurs iff worker_replicas > 1 and ps_tasks = 0; with ps_tasks > 0 the `AttributeError` for a missing `type` occurs iff the effective task has no `type`, and for a missing `index` iff it has a `type` but no `index`; serve-and-join occurs iff ps_tasks > 0 and the task type is `ps` with an index; a role to train with results iff there are no parameter servers and one replica, or ps_tasks > 0 and the task has a `type` other than `ps` and an `index`; every trained role satisfies the replica/parameter-server invariant and carries the derived counts; a distributed worker gets job name `<type>/task:<index>`, task = index, chief iff type is `master`, master = server target |
| Role.DistributedExactlyWithPs | research/object_detection/legacy/train.py:187-190 | worker_replicas is always at least 1, so distributed mode is entered exactly when ps_tasks > 0 |
| Role.DefaultTaskIsChief | research/object_detection/legacy/train.py:170-201 | a distributed process with a missing or empty task entry is the chief `master/task:0` with index 0 |
| Role.JobNameRoundTrip | research/object_detection/legacy/train.py:199 | the worker job name determines the task type and index it was built from |
| Role.JobNamesDistinct | research/object_detection/legacy/train.py:199 | tasks with different (type, index) pairs get different job names |
| Training.OverrideSteps | research/object_detection/legacy/train.py:150-151 | a positive `n_steps` becomes the step count; otherwise the configuration is unchanged; the other fields are always kept |
| Training.OverrideStepsComposes | research/object_detection/legacy/train.py:150-151 | applying the override twice equals applying it once, and a later positive override wins |
| Training.HandleTrainerOutcome | research/object_detection/legacy/train.py:213-237 | the process finishes normally iff the trainer returned or raised an instance of `RuntimeError`; any other exception escapes unchanged |
| TrainMain.Main | research/object_detection/legacy/train.py:120-237 | an empty `train_dir` fails before any effect; otherwise the actions are the directory setup followed, only when loading succeeded, by the configuration copies (so the copies precede a role error); a failed load, a `KeyError` for the first absent entry among `model`, `train_config`, `train_input_config` (raised after the copies), a role error and a non-`RuntimeError` trainer exception each end the run with that very error; the trainer is called iff `train_dir` is set, loading succeeded with all three entries and the role is a training role; the process serves forever iff, under the same conditions, the role is a parameter server; the call carries the overridden train config, the resolved role, the loaded model/input/rewriter configs, `train_dir` and every pass-through flag unchanged; the run completes normally iff the trainer outcome is finished; with `task` flag ≠ 0 the only possible effect is the reset removal |
| TrainMain.MainIgnoresRoleFlags | research/object_detection/legacy/train.py:174-233 | the `master`, `worker_replicas` and `ps_tasks` flags never change the run |
| TrainMain.MainPipelineHidesSeparatePaths | research/object_detection/legacy/train.py:128-145 | with a pipeline path given, the three separate config paths never change the run |
| TrainMain.MainStepsOverrideWins | research/object_detection/legacy/train.py:147-151 | with positive `n_steps`, the run does not depend on the loaded step count and the trainer sees `n_steps` |
| TrainMain.MainRuntimeErrorLooksLikeSuccess | research/object_detection/legacy/train.py:213-237 | a trainer raising a `RuntimeError` gives the same run as a trainer that returns, and never a trainer failure |
| TrainMain.MainSingleProcess | research/object_detection/legacy/train.py:167-179 | without cluster data, and with a configuration holding its three required entries, the trainer is called with ps_tasks 0, one replica, `lonely_worker`, task 0, chief, empty master |
| TrainMain.MainParameterServerStillCopies | research/object_detection/legacy/train.py:127-197 | a parameter-server process never calls the trainer, yet with the `task` flag at 0 its actions are exactly the directory setup followed by every configuration copy, after which it serves forever, or ends with the `KeyError` when a required configuration entry is absent |
| TrainMain.DefaultFlagsFailAssertion | research/object_detection/legacy/train.py:96-121 | with every flag at its declared default, `train_dir` is empty and the run stops at the assertion with no action and no trainer call |
| TrainMain.MainWithoutTfConfig | research/object_detection/legacy/train.py:167-179 | with `TF_CONFIG` unset (read as `{}`), a run whose configuration loads with its three required entries calls the trainer with exactly the single-worker role |

## Left out

- Flag registration and parsing, the `sys.path` edits, the logging set-up and every `print`. These are process plumbing. Flags arrive as a `Flags` value, and `DefaultFlags` records their declared defaults.
- The JSON decoding of `TF_CONFIG`. `Env` is the already-parsed dictionary. Values of other JSON types are not modelled: a `task` that is not a dictionary, a non-string `type`, a non-integer `index`, or a job given as a dictionary instead of an address list.
- The task entry of `TF_CONFIG` is modelled by its `type` and `index` keys plus a count of other keys. That count is enough to decide whether Python's `or` falls back to the default task.
- `tf.train.ClusterSpec` validation and `tf.train.Server` construction. These may raise inside the TensorFlow runtime. The server's target is a parameter, and `server.join()` is the `ServingForever` ending.
- The file-system effects themselves: removal, directory creation and copying, and the I/O errors they may raise. The model produces only the ordered list of actions, and whether the `train_dir` path is a directory is a parameter.
- Paths are joined as on POSIX systems. The Windows rules of `ntpath.join` (the `\` separator, drive letters) are not modelled.
- The configuration loaders, `model_builder`, `dataset_builder`, `graph_rewriter_builder` and `trainer.train`. Their code is not part of this model. The loader and trainer are function parameters, the model and input configurations are opaque strings, and the graph-rewriter hook is represented by the configuration it is built from. Failures of `graph_rewriter_builder.build` are not modelled.
- Training.OverrideSteps: does not model a range check the protobuf runtime may apply when `num_steps` is assigned. The field's declared width lives in `train.proto`, which is not part of this model.
- The pass-through knobs (`num_clones`, `clone_on_cpu`, memory growth, thread count, checkpoint retention and interval, mixed precision). They are carried into `TrainCall` unchanged and have no behaviour here.
- Running Python with `-O`, which strips the `train_dir` assertion. The model treats the assertion as always active.
