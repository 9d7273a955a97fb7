/** The distributed-training role a process takes, derived from the parsed
    `TF_CONFIG` environment variable. */
module Role {
  import opened Wrappers
  import opened Text

  /** Job name to the addresses of that job's tasks (the `cluster` entry). */
  type ClusterData = map<string, seq<string>>

  /** The `task` entry: its `type` and `index` keys, each possibly missing,
      and how many other keys it holds. */
  datatype TaskSpec = TaskSpec(kind: Option<string>, index: Option<int>, otherKeys: nat) {
    /** True of the empty dictionary, which Python treats as false. */
    predicate IsEmpty() {
      kind.None? && index.None? && otherKeys == 0
    }
  }

  /** The parsed `TF_CONFIG`; an unset variable reads as `{}`. */
  datatype Env = Env(cluster: Option<ClusterData>, task: Option<TaskSpec>)

  const NoTfConfig: Env := Env(None, None)

  /** The task assumed when none (or an empty one) is given. */
  const DefaultTask: TaskSpec := TaskSpec(Some("master"), Some(0), 0)

  /** The values handed to the trainer. */
  datatype RoleParams = RoleParams(
    psTasks: nat,
    workerReplicas: nat,
    workerJobName: string,
    task: int,
    isChief: bool,
    master: string)

  /** The role of a process that trains alone. */
  const SingleWorker: RoleParams := RoleParams(0, 1, "lonely_worker", 0, true, "")

  datatype RoleError =
    | PsTaskRequired                       // workers listed but no parameter server
    | MissingTaskAttribute(name: string)   // `task` lacks `type` or `index`

  /** Either the process fails, serves as a parameter server until it is
      killed, or trains with the given parameters. */
  datatype Resolution =
    | Failed(error: RoleError)
    | ServeAsPs(taskIndex: int)
    | Train(params: RoleParams)

  const TaskInfix: string := "/task:"

  /** True when `TF_CONFIG` holds a non-empty `cluster` dictionary. */
  predicate HasCluster(env: Env) {
    env.cluster.Some? && |env.cluster.value| > 0
  }

  /** The task in effect: the given one unless it is missing or empty. */
  function EffectiveTask(env: Env): TaskSpec {
    if env.task.None? || env.task.value.IsEmpty() then DefaultTask else env.task.value
  }

  /** Listed workers plus the implicit master; 1 without a `worker` job. */
  function WorkerReplicas(env: Env): nat {
    if HasCluster(env) && "worker" in env.cluster.value then |env.cluster.value["worker"]| + 1
    else 1
  }

  /** Listed parameter servers; 0 without a `ps` job. */
  function PsTasks(env: Env): nat {
    if HasCluster(env) && "ps" in env.cluster.value then |env.cluster.value["ps"]|
    else 0
  }

  /** `'%s/task:%d' % (kind, index)`. */
  function JobName(kind: string, index: int): string {
    kind + TaskInfix + IntToString(index)
  }

  /** What the role parameters always satisfy: at least one replica, and a
      parameter server whenever there is more than one replica; a process
      outside distributed mode has exactly the single-worker role. */
  predicate WellFormed(p: RoleParams) {
    && 1 <= p.workerReplicas
    && (p.workerReplicas > 1 ==> 1 <= p.psTasks)
    && (p.psTasks == 0 ==> p == SingleWorker)
  }

  /** Resolves the role of this process. `serverTarget` is the connection
      target of the server started in distributed mode. */
  function Resolve(env: Env, serverTarget: string): (r: Resolution)
    ensures !HasCluster(env) ==> r == Train(SingleWorker)
    ensures r == Failed(PsTaskRequired) <==> WorkerReplicas(env) > 1 && PsTasks(env) == 0
    ensures r.ServeAsPs? <==>
      && PsTasks(env) > 0
      && EffectiveTask(env).kind == Some("ps")
      && EffectiveTask(env).index.Some?
    ensures r.ServeAsPs? ==> r.taskIndex == EffectiveTask(env).index.value
    ensures r == Failed(MissingTaskAttribute("type")) <==>
      PsTasks(env) > 0 && EffectiveTask(env).kind.None?
    ensures r == Failed(MissingTaskAttribute("index")) <==>
      PsTasks(env) > 0 && EffectiveTask(env).kind.Some? && EffectiveTask(env).index.None?
    ensures r.Train? <==>
      || (PsTasks(env) == 0 && WorkerReplicas(env) == 1)
      || (&& PsTasks(env) > 0
          && EffectiveTask(env).kind.Some? && EffectiveTask(env).index.Some?
          && EffectiveTask(env).kind.value != "ps")
    ensures r.Train? ==> WellFormed(r.params)
    ensures r.Train? ==>
      r.params.psTasks == PsTasks(env) && r.params.workerReplicas == WorkerReplicas(env)
    ensures r.Train? && PsTasks(env) > 0 ==>
      var t := EffectiveTask(env);
      && t.kind.Some? && t.index.Some? && t.kind.value != "ps"
      && r.params.workerJobName == t.kind.value + "/task:" + IntToString(t.index.value)
      && r.params.task == t.index.value
      && (r.params.isChief <==> t.kind.value == "master")
      && r.params.master == serverTarget
  {
    var workerReplicas := WorkerReplicas(env);
    var psTasks := PsTasks(env);
    if workerReplicas > 1 && psTasks < 1 then Failed(PsTaskRequired)
    else if workerReplicas >= 1 && psTasks > 0 then
      var t := EffectiveTask(env);
      if t.kind.None? then Failed(MissingTaskAttribute("type"))
      else if t.index.None? then Failed(MissingTaskAttribute("index"))
      else if t.kind.value == "ps" then ServeAsPs(t.index.value)
      else Train(RoleParams(
        psTasks, workerReplicas,
        JobName(t.kind.value, t.index.value), t.index.value,
        t.kind.value == "master", serverTarget))
    else Train(SingleWorker)
  }

  /** There is always at least one worker replica, so distributed mode (the
      server-join outcome, a task attribute error, or a role other than the
      single worker) is entered exactly when `ps_tasks > 0`. */
  lemma DistributedExactlyWithPs(env: Env, serverTarget: string)
    ensures 1 <= WorkerReplicas(env)
    ensures var r := Resolve(env, serverTarget);
      PsTasks(env) > 0 <==> r != Failed(PsTaskRequired) && r != Train(SingleWorker)
  {
  }

  /** A distributed process given no task information is the chief
      `master/task:0`. */
  lemma DefaultTaskIsChief(env: Env, serverTarget: string)
    requires PsTasks(env) > 0
    requires env.task.None? || env.task.value.IsEmpty()
    ensures Resolve(env, serverTarget) ==
      Train(RoleParams(PsTasks(env), WorkerReplicas(env), "master/task:0", 0, true, serverTarget))
  {
  }

  /** Reads a job name back into its type and task index. The index is the
      trailing run of digits with an optional minus sign before it; the
      type is everything before the `/task:` that precedes the index. */
  function ParseJobName(name: string): Option<(string, int)> {
    var start := IndexStart(name);
    if start < |name| && |TaskInfix| <= start && name[start - |TaskInfix|..start] == TaskInfix then
      match ParseInt(name[start..])
      case Some(i) => Some((name[..start - |TaskInfix|], i))
      case None => None
    else None
  }

  /** Where the numeral that ends `name` begins, its minus sign included. */
  function IndexStart(name: string): (start: nat)
    ensures start <= |name|
  {
    var k := TrailingDigits(name);
    if k < |name| && name[|name| - k - 1] == '-' then |name| - k - 1 else |name| - k
  }

  /** The length of the longest run of digits that ends `s`. */
  function TrailingDigits(s: string): (k: nat)
    ensures k <= |s|
    ensures AllDigits(s[|s| - k..])
    ensures k < |s| ==> !IsDigit(s[|s| - k - 1])
    decreases |s|
  {
    if |s| > 0 && IsDigit(s[|s| - 1]) then TrailingDigits(s[..|s| - 1]) + 1 else 0
  }

  /** Appending digits to a string that ends in a non-digit makes exactly
      those digits the trailing run. */
  lemma {:induction false} TrailingDigitsOfAppend(p: string, d: string)
    requires 0 < |p| && !IsDigit(p[|p| - 1])
    requires AllDigits(d)
    ensures TrailingDigits(p + d) == |d|
    decreases |d|
  {
    if d != [] {
      var d' := d[..|d| - 1];
      assert (p + d)[..|p + d| - 1] == p + d';
      TrailingDigitsOfAppend(p, d');
    } else {
      assert p + d == p;
    }
  }

  /** The job name determines the task type and index it was built from. */
  lemma JobNameRoundTrip(kind: string, index: int)
    ensures ParseJobName(JobName(kind, index)) == Some((kind, index))
  {
    var num := IntToString(index);
    var name := JobName(kind, index);
    var start := |kind| + |TaskInfix|;
    assert name[start..] == num;
    assert name[..start - |TaskInfix|] == kind;
    assert name[start - |TaskInfix|..start] == TaskInfix;
    IndexStartOfJobName(kind, index);
    IntToStringRoundTrip(index);
  }

  /** In a job name the numeral starts right after the `/task:` infix. */
  lemma IndexStartOfJobName(kind: string, index: int)
    ensures IndexStart(JobName(kind, index)) == |kind| + |TaskInfix|
  {
    var num := IntToString(index);
    var name := JobName(kind, index);
    if index < 0 {
      var head := kind + TaskInfix + "-";
      assert name == head + num[1..];
      TrailingDigitsOfAppend(head, num[1..]);
    } else {
      var head := kind + TaskInfix;
      assert name == head + num;
      TrailingDigitsOfAppend(head, num);
    }
  }

  /** Two tasks of a cluster with distinct (type, index) pairs get distinct
      job names. */
  lemma JobNamesDistinct(kind1: string, index1: int, kind2: string, index2: int)
    requires (kind1, index1) != (kind2, index2)
    ensures JobName(kind1, index1) != JobName(kind2, index2)
  {
    JobNameRoundTrip(kind1, index1);
    JobNameRoundTrip(kind2, index2);
  }
}
