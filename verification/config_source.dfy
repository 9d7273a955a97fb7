/** Where the training configuration is read from, and what the primary
    process writes to the training directory before training starts. */
module ConfigSource {
  import opened Paths

  /** The command-line flags that decide the configuration source and the
      training directory's preparation. */
  datatype PathFlags = PathFlags(
    trainDir: string,
    pipelinePath: string,
    modelPath: string,
    trainPath: string,
    inputPath: string,
    task: int,
    resetTrain: int)

  /** Which configuration loader is called, and with which paths. */
  datatype Source =
    | PipelineFile(path: string)
    | SeparateFiles(modelPath: string, trainPath: string, inputPath: string)

  /** A file-system action, in the order the process performs it. */
  datatype Effect =
    | RemoveTree(dir: string)
    | MakeDirs(dir: string)
    | CopyFile(source: string, dest: string)

  /** A non-empty pipeline path selects the single-file loader and hides the
      three separate paths; an empty one selects the three-file loader. */
  function SelectSource(f: PathFlags): (src: Source)
    ensures src.PipelineFile? <==> f.pipelinePath != ""
    ensures src.PipelineFile? ==> src.path == f.pipelinePath
    ensures src.SeparateFiles? ==> src == SeparateFiles(f.modelPath, f.trainPath, f.inputPath)
  {
    if f.pipelinePath != "" then PipelineFile(f.pipelinePath)
    else SeparateFiles(f.modelPath, f.trainPath, f.inputPath)
  }

  /** The (name inside the training directory, source path) pairs under which
      the chosen configuration files are saved, in copy order. */
  function SavedNames(src: Source): seq<(string, string)> {
    match src
    case PipelineFile(p) => [("pipeline.config", p)]
    case SeparateFiles(m, t, i) => [("model.config", m), ("train.config", t), ("input.config", i)]
  }

  /** One copy per pair, each into `dir` under the pair's name. */
  function CopyEach(dir: string, pairs: seq<(string, string)>): (effects: seq<Effect>)
    ensures |effects| == |pairs|
    ensures forall j :: 0 <= j < |pairs| ==> effects[j] == CopyFile(pairs[j].1, Join(dir, pairs[j].0))
    decreases |pairs|
  {
    if pairs == [] then []
    else [CopyFile(pairs[0].1, Join(dir, pairs[0].0))] + CopyEach(dir, pairs[1..])
  }

  /** The configuration copies: only when the `task` flag is 0, the pipeline
      file alone, or else the model, train and input files in that order. */
  function CopyEffects(f: PathFlags): (effects: seq<Effect>)
    ensures f.task != 0 ==> effects == []
    ensures f.task == 0 && f.pipelinePath != "" ==>
      effects == [CopyFile(f.pipelinePath, Join(f.trainDir, "pipeline.config"))]
    ensures f.task == 0 && f.pipelinePath == "" ==>
      effects == [CopyFile(f.modelPath, Join(f.trainDir, "model.config")),
                  CopyFile(f.trainPath, Join(f.trainDir, "train.config")),
                  CopyFile(f.inputPath, Join(f.trainDir, "input.config"))]
  {
    if f.task == 0 then CopyEach(f.trainDir, SavedNames(SelectSource(f))) else []
  }

  /** The preparation of the training directory: it is removed when a reset
      is asked for and the path is a directory, then created when the `task`
      flag is 0. */
  function SetupEffects(f: PathFlags, trainDirIsDir: bool): (effects: seq<Effect>)
    ensures forall e :: e in effects ==> e == RemoveTree(f.trainDir) || e == MakeDirs(f.trainDir)
    ensures RemoveTree(f.trainDir) in effects <==> f.resetTrain != 0 && trainDirIsDir
    ensures MakeDirs(f.trainDir) in effects <==> f.task == 0
    ensures |effects| <= 2
    ensures |effects| == 2 ==> effects == [RemoveTree(f.trainDir), MakeDirs(f.trainDir)]
  {
    (if f.resetTrain != 0 && trainDirIsDir then [RemoveTree(f.trainDir)] else [])
    + (if f.task == 0 then [MakeDirs(f.trainDir)] else [])
  }

  /** With a pipeline path given, the three separate paths change neither the
      loader chosen nor the copies made. */
  lemma PipelineHidesSeparatePaths(f: PathFlags, m: string, t: string, i: string)
    requires f.pipelinePath != ""
    ensures var g := f.(modelPath := m, trainPath := t, inputPath := i);
      SelectSource(g) == SelectSource(f) && CopyEffects(g) == CopyEffects(f)
  {
  }

  /** No copy overwrites another: the destinations are pairwise distinct. */
  lemma CopyDestinationsDistinct(f: PathFlags)
    ensures var c := CopyEffects(f);
      forall j, k :: 0 <= j < k < |c| ==> c[j].dest != c[k].dest
  {
    var c := CopyEffects(f);
    var names := SavedNames(SelectSource(f));
    if f.task == 0 {
      forall j, k | 0 <= j < k < |c|
        ensures c[j].dest != c[k].dest
      {
        assert names[j].0 != names[k].0;
        if c[j].dest == c[k].dest {
          JoinInjective(f.trainDir, names[j].0, names[k].0);
        }
      }
    }
  }

  /** Every copy lands strictly inside the training directory. */
  lemma CopiesStayInTrainDir(f: PathFlags)
    requires f.trainDir != ""
    ensures forall e :: e in CopyEffects(f) ==>
      e.CopyFile? && |f.trainDir| < |e.dest| && e.dest[..|f.trainDir|] == f.trainDir
  {
  }
}
