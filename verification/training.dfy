/** The training configuration's step override and the policy applied to
    the way the external trainer ends. */
module Training {

  /** The train configuration: its step count, and its other fields, which
      this file passes through untouched. */
  datatype TrainConfig = TrainConfig(numSteps: int, otherFields: map<string, string>)

  /** A positive `n_steps` flag replaces the configured step count; any
      other value leaves the configuration as loaded. */
  function OverrideSteps(c: TrainConfig, nSteps: int): (r: TrainConfig)
    ensures nSteps > 0 ==> r.numSteps == nSteps
    ensures nSteps <= 0 ==> r == c
    ensures r.otherFields == c.otherFields
  {
    if nSteps > 0 then c.(numSteps := nSteps) else c
  }

  /** An exception object: its class name and the names of its base classes
      along the method resolution order. */
  datatype PyException = PyException(name: string, ancestors: seq<string>)

  /** Python's `isinstance` against a class given by name. */
  predicate IsInstance(e: PyException, cls: string) {
    e.name == cls || cls in e.ancestors
  }

  /** How the call into the trainer ended. */
  datatype TrainerOutcome = Returned | Raised(exc: PyException)

  /** What the process does after the trainer: carry on to a normal exit, or
      let the exception escape. */
  datatype TrainerExit = Finished | Propagated(exc: PyException)

  /** A `RuntimeError`, including any subclass of it, is swallowed; every
      other exception escapes unchanged. */
  function HandleTrainerOutcome(o: TrainerOutcome): (x: TrainerExit)
    ensures x.Finished? <==> o.Returned? || IsInstance(o.exc, "RuntimeError")
    ensures x.Propagated? ==> o == Raised(x.exc)
  {
    match o
    case Returned => Finished
    case Raised(e) => if IsInstance(e, "RuntimeError") then Finished else Propagated(e)
  }

  /** Overriding twice with the same flag is the same as overriding once, and
      a later positive override wins over an earlier one. */
  lemma OverrideStepsComposes(c: TrainConfig, a: int, b: int)
    ensures OverrideSteps(OverrideSteps(c, a), a) == OverrideSteps(c, a)
    ensures b > 0 ==> OverrideSteps(OverrideSteps(c, a), b) == OverrideSteps(c, b)
  {
  }
}
