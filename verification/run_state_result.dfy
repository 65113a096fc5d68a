/** The outcome of executing one state: the resulting document, the kind of
    state executed, where control goes next, and whether the run ends here. */
module RunStateResults {
  import opened Wrappers
  import opened JsonDoc

  /** Raised when a result would neither end the run nor name a successor. */
  const NonTerminalWithoutNext: string :=
    "nextState must be non-null when the state is non-terminal state"

  datatype RunStateResult = RunStateResult(
    data: Json,
    stateType: string,
    nextStateName: Option<string>,
    isTerminalState: bool)
  {
    /** A result either ends the run or names the state that follows. */
    predicate Valid() {
      isTerminalState || nextStateName.Some?
    }
  }

  /** The checking constructor: it refuses a non-terminal result without a
      successor and otherwise builds the record from its four fields. */
  function MakeResult(data: Json, stateType: string, nextStateName: Option<string>, isTerminalState: bool)
    : (r: Result<RunStateResult>)
    ensures r.Ok? <==> isTerminalState || nextStateName.Some?
    ensures r.Err? ==> r.msg == NonTerminalWithoutNext
    ensures r.Ok? ==> r.value.Valid()
    ensures r.Ok? ==> && r.value.data == data
                      && r.value.stateType == stateType
                      && r.value.nextStateName == nextStateName
                      && r.value.isTerminalState == isTerminalState
  {
    if !isTerminalState && nextStateName.None? then Err(NonTerminalWithoutNext)
    else Ok(RunStateResult(data, stateType, nextStateName, isTerminalState))
  }

  /** Equality is structural: two accepted constructions give equal results
      exactly when their arguments are equal. */
  lemma MakeResultStructural(
    d1: Json, t1: string, n1: Option<string>, e1: bool,
    d2: Json, t2: string, n2: Option<string>, e2: bool)
    requires MakeResult(d1, t1, n1, e1).Ok? && MakeResult(d2, t2, n2, e2).Ok?
    ensures MakeResult(d1, t1, n1, e1) == MakeResult(d2, t2, n2, e2)
        <==> d1 == d2 && t1 == t2 && n1 == n2 && e1 == e2
  {
  }
}
