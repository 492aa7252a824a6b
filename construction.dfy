/** `NewEvalResult`: the options-style constructor of the result facade. It
    allocates an `EvalResult`, applies the configuration callbacks in argument
    order, and gives the result a generated decision id when no callback set
    one. */
module Construction {
  import opened DecisionValue

  /** A configuration callback: each one writes one field of the result. */
  datatype Opt = WithDecisionID(decisionID: string) | WithDecision(decision: Value)

  /** The fields of an `EvalResult` that the callbacks write. */
  datatype Fields = Fields(decisionID: string, decision: Value)

  /** What one callback does to the fields. */
  function Step(f: Fields, opt: Opt): Fields {
    match opt
    case WithDecisionID(id) => f.(decisionID := id)
    case WithDecision(d) => f.(decision := d)
  }

  /** The fields after the callbacks run, first to last. */
  function Configure(f: Fields, opts: seq<Opt>): Fields
    decreases |opts|
  {
    if opts == [] then f else Configure(Step(f, opts[0]), opts[1..])
  }

  /** The decision id the last `WithDecisionID` in `opts` names, else `dflt`. */
  function LastDecisionID(opts: seq<Opt>, dflt: string): string
    decreases |opts|
  {
    if opts == [] then dflt
    else if opts[|opts| - 1].WithDecisionID? then opts[|opts| - 1].decisionID
    else LastDecisionID(opts[..|opts| - 1], dflt)
  }

  /** The decision the last `WithDecision` in `opts` names, else `dflt`. */
  function LastDecision(opts: seq<Opt>, dflt: Value): Value
    decreases |opts|
  {
    if opts == [] then dflt
    else if opts[|opts| - 1].WithDecision? then opts[|opts| - 1].decision
    else LastDecision(opts[..|opts| - 1], dflt)
  }

  /** Running one more callback is one more step. */
  lemma {:induction false} ConfigureSnoc(f: Fields, opts: seq<Opt>, opt: Opt)
    ensures Configure(f, opts + [opt]) == Step(Configure(f, opts), opt)
    decreases |opts|
  {
    if opts != [] {
      assert (opts + [opt])[1..] == opts[1..] + [opt];
      ConfigureSnoc(Step(f, opts[0]), opts[1..], opt);
    }
  }

  /** Callbacks applied in order: for each field the last callback that writes
      it wins, and a field no callback writes keeps its initial value. */
  lemma {:induction false} ConfigureLastWins(f: Fields, opts: seq<Opt>)
    ensures Configure(f, opts) == Fields(LastDecisionID(opts, f.decisionID), LastDecision(opts, f.decision))
    decreases |opts|
  {
    if opts != [] {
      var init := opts[..|opts| - 1];
      assert opts == init + [opts[|opts| - 1]];
      ConfigureSnoc(f, init, opts[|opts| - 1]);
      ConfigureLastWins(f, init);
    }
  }

  /** The result facade. */
  class EvalResult {
    var decisionID: string
    var decision: Value

    function Current(): Fields
      reads this
    {
      Fields(decisionID, decision)
    }

    /** A zero `EvalResult`: no decision id, a nil decision. */
    constructor ()
      ensures Current() == Fields("", VNull)
    {
      decisionID := "";
      decision := VNull;
    }

    /** Runs one configuration callback on this result. */
    method Apply(opt: Opt)
      modifies this
      ensures Current() == Step(old(Current()), opt)
    {
      match opt
      case WithDecisionID(id) => decisionID := id;
      case WithDecision(d) => decision := d;
    }
  }

  /** `NewEvalResult(opts...)`. `generatedID` stands for the identifier the
      id generator would produce. */
  method NewEvalResult(opts: seq<Opt>, generatedID: string) returns (er: EvalResult)
    ensures fresh(er)
    ensures er.decision == LastDecision(opts, VNull)
    ensures er.decisionID == if LastDecisionID(opts, "") == "" then generatedID else LastDecisionID(opts, "")
  {
    er := new EvalResult();
    var i := 0;
    while i < |opts|
      invariant 0 <= i <= |opts|
      invariant er.Current() == Configure(Fields("", VNull), opts[..i])
    {
      assert opts[..i + 1] == opts[..i] + [opts[i]];
      ConfigureSnoc(Fields("", VNull), opts[..i], opts[i]);
      er.Apply(opts[i]);
      i := i + 1;
    }
    assert opts[..i] == opts;
    ConfigureLastWins(Fields("", VNull), opts);
    if er.decisionID == "" {
      er.decisionID := generatedID;
    }
  }
}
