/** What both sets of declarations share: the naming helpers their closures
    call (`stimulus_action`, `stimulus_actions`, `stimulus_class`,
    `stimulus_outlet`, `stimulus_param`, `stimulus_target`, `stimulus_value`),
    the `controller || controller_name` fallback, and the `:controller` rule.
    The helpers' formatting rules are not part of this model: they are injected
    as functions, each giving the first entry of the hash the helper returns
    (`.keys.first`, `.values.first`). */
module StimulusHelpers {
  import opened RubyValues
  import opened StimulusChain

  /** The four helpers that take (controller, name, value). */
  datatype Kind = ClassKind | OutletKind | ParamKind | ValueKind

  datatype Naming = Naming(
    /** `stimulus_action(a, b, c).values.first`, arguments in the order given */
    action: (Datum, Datum, Datum) -> Datum,
    /** `stimulus_actions(controller, actions).values.first` */
    actions: (Datum, seq<(Datum, Datum)>) -> Datum,
    /** `stimulus_<kind>(controller, name, value)`: its first (key, value) pair */
    attribute: (Kind, Datum, Datum, Datum) -> (Datum, Datum),
    /** `stimulus_target(controller, name)`: its first (key, value) pair */
    target: (Datum, Datum) -> (Datum, Datum))

  /** `(controller || controller_name)` inside a closure: the declared controller
      when it is truthy, otherwise the instance's `controller_name`, asked once. */
  function ControllerOf(controller: Datum, inst: Instance, t: Trace): (Datum, Trace) {
    if Truthy(controller) then (controller, t)
    else Invoke(inst, t, Send("controller_name"))
  }

  /** The step of an unguarded attribute link (class, outlet, param or value)
      whose value resolution either makes the one call `call` and uses its
      answer, or makes no call and uses `literal`. The key closure resolves the
      controller first; then the value closure resolves its value and the
      controller again. */
  function AttributeStep(kind: Kind, name: string, controller: Datum, inst: Instance, naming: Naming, t: Trace,
                         call: Option<Call>, literal: Datum): Step {
    var (ck, tk) := ControllerOf(controller, inst, t);
    var v := if call.Some? then inst.answer(tk, call.value) else literal;
    var tc := if call.Some? then tk + [call.value] else tk;
    var (cv, tv) := ControllerOf(controller, inst, tc);
    Applied(naming.attribute(kind, ck, Str(name), Str("N/A")).0, naming.attribute(kind, cv, Str(name), v).1, tv)
  }

  /** The step of an unguarded target link: the key closure and the value
      closure each resolve the controller, and neither resolves anything else. */
  function TargetStep(name: string, controller: Datum, inst: Instance, naming: Naming, t: Trace): Step {
    var (ck, tk) := ControllerOf(controller, inst, t);
    var (cv, tv) := ControllerOf(controller, inst, tk);
    Applied(naming.target(ck, Str(name)).0, naming.target(cv, Str(name)).1, tv)
  }

  /** The rule `has_stimulus_controller(name, **options)` registers: the fixed
      key `:controller` and the name as given (a Proc stays a Proc). */
  function ControllerRule<C>(name: Datum, options: Options): Rule<C> {
    Rule(Given(Sym("controller")), Given(name), options)
  }

  /** An unguarded `has_stimulus_controller` contributes to `:controller`: a
      fixed name as it is, a Proc (such as `-> { instance_method_controller }`)
      by its answer. Together with `ContributionSurvives` every such value
      appears in `dom_data[:controller]`. */
  lemma ControllerRuleContributes<C>(name: Datum, env: Env<C>, t: Trace)
    ensures var s := Link(ControllerRule<C>(name, Options(None, None)), env, t);
      && s.Applied?
      && s.key == Sym("controller")
      && s.value == (if name.Lambda? then env.inst.answer(t, RunProc(name.id)) else name)
      && s.after == (if name.Lambda? then t + [RunProc(name.id)] else t)
  {
  }
}
