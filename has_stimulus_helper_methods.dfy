/** `Modulor::Component::HasStimulusHelperMethods::ClassMethods`
    (has_stimulus_helper_methods.rb): the same rule chain as the gem with the
    singular declarations only, a class value looked up on the component's
    `styles`, and the action helper called as (event, controller, action). */
module HasStimulusHelperMethods {
  import opened RubyValues
  import opened StimulusChain
  import opened StimulusHelpers
  import Gem = HasStimulusAttrs

  /** The lambdas the declarations build, with the values they close over. */
  datatype Code =
    | ActionValue(controller: Datum, event: Datum, action: Datum)
    | AttributeKey(kind: Kind, controller: Datum, name: string)
    | AttributeValue(kind: Kind, controller: Datum, name: string, value: Datum)
    | TargetKey(controller: Datum, name: string)
    | TargetValue(controller: Datum, name: string)

  /** The `v = case value ...` of an attribute value closure: a Proc is run; a
      Symbol is sent to the component's `styles` for a class and to the
      component otherwise; nil asks `styles` for a class and the component for
      a value, under the attribute's own name; anything else is used as it is
      (no `to_s`). */
  function Argument(kind: Kind, name: string, value: Datum, inst: Instance, t: Trace): (Datum, Trace) {
    match value
    case Lambda(id) => Invoke(inst, t, RunProc(id))
    case Sym(s) =>
      if kind == ClassKind then Invoke(inst, t, StylesSend(s)) else Invoke(inst, t, Send(s))
    case Nil =>
      if kind == ClassKind then Invoke(inst, t, StylesSend(name))
      else if kind == ValueKind then Invoke(inst, t, Send(name))
      else (value, t)
    case _ => (value, t)
  }

  /** `instance_exec` of one of the declaration-built lambdas. */
  function Exec(code: Code, inst: Instance, naming: Naming, t: Trace): (Datum, Trace) {
    match code
    case ActionValue(c, event, action) =>
      var (controller, t1) := ControllerOf(c, inst, t);
      (naming.action(event, controller, action), t1)
    case AttributeKey(kind, c, name) =>
      var (controller, t1) := ControllerOf(c, inst, t);
      (naming.attribute(kind, controller, Str(name), Str("N/A")).0, t1)
    case AttributeValue(kind, c, name, value) =>
      var (v, t1) := Argument(kind, name, value, inst, t);
      var (controller, t2) := ControllerOf(c, inst, t1);
      (naming.attribute(kind, controller, Str(name), v).1, t2)
    case TargetKey(c, name) =>
      var (controller, t1) := ControllerOf(c, inst, t);
      (naming.target(controller, Str(name)).0, t1)
    case TargetValue(c, name) =>
      var (controller, t1) := ControllerOf(c, inst, t);
      (naming.target(controller, Str(name)).1, t1)
  }

  /** The evaluation environment of a `Modulor::Component` instance. */
  function ModulorEnv(inst: Instance, naming: Naming, base: Data): Env<Code> {
    Env(inst, (c, t) => Exec(c, inst, naming, t), base)
  }

  // ---------------------------------------------------------------------------
  // The rules each declaration registers

  function ActionRule(event: Datum, action: Datum, controller: Datum, options: Options): Rule<Code> {
    Rule(Given(Sym("action")), Built(ActionValue(controller, event, action)), options)
  }

  function AttributeRule(kind: Kind, name: string, value: Datum, controller: Datum, options: Options): Rule<Code> {
    Rule(Built(AttributeKey(kind, controller, name)), Built(AttributeValue(kind, controller, name, value)), options)
  }

  function TargetRule(name: string, controller: Datum, options: Options): Rule<Code> {
    Rule(Built(TargetKey(controller, name)), Built(TargetValue(controller, name)), options)
  }

  // ---------------------------------------------------------------------------
  // The declarations

  /** `has_stimulus_controller(name = controller_name, **options)`; `name` is
      `None` when the argument is omitted. */
  method HasStimulusController(klass: ComponentClass<Code>, name: Option<Datum>, options: Options)
    modifies klass
    ensures klass.chain == old(klass.chain) + [ControllerRule<Code>(
      if name.Some? then name.value else Str(klass.controllerName), options)]
  {
    var value := if name.Some? then name.value else Str(klass.controllerName);
    klass.Prepend(ControllerRule<Code>(value, options));
  }

  /** `has_stimulus_action(event, action, controller: nil, **options)`. */
  method HasStimulusAction(klass: ComponentClass<Code>, event: Datum, action: Datum, controller: Datum, options: Options)
    modifies klass
    ensures klass.chain == old(klass.chain) + [ActionRule(event, action, controller, options)]
  {
    klass.Prepend(ActionRule(event, action, controller, options));
  }

  /** `has_stimulus_class(name, value = nil, controller: nil, **options)`. */
  method HasStimulusClass(klass: ComponentClass<Code>, name: string, value: Datum, controller: Datum, options: Options)
    modifies klass
    ensures klass.chain == old(klass.chain) + [AttributeRule(ClassKind, name, value, controller, options)]
  {
    klass.Prepend(AttributeRule(ClassKind, name, value, controller, options));
  }

  /** `has_stimulus_outlet(name, value, controller: nil, **options)`. */
  method HasStimulusOutlet(klass: ComponentClass<Code>, name: string, value: Datum, controller: Datum, options: Options)
    modifies klass
    ensures klass.chain == old(klass.chain) + [AttributeRule(OutletKind, name, value, controller, options)]
  {
    klass.Prepend(AttributeRule(OutletKind, name, value, controller, options));
  }

  /** `has_stimulus_param(name, value, controller: nil, **options)`. */
  method HasStimulusParam(klass: ComponentClass<Code>, name: string, value: Datum, controller: Datum, options: Options)
    modifies klass
    ensures klass.chain == old(klass.chain) + [AttributeRule(ParamKind, name, value, controller, options)]
  {
    klass.Prepend(AttributeRule(ParamKind, name, value, controller, options));
  }

  /** `has_stimulus_target(name, controller: nil, **options)`. */
  method HasStimulusTarget(klass: ComponentClass<Code>, name: string, controller: Datum, options: Options)
    modifies klass
    ensures klass.chain == old(klass.chain) + [TargetRule(name, controller, options)]
  {
    klass.Prepend(TargetRule(name, controller, options));
  }

  /** `has_stimulus_value(name, value = nil, controller: nil, **options)`. */
  method HasStimulusValue(klass: ComponentClass<Code>, name: string, value: Datum, controller: Datum, options: Options)
    modifies klass
    ensures klass.chain == old(klass.chain) + [AttributeRule(ValueKind, name, value, controller, options)]
  {
    klass.Prepend(AttributeRule(ValueKind, name, value, controller, options));
  }

  // ---------------------------------------------------------------------------
  // Properties

  /** What an unguarded `has_stimulus_class`, `_outlet`, `_param` or `_value`
      link contributes in this module: a Proc is run once; a class asks
      `styles` for a Symbol's name, or for its own name when the value is nil;
      an outlet, param or value sends a Symbol to the component; a value with
      nil sends its own name; an outlet or param with nil, and any string or
      boolean of any kind, is used as it is, with no call and no `to_s`. */
  lemma AttributeRuleContributes(kind: Kind, name: string, value: Datum, controller: Datum,
                                 inst: Instance, naming: Naming, base: Data, t: Trace)
    ensures value.Lambda? ==>
      Link(AttributeRule(kind, name, value, controller, Options(None, None)), ModulorEnv(inst, naming, base), t) ==
      AttributeStep(kind, name, controller, inst, naming, t, Some(RunProc(value.id)), Nil)
    ensures kind == ClassKind && value.Sym? ==>
      Link(AttributeRule(kind, name, value, controller, Options(None, None)), ModulorEnv(inst, naming, base), t) ==
      AttributeStep(kind, name, controller, inst, naming, t, Some(StylesSend(value.name)), Nil)
    ensures kind == ClassKind && value == Nil ==>
      Link(AttributeRule(kind, name, value, controller, Options(None, None)), ModulorEnv(inst, naming, base), t) ==
      AttributeStep(kind, name, controller, inst, naming, t, Some(StylesSend(name)), Nil)
    ensures kind != ClassKind && value.Sym? ==>
      Link(AttributeRule(kind, name, value, controller, Options(None, None)), ModulorEnv(inst, naming, base), t) ==
      AttributeStep(kind, name, controller, inst, naming, t, Some(Send(value.name)), Nil)
    ensures kind == ValueKind && value == Nil ==>
      Link(AttributeRule(kind, name, value, controller, Options(None, None)), ModulorEnv(inst, naming, base), t) ==
      AttributeStep(kind, name, controller, inst, naming, t, Some(Send(name)), Nil)
    ensures (kind == OutletKind || kind == ParamKind) && value == Nil ==>
      Link(AttributeRule(kind, name, value, controller, Options(None, None)), ModulorEnv(inst, naming, base), t) ==
      AttributeStep(kind, name, controller, inst, naming, t, None, Nil)
    ensures value.Str? || value.Bool? ==>
      Link(AttributeRule(kind, name, value, controller, Options(None, None)), ModulorEnv(inst, naming, base), t) ==
      AttributeStep(kind, name, controller, inst, naming, t, None, value)
  {
    if value.Lambda? {
      AttributeLink(kind, name, value, controller, inst, naming, base, t, Some(RunProc(value.id)), Nil);
    } else if kind == ClassKind && value.Sym? {
      AttributeLink(kind, name, value, controller, inst, naming, base, t, Some(StylesSend(value.name)), Nil);
    } else if kind == ClassKind && value == Nil {
      AttributeLink(kind, name, value, controller, inst, naming, base, t, Some(StylesSend(name)), Nil);
    } else if value.Sym? {
      AttributeLink(kind, name, value, controller, inst, naming, base, t, Some(Send(value.name)), Nil);
    } else if value == Nil && kind == ValueKind {
      AttributeLink(kind, name, value, controller, inst, naming, base, t, Some(Send(name)), Nil);
    } else {
      AttributeLink(kind, name, value, controller, inst, naming, base, t, None, value);
    }
  }

  /** An unguarded attribute link is the step its value resolution gives,
      once the value closure's own resolution is known to make the one call
      `call` or to use `literal`. */
  lemma AttributeLink(kind: Kind, name: string, value: Datum, controller: Datum, inst: Instance, naming: Naming,
                      base: Data, t: Trace, call: Option<Call>, literal: Datum)
    requires var tk := ControllerOf(controller, inst, t).1;
      Argument(kind, name, value, inst, tk) == if call.Some? then Invoke(inst, tk, call.value) else (literal, tk)
    ensures Link(AttributeRule(kind, name, value, controller, Options(None, None)), ModulorEnv(inst, naming, base), t) ==
      AttributeStep(kind, name, controller, inst, naming, t, call, literal)
  {
  }

  /** An unguarded `has_stimulus_target` link contributes the target helper's
      key and value, each for the declared controller or else the component's
      `controller_name`, and calls nothing else. */
  lemma TargetRuleContributes(name: string, controller: Datum, inst: Instance, naming: Naming, base: Data, t: Trace)
    ensures Link(TargetRule(name, controller, Options(None, None)), ModulorEnv(inst, naming, base), t) ==
      TargetStep(name, controller, inst, naming, t)
  {
  }

  /** An unguarded class declared with no value, anywhere in the chain, whose
      key no other applied link writes: on a host hash with nothing non-blank
      under that key, `dom_data` holds exactly the helper's value for what
      `styles` answers to the class's own name (the `class_name` entry of
      has_stimulus_helper_methods_test.rb). */
  lemma StylesClassInDomData(name: string, controller: Datum, chain: seq<Rule<Code>>, n: nat,
                             inst: Instance, naming: Naming, base: Data, t: Trace)
    requires n < |chain| && chain[n] == AttributeRule(ClassKind, name, Nil, controller, Options(None, None))
    requires var tn := TraceBefore(chain, ModulorEnv(inst, naming, base), t, n);
      var k := AttributeStep(ClassKind, name, controller, inst, naming, tn, Some(StylesSend(name)), Nil).key;
      var cs := Contributions(chain, ModulorEnv(inst, naming, base), t).0;
      forall j, j' :: 0 <= j < |cs| && 0 <= j' < |cs| && cs[j].0 == k && cs[j'].0 == k ==> j == j'
    ensures var env := ModulorEnv(inst, naming, base);
      var s := AttributeStep(ClassKind, name, controller, inst, naming, TraceBefore(chain, env, t, n), Some(StylesSend(name)), Nil);
      var data := Run(chain, env, t).0;
      && s.key in data
      && (Blank(Lookup(base, s.key)) ==> data[s.key] == Str(if Blank(s.value) then "" else ToS(s.value)))
  {
    var env := ModulorEnv(inst, naming, base);
    var tn := TraceBefore(chain, env, t, n);
    AttributeRuleContributes(ClassKind, name, Nil, controller, inst, naming, base, tn);
    SoleContributionExact(chain, env, t, n);
    var s := AttributeStep(ClassKind, name, controller, inst, naming, tn, Some(StylesSend(name)), Nil);
    MergeCases(Lookup(base, s.key), s.value);
  }

  /** Every closure this module's declarations build only appends to the
      component's history. */
  lemma ModulorEnvExtends(inst: Instance, naming: Naming, base: Data)
    ensures ExtendsTrace(ModulorEnv(inst, naming, base))
  {
  }

  /** The two modules resolve outlets, params and values alike and differ on
      every class value that is not a Proc: a Symbol gives the gem its own name
      with no call, here `styles` is asked for it; nil gives the gem "" with no
      call, here `styles` is asked for the attribute's own name; a boolean
      becomes its `to_s` in the gem and is passed as it is here. */
  lemma ClassDiffersFromGem(kind: Kind, name: string, value: Datum, inst: Instance, t: Trace)
    ensures kind != ClassKind ==> Argument(kind, name, value, inst, t) == Gem.Argument(kind, name, value, inst, t)
    ensures kind == ClassKind && value.Sym? ==>
      && Gem.Argument(kind, name, value, inst, t) == (Str(value.name), t)
      && Argument(kind, name, value, inst, t) == (inst.answer(t, StylesSend(value.name)), t + [StylesSend(value.name)])
    ensures kind == ClassKind && value == Nil ==>
      && Gem.Argument(kind, name, value, inst, t) == (Str(""), t)
      && Argument(kind, name, value, inst, t) == (inst.answer(t, StylesSend(name)), t + [StylesSend(name)])
    ensures kind == ClassKind && value.Bool? ==>
      && Gem.Argument(kind, name, value, inst, t) == (Str(if value.b then "true" else "false"), t)
      && Argument(kind, name, value, inst, t) == (value, t)
  {
  }

  /** An unguarded action contributes to `:action` the helper's descriptor with
      the event first and the controller second, the reverse of the gem's
      argument order; both take the same controller. */
  lemma ActionArgumentOrder(event: Datum, action: Datum, controller: Datum, inst: Instance, naming: Naming, base: Data, t: Trace)
    ensures var c := if Truthy(controller) then controller else inst.answer(t, Send("controller_name"));
      var here := Link(ActionRule(event, action, controller, Options(None, None)), ModulorEnv(inst, naming, base), t);
      var gem := Link(Gem.ActionRule(event, action, controller, Options(None, None)), Gem.GemEnv(inst, naming, base), t);
      && here.Applied? && gem.Applied?
      && here.key == gem.key == Sym("action")
      && here.value == naming.action(event, c, action)
      && gem.value == naming.action(c, event, action)
      && here.after == gem.after
  {
  }
}
