/** `HasStimulusAttrs::ClassMethods` (lib/has_stimulus_attrs.rb): the
    `has_stimulus_*` declarations, the closures they build for keys and values,
    and how those closures run against an instance. */
module HasStimulusAttrs {
  import opened RubyValues
  import opened StimulusChain
  import opened StimulusHelpers

  /** The lambdas the declarations build (`key = -> { ... }`, `val = -> { ... }`),
      with the values they close over. */
  datatype Code =
    | ActionValue(controller: Datum, event: Datum, action: Datum)
    | ActionsValue(controller: Datum, actions: seq<(Datum, Datum)>)
    | AttributeKey(kind: Kind, controller: Datum, name: string)
    | AttributeValue(kind: Kind, controller: Datum, name: string, value: Datum)
    | TargetKey(controller: Datum, name: string)
    | TargetValue(controller: Datum, name: string)

  /** The `v = case value ...` of an attribute value closure: a Proc is run;
      for a class anything else becomes its `to_s`; for an outlet, param or value
      a Symbol is sent; for a value nil sends the attribute's own name; anything
      else is used as it is. */
  function Argument(kind: Kind, name: string, value: Datum, inst: Instance, t: Trace): (Datum, Trace) {
    match value
    case Lambda(id) => Invoke(inst, t, RunProc(id))
    case Sym(s) =>
      if kind == ClassKind then (Str(ToS(value)), t) else Invoke(inst, t, Send(s))
    case Nil =>
      if kind == ClassKind then (Str(ToS(value)), t)
      else if kind == ValueKind then Invoke(inst, t, Send(name))
      else (value, t)
    case _ =>
      if kind == ClassKind then (Str(ToS(value)), t) else (value, t)
  }

  /** `instance_exec` of one of the declaration-built lambdas. */
  function Exec(code: Code, inst: Instance, naming: Naming, t: Trace): (Datum, Trace) {
    match code
    case ActionValue(c, event, action) =>
      var (controller, t1) := ControllerOf(c, inst, t);
      (naming.action(controller, event, action), t1)
    case ActionsValue(controller, actions) =>
      (naming.actions(controller, actions), t)
    case AttributeKey(kind, c, name) =>
      var (controller, t1) := ControllerOf(c, inst, t);
      (naming.attribute(kind, controller, Str(name), Str("N/A")).0, t1)
    case AttributeValue(kind, c, name, value) =>
      var (v, t1) := Argument(kind, name, value, inst, t);
      var (controller, t2) := ControllerOf(c, inst, t1);
      (naming.attribute(kind, controller, Str(name), v).1, t2)
    case TargetKey(c, name) =>
      var (controller, t1) := ControllerOf(c, inst, t);
      (naming.target(controller, Str(name)).0, t1)
    case TargetValue(c, name) =>
      var (controller, t1) := ControllerOf(c, inst, t);
      (naming.target(controller, Str(name)).1, t1)
  }

  /** The evaluation environment of an instance of a class using this module. */
  function GemEnv(inst: Instance, naming: Naming, base: Data): Env<Code> {
    Env(inst, (c, t) => Exec(c, inst, naming, t), base)
  }

  // ---------------------------------------------------------------------------
  // The rules each declaration registers

  function ActionRule(event: Datum, action: Datum, controller: Datum, options: Options): Rule<Code> {
    Rule(Given(Sym("action")), Built(ActionValue(controller, event, action)), options)
  }

  function ActionsRule(controller: Datum, actions: seq<(Datum, Datum)>, options: Options): Rule<Code> {
    Rule(Given(Sym("action")), Built(ActionsValue(controller, actions)), options)
  }

  function AttributeRule(kind: Kind, name: string, value: Datum, controller: Datum, options: Options): Rule<Code> {
    Rule(Built(AttributeKey(kind, controller, name)), Built(AttributeValue(kind, controller, name, value)), options)
  }

  function TargetRule(name: string, controller: Datum, options: Options): Rule<Code> {
    Rule(Built(TargetKey(controller, name)), Built(TargetValue(controller, name)), options)
  }

  /** The rules a plural declaration registers: one per entry of its hash, in
      the hash's order, each with the shared controller and `if:`/`unless:`. */
  function BatchRules(kind: Kind, entries: seq<(string, Datum)>, controller: Datum, options: Options): (rules: seq<Rule<Code>>)
    ensures |rules| == |entries|
    ensures forall i :: 0 <= i < |entries| ==>
      rules[i] == AttributeRule(kind, entries[i].0, entries[i].1, controller, options)
    decreases |entries|
  {
    if entries == [] then []
    else
      var init := entries[..|entries| - 1];
      var (name, value) := entries[|entries| - 1];
      BatchRules(kind, init, controller, options) + [AttributeRule(kind, name, value, controller, options)]
  }

  // ---------------------------------------------------------------------------
  // The declarations: each prepends its rule to the class's chain

  /** `has_stimulus_controller(name = controller_name, **options)`; `name` is
      `None` when the argument is omitted. */
  method HasStimulusController(klass: ComponentClass<Code>, name: Option<Datum>, options: Options)
    modifies klass
    ensures klass.chain == old(klass.chain) + [ControllerRule<Code>(
      if name.Some? then name.value else Str(klass.controllerName), options)]
  {
    var value := if name.Some? then name.value else Str(klass.controllerName);
    klass.Prepend(ControllerRule<Code>(value, options));
  }

  /** `has_stimulus_action(event, action, controller: nil, **options)`. */
  method HasStimulusAction(klass: ComponentClass<Code>, event: Datum, action: Datum, controller: Datum, options: Options)
    modifies klass
    ensures klass.chain == old(klass.chain) + [ActionRule(event, action, controller, options)]
  {
    klass.Prepend(ActionRule(event, action, controller, options));
  }

  /** `has_stimulus_actions(**options)`: ONE rule for all the actions, its
      controller fixed now from `controller:` or the class's controller name. */
  method HasStimulusActions(klass: ComponentClass<Code>, actions: seq<(Datum, Datum)>, controller: Datum, options: Options)
    modifies klass
    ensures klass.chain == old(klass.chain) + [ActionsRule(
      if Truthy(controller) then controller else Str(klass.controllerName), actions, options)]
  {
    var c := if Truthy(controller) then controller else Str(klass.controllerName);
    klass.Prepend(ActionsRule(c, actions, options));
  }

  /** `has_stimulus_class(name, value, controller: nil, **options)`. */
  method HasStimulusClass(klass: ComponentClass<Code>, name: string, value: Datum, controller: Datum, options: Options)
    modifies klass
    ensures klass.chain == old(klass.chain) + [AttributeRule(ClassKind, name, value, controller, options)]
  {
    klass.Prepend(AttributeRule(ClassKind, name, value, controller, options));
  }

  /** `has_stimulus_outlet(name, value, controller: nil, **options)`. */
  method HasStimulusOutlet(klass: ComponentClass<Code>, name: string, value: Datum, controller: Datum, options: Options)
    modifies klass
    ensures klass.chain == old(klass.chain) + [AttributeRule(OutletKind, name, value, controller, options)]
  {
    klass.Prepend(AttributeRule(OutletKind, name, value, controller, options));
  }

  /** `has_stimulus_param(name, value, controller: nil, **options)`. */
  method HasStimulusParam(klass: ComponentClass<Code>, name: string, value: Datum, controller: Datum, options: Options)
    modifies klass
    ensures klass.chain == old(klass.chain) + [AttributeRule(ParamKind, name, value, controller, options)]
  {
    klass.Prepend(AttributeRule(ParamKind, name, value, controller, options));
  }

  /** `has_stimulus_value(name, value = nil, controller: nil, **options)`. */
  method HasStimulusValue(klass: ComponentClass<Code>, name: string, value: Datum, controller: Datum, options: Options)
    modifies klass
    ensures klass.chain == old(klass.chain) + [AttributeRule(ValueKind, name, value, controller, options)]
  {
    klass.Prepend(AttributeRule(ValueKind, name, value, controller, options));
  }

  /** `has_stimulus_target(name, controller: nil, **options)`. */
  method HasStimulusTarget(klass: ComponentClass<Code>, name: string, controller: Datum, options: Options)
    modifies klass
    ensures klass.chain == old(klass.chain) + [TargetRule(name, controller, options)]
  {
    klass.Prepend(TargetRule(name, controller, options));
  }

  /** The `each` loop of `has_stimulus_classes`, `_outlets`, `_params` and
      `_values`: the singular declaration of `kind` once per entry. */
  method HasStimulusBatch(klass: ComponentClass<Code>, kind: Kind, entries: seq<(string, Datum)>, controller: Datum, options: Options)
    modifies klass
    ensures klass.chain == old(klass.chain) + BatchRules(kind, entries, controller, options)
  {
    for i := 0 to |entries|
      invariant klass.chain == old(klass.chain) + BatchRules(kind, entries[..i], controller, options)
    {
      var (name, value) := entries[i];
      klass.Prepend(AttributeRule(kind, name, value, controller, options));
      assert entries[..i + 1][..i] == entries[..i];
    }
    assert entries[..|entries|] == entries;
  }

  // ---------------------------------------------------------------------------
  // Properties

  /** What an unguarded `has_stimulus_class`, `_outlet`, `_param` or `_value`
      link contributes, value form by value form: a Proc is run once and its
      answer used; a class turns anything else into its `to_s` with no call, so
      a Symbol gives its own name; an outlet, param or value sends a Symbol to
      the instance; a value with nil sends its own name; an outlet or param
      with nil, and any string or boolean, is used as it is with no call. */
  lemma AttributeRuleContributes(kind: Kind, name: string, value: Datum, controller: Datum,
                                 inst: Instance, naming: Naming, base: Data, t: Trace)
    ensures value.Lambda? ==>
      Link(AttributeRule(kind, name, value, controller, Options(None, None)), GemEnv(inst, naming, base), t) ==
      AttributeStep(kind, name, controller, inst, naming, t, Some(RunProc(value.id)), Nil)
    ensures kind == ClassKind && !value.Lambda? ==>
      Link(AttributeRule(kind, name, value, controller, Options(None, None)), GemEnv(inst, naming, base), t) ==
      AttributeStep(kind, name, controller, inst, naming, t, None, Str(ToS(value)))
    ensures kind == ClassKind && value.Sym? ==>
      Link(AttributeRule(kind, name, value, controller, Options(None, None)), GemEnv(inst, naming, base), t) ==
      AttributeStep(kind, name, controller, inst, naming, t, None, Str(value.name))
    ensures kind != ClassKind && value.Sym? ==>
      Link(AttributeRule(kind, name, value, controller, Options(None, None)), GemEnv(inst, naming, base), t) ==
      AttributeStep(kind, name, controller, inst, naming, t, Some(Send(value.name)), Nil)
    ensures kind == ValueKind && value == Nil ==>
      Link(AttributeRule(kind, name, value, controller, Options(None, None)), GemEnv(inst, naming, base), t) ==
      AttributeStep(kind, name, controller, inst, naming, t, Some(Send(name)), Nil)
    ensures (kind == OutletKind || kind == ParamKind) && value == Nil ==>
      Link(AttributeRule(kind, name, value, controller, Options(None, None)), GemEnv(inst, naming, base), t) ==
      AttributeStep(kind, name, controller, inst, naming, t, None, Nil)
    ensures kind != ClassKind && (value.Str? || value.Bool?) ==>
      Link(AttributeRule(kind, name, value, controller, Options(None, None)), GemEnv(inst, naming, base), t) ==
      AttributeStep(kind, name, controller, inst, naming, t, None, value)
  {
    if value.Lambda? {
      AttributeLink(kind, name, value, controller, inst, naming, base, t, Some(RunProc(value.id)), Nil);
    } else if kind == ClassKind {
      AttributeLink(kind, name, value, controller, inst, naming, base, t, None, Str(ToS(value)));
    } else if value.Sym? {
      AttributeLink(kind, name, value, controller, inst, naming, base, t, Some(Send(value.name)), Nil);
    } else if value == Nil && kind == ValueKind {
      AttributeLink(kind, name, value, controller, inst, naming, base, t, Some(Send(name)), Nil);
    } else {
      AttributeLink(kind, name, value, controller, inst, naming, base, t, None, value);
    }
  }

  /** An unguarded attribute link is the step its value resolution gives,
      once the value closure's own resolution is known to make the one call
      `call` or to use `literal`. */
  lemma AttributeLink(kind: Kind, name: string, value: Datum, controller: Datum, inst: Instance, naming: Naming,
                      base: Data, t: Trace, call: Option<Call>, literal: Datum)
    requires var tk := ControllerOf(controller, inst, t).1;
      Argument(kind, name, value, inst, tk) == if call.Some? then Invoke(inst, tk, call.value) else (literal, tk)
    ensures Link(AttributeRule(kind, name, value, controller, Options(None, None)), GemEnv(inst, naming, base), t) ==
      AttributeStep(kind, name, controller, inst, naming, t, call, literal)
  {
  }

  /** An unguarded `has_stimulus_target` link contributes the target helper's
      key and value, each for the declared controller or else the instance's
      `controller_name`, and calls nothing else. */
  lemma TargetRuleContributes(name: string, controller: Datum, inst: Instance, naming: Naming, base: Data, t: Trace)
    ensures Link(TargetRule(name, controller, Options(None, None)), GemEnv(inst, naming, base), t) ==
      TargetStep(name, controller, inst, naming, t)
  {
  }

  /** An unguarded outlet, param or value given as a Symbol, anywhere in the
      chain, whose key no other applied link writes: on a host hash with
      nothing non-blank under that key, `dom_data` holds exactly the helper's
      value for the instance's answer there (the `sym_*` entries of
      test/has_stimulus_attrs_test.rb). */
  lemma SymbolAttributeInDomData(kind: Kind, name: string, sym: string, controller: Datum, chain: seq<Rule<Code>>, n: nat,
                                 inst: Instance, naming: Naming, base: Data, t: Trace)
    requires kind != ClassKind
    requires n < |chain| && chain[n] == AttributeRule(kind, name, Sym(sym), controller, Options(None, None))
    requires var tn := TraceBefore(chain, GemEnv(inst, naming, base), t, n);
      var k := AttributeStep(kind, name, controller, inst, naming, tn, Some(Send(sym)), Nil).key;
      var cs := Contributions(chain, GemEnv(inst, naming, base), t).0;
      forall j, j' :: 0 <= j < |cs| && 0 <= j' < |cs| && cs[j].0 == k && cs[j'].0 == k ==> j == j'
    ensures var env := GemEnv(inst, naming, base);
      var s := AttributeStep(kind, name, controller, inst, naming, TraceBefore(chain, env, t, n), Some(Send(sym)), Nil);
      var data := Run(chain, env, t).0;
      && s.key in data
      && (Blank(Lookup(base, s.key)) ==> data[s.key] == Str(if Blank(s.value) then "" else ToS(s.value)))
  {
    var env := GemEnv(inst, naming, base);
    var tn := TraceBefore(chain, env, t, n);
    AttributeRuleContributes(kind, name, Sym(sym), controller, inst, naming, base, tn);
    SoleContributionExact(chain, env, t, n);
    var s := AttributeStep(kind, name, controller, inst, naming, tn, Some(Send(sym)), Nil);
    MergeCases(Lookup(base, s.key), s.value);
  }

  /** Every closure the declarations build only appends to the instance's
      history, so `RunExtends` and `LastLinkEvaluatedFirst` apply to this
      module's components. */
  lemma GemEnvExtends(inst: Instance, naming: Naming, base: Data)
    ensures ExtendsTrace(GemEnv(inst, naming, base))
  {
  }

  /** An unguarded `has_stimulus_action` contributes to `:action` the helper's
      descriptor for (controller, event, action), the controller being the
      declared one or else the instance's `controller_name`. */
  lemma ActionRuleContributes(event: Datum, action: Datum, controller: Datum, inst: Instance, naming: Naming, base: Data, t: Trace)
    ensures var s := Link(ActionRule(event, action, controller, Options(None, None)), GemEnv(inst, naming, base), t);
      var c := if Truthy(controller) then controller else inst.answer(t, Send("controller_name"));
      && s.Applied?
      && s.key == Sym("action")
      && s.value == naming.action(c, event, action)
      && s.after == (if Truthy(controller) then t else t + [Send("controller_name")])
  {
  }

  /** An unguarded `has_stimulus_actions` contributes to `:action` the
      helper's descriptor for the controller fixed at declaration, and makes no
      call on the instance: unlike `has_stimulus_action`, it never asks for
      `controller_name` when evaluated. */
  lemma ActionsRuleContributes(controller: Datum, actions: seq<(Datum, Datum)>, inst: Instance, naming: Naming, base: Data, t: Trace)
    ensures Link(ActionsRule(controller, actions, Options(None, None)), GemEnv(inst, naming, base), t) ==
      Applied(Sym("action"), naming.actions(controller, actions), t)
  {
  }

  /** The component of test/performance_test.rb: a controller, a controller
      guarded by `if: :should_include_conditional?`, an action, an expensive
      value, and the same expensive value behind the same guard. */
  function PerformanceChain(): seq<Rule<Code>> {
    var guarded := Options(Some(Sym("should_include_conditional?")), None);
    var plain := Options(None, None);
    [ ControllerRule<Code>(Str("performance-test"), plain),
      ControllerRule<Code>(Str("conditional"), guarded),
      ActionRule(Str("click"), Str("handleClick"), Nil, plain),
      AttributeRule(ValueKind, "expensive", Lambda("expensive_computation"), Nil, plain),
      AttributeRule(ValueKind, "conditional_expensive", Lambda("expensive_computation"), Nil, guarded) ]
  }

  /** A false `if:` guard stops its link before the value's Proc runs: each
      evaluation of the chain, whatever was called before it, adds one
      expensive computation when the condition is false and two when it is
      true. */
  lemma ConditionalEarlyExit(inst: Instance, naming: Naming, base: Data, condition: bool, t0: Trace)
    requires forall t :: inst.answer(t, Send("should_include_conditional?")) == Bool(condition)
    ensures var calls := Run(PerformanceChain(), GemEnv(inst, naming, base), t0).1;
      multiset(calls)[RunProc("expensive_computation")] ==
        multiset(t0)[RunProc("expensive_computation")] + if condition then 2 else 1
  {
    var ts := PerformanceTraces(t0, condition);
    PerformanceLinks(inst, naming, base, condition, t0);
    RunCalls(PerformanceChain(), GemEnv(inst, naming, base), ts);
    ExpensiveCount(t0, Send("should_include_conditional?"), Send("controller_name"), RunProc("expensive_computation"), condition);
  }

  /** The traces before each link of the performance component, top link
      first, and after the bottom one. */
  function PerformanceTraces(t0: Trace, condition: bool): seq<Trace> {
    var guard := Send("should_include_conditional?");
    var cn := Send("controller_name");
    var expensive := RunProc("expensive_computation");
    var t5 := t0 + if condition then [guard, cn, expensive, cn] else [guard];
    var t4 := t5 + [cn, expensive, cn];
    var t3 := t4 + [cn];
    var t2 := t3 + [guard];
    [t0, t5, t4, t3, t2, t2]
  }

  /** Each link of the performance component, last declared first, takes the
      trace from one entry of `PerformanceTraces` to the next. */
  lemma PerformanceLinks(inst: Instance, naming: Naming, base: Data, condition: bool, t0: Trace)
    requires forall t :: inst.answer(t, Send("should_include_conditional?")) == Bool(condition)
    ensures var chain, ts := PerformanceChain(), PerformanceTraces(t0, condition);
      forall i :: 0 <= i < 5 ==> Link(chain[4 - i], GemEnv(inst, naming, base), ts[i]).after == ts[i + 1]
  {
    var chain, ts := PerformanceChain(), PerformanceTraces(t0, condition);
    forall i | 0 <= i < 5
      ensures Link(chain[4 - i], GemEnv(inst, naming, base), ts[i]).after == ts[i + 1]
    {
      if i == 0 {
        GuardedLinkCalls(chain[4], inst, naming, base, t0, condition);
        ExpensiveValueCalls("conditional_expensive", inst, naming, base, t0 + [Send("should_include_conditional?")]);
      } else if i == 1 {
        ExpensiveValueCalls("expensive", inst, naming, base, ts[1]);
      } else if i == 2 {
        UnnamedActionCalls(Str("click"), Str("handleClick"), inst, naming, base, ts[2]);
      } else if i == 3 {
        GuardedLinkCalls(chain[1], inst, naming, base, ts[3], condition);
        FixedControllerCalls(Str("conditional"), inst, naming, base, ts[4]);
      } else {
        FixedControllerCalls(Str("performance-test"), inst, naming, base, ts[4]);
      }
    }
  }

  /** An unguarded action with no declared controller asks for
      `controller_name` once. */
  lemma UnnamedActionCalls(event: Datum, action: Datum, inst: Instance, naming: Naming, base: Data, t: Trace)
    ensures Link(ActionRule(event, action, Nil, Options(None, None)), GemEnv(inst, naming, base), t).after ==
      t + [Send("controller_name")]
  {
  }

  /** An unguarded controller with a fixed name makes no call. */
  lemma FixedControllerCalls(name: Datum, inst: Instance, naming: Naming, base: Data, t: Trace)
    requires !name.Lambda?
    ensures Link(ControllerRule<Code>(name, Options(None, None)), GemEnv(inst, naming, base), t).after == t
  {
  }

  /** How often the expensive call occurs in the performance component's trace,
      with `e` standing for the expensive call. */
  lemma ExpensiveCount(t0: Trace, guard: Call, cn: Call, e: Call, condition: bool)
    requires guard != e && cn != e
    ensures var t5 := t0 + if condition then [guard, cn, e, cn] else [guard];
      multiset(t5 + [cn, e, cn] + [cn] + [guard])[e] == multiset(t0)[e] + if condition then 2 else 1
  {
  }

  /** A link guarded by `if: :should_include_conditional?` asks the guard once;
      a false answer skips it, a true one lets it run as if unguarded. */
  lemma GuardedLinkCalls(r: Rule<Code>, inst: Instance, naming: Naming, base: Data, t: Trace, condition: bool)
    requires r.options == Options(Some(Sym("should_include_conditional?")), None)
    requires forall u :: inst.answer(u, Send("should_include_conditional?")) == Bool(condition)
    ensures var env := GemEnv(inst, naming, base);
      var t1 := t + [Send("should_include_conditional?")];
      Link(r, env, t) == if condition then Link(r.(options := Options(None, None)), env, t1) else Skipped(t1)
  {
  }

  /** An unguarded value whose Proc is the expensive computation, with no
      declared controller: `controller_name` for the key, then the Proc and
      `controller_name` again for the value. */
  lemma ExpensiveValueCalls(name: string, inst: Instance, naming: Naming, base: Data, t: Trace)
    ensures var r := AttributeRule(ValueKind, name, Lambda("expensive_computation"), Nil, Options(None, None));
      Link(r, GemEnv(inst, naming, base), t).after ==
        t + [Send("controller_name"), RunProc("expensive_computation"), Send("controller_name")]
  {
  }
}
