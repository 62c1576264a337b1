# has_stimulus_attrs — a Dafny model of the `dom_data` rule chain

`has_stimulus_attrs` lets a Ruby component class declare Stimulus data
attributes. The declarations are `has_stimulus_controller`, `_action`,
`_actions`, `_class`, `_outlet`, `_param`, `_target`, `_value` and the plural
batch forms. Each declaration prepends a module whose `dom_data` does three
things:

- it resolves an `if:`/`unless:` guard;
- it resolves a key and a value, which may be closures run on the instance;
- it calls `super()` and merges its value into the hash `super()` returned.

The merge is `[data[k], v].reject(&:blank?).uniq.join(" ")`. `Modulor::Component`
carries a near-copy of the same mixin (`HasStimulusHelperMethods`).

The model has six modules:

| module | file | what it holds |
|---|---|---|
| `RubyValues` | `ruby_values.dfy` | the Ruby values the chain handles (`nil`, booleans, strings, symbols, procs), truthiness, ActiveSupport's `blank?`, `to_s`, and `reject(&:blank?)`, `uniq`, `join` |
| `StimulusChain` | `stimulus_chain.dfy` | the engine both files share (`prepend___has_stimulus___method`) |
| `StimulusHelpers` | `stimulus_helpers.dfy` | the pieces both declaration sets share |
| `HasStimulusAttrs` | `has_stimulus_attrs.dfy` | the gem's declarations |
| `HasStimulusHelperMethods` | `has_stimulus_helper_methods.dfy` | the Modulor variant |
| `DomDataCache` | `dom_data_cache.dfy` | the memoised `dom_data` and `reset_dom_data_cache!` |

How `StimulusChain` models the engine:

- The class's chain is a `seq<Rule<C>>` in declaration order. `ComponentClass.Prepend` appends to it.
- A call to `super()` is evaluation of the prefix below a link.
- The instance is modelled by the answers it gives to calls: running a proc, `send`, or `styles.send`. Those answers may depend on every earlier call.
- The list of calls made so far (`Trace`) is the instance's state. Counting how often a computation ran means counting in the trace.
- `Run` is the super-chain as the code runs it: last declared link first.
- `Fold` over `Contributions` is a reference definition that merges the applied contributions in declaration order. `RunIsFold` proves the two agree.

`StimulusHelpers` holds the `stimulus_*` naming helpers, which are passed in as functions, plus the `controller || controller_name` fallback and the `:controller` rule.

Each declaration module builds its own closure type `Code`, the function
(`Exec`) that runs it against an instance, the rules its declarations
register, and the declarations as methods on a `ComponentClass<Code>`.

`DomDataCache` models the memoised `dom_data` and `reset_dom_data_cache!` as
test/performance_test.rb describes them. Neither library file contains this
cache.

The model follows the code, including these behaviours of it:

- **Dedup is not per word.** The new value is compared with the whole
  accumulated string, not with the words already in it. So "a", "b", "a" gives
  "a b a", not "a b" (`RepeatAfterOtherIsKept`).
- **Repeating a value is not always idempotent.** Merging the same string
  twice in a row changes nothing when the key's accumulated value is blank or
  already equals that string (`MergeRepeatFirst`); so "a", "b", "a b", "a b"
  gives "a b". A blank value leaves a non-blank string already under the key
  as it is; on a missing or blank entry it still writes "" (`MergeCases`,
  `AppliedLinkWritesOnlyItsKey`). Otherwise the repeat is appended: "x", "y", "y" gives "x y y" (`RepeatAfterOtherNotIdempotent`).
- **Evaluation order is the reverse of declaration order.** Guards, keys and
  values are evaluated last declared first, because each link resolves them
  before calling `super()`. Only the merges happen in declaration order
  (`RunIsFold`, `LastLinkEvaluatedFirst`).
- **A literal `if: true` always skips.** The guard is not a Proc, Symbol or
  String, so `cond_value` stays nil (`LiteralIfTrueSkips`).
- **A literal `unless: true` always applies.** For the same reason
  `cond_value` stays nil, so `return super() if cond_value` never fires
  (`LiteralUnlessTrueApplies`).
- **A falsy `if:` always applies.** With no `unless:`, a falsy `if:` leaves
  `cond` falsy (`FalsyIfApplies`).
- **Both `if:` and `unless:` share one guard.** Only the first truthy option is
  resolved, and both checks use its result. When that option is truthy the
  link is always skipped (`IfAndUnlessTogetherSkip`).

## Model

| member | source | states |
|---|---|---|
| RubyValues.RejectBlank | lib/has_stimulus_attrs.rb:158 | `reject(&:blank?)` keeps the non-blank elements and only those (as a set of members) and never grows the list; the order it keeps is stated for the two-element list the merge uses by `RejectPair` |
| RubyValues.Uniq | lib/has_stimulus_attrs.rb:158 | `uniq` keeps every element of its input and no other, without repeats, and never grows the list; the order it keeps is stated for the two-element list the merge uses by `UniqPair` |
| RubyValues.Join | lib/has_stimulus_attrs.rb:158 | `join(" ")`; specified through `MergeCases` and `UniqSingle`: one element gives its `to_s`, two give their `to_s` with one space between |
| StimulusChain.Cond | lib/has_stimulus_attrs.rb:133 | the guard is `options[:if]` when that is truthy; otherwise it is `options[:unless]`, or nil when that key is absent, so with neither truthy `if:` nor `unless:` key the guard is falsy |
| StimulusChain.GuardCalls | lib/has_stimulus_attrs.rb:134-137 | resolving a guard makes one call exactly when the guard is a Proc, Symbol or String, otherwise none |
| StimulusChain.GuardValue | lib/has_stimulus_attrs.rb:134-137 | `cond_value` adds exactly the guard's calls to the instance's history, and is nil when no call is made |
| StimulusChain.Skips | lib/has_stimulus_attrs.rb:139-145 | the two early returns; specified by `IfGuardDecides`, `UnlessGuardDecides`, `LiteralIfTrueSkips`, `LiteralUnlessTrueApplies`, `FalsyIfApplies` and `IfAndUnlessTogetherSkip` |
| StimulusChain.Resolve | lib/has_stimulus_attrs.rb:147-155 | a Proc key or value is run on the instance, anything else is used as it is; specified per declaration by `ControllerRuleContributes`, `ActionRuleContributes`, `ActionsRuleContributes`, `AttributeRuleContributes` and `TargetRuleContributes` |
| StimulusChain.Merge | lib/has_stimulus_attrs.rb:158 | `[data[k], v].reject(&:blank?).uniq.join(" ")`; specified case by case by `MergeCases` and `MergeKeepsBoth` |
| StimulusChain.Link | lib/has_stimulus_attrs.rb:133-155 | one link up to its `super()` call: guard, then key, then value; specified by the guard lemmas and by `RunIsFold`, `RunCalls` and `LastLinkEvaluatedFirst` |
| StimulusChain.Store | lib/has_stimulus_attrs.rb:157-159 | after the merge the key is present and holds the merged string; every other entry of `super()`'s hash is unchanged and no other key appears |
| StimulusChain.Run | lib/has_stimulus_attrs.rb:129-163 | the full chain never loses a key of the host's own `dom_data` |
| StimulusChain.Contributions | lib/has_stimulus_attrs.rb:139-155 | there is at most one contribution per link |
| StimulusChain.FoldFrame | lib/has_stimulus_attrs.rb:157-159 | merging the contributions adds exactly their keys, each contributed key holds a string, and the other keys of the host's hash are unchanged |
| StimulusChain.MergeCases | lib/has_stimulus_attrs.rb:158 | the merge case by case: both blank gives ""; a blank side leaves the other side's text; equal values give one copy; otherwise "prev v" |
| StimulusChain.MergeRepeatFirst | lib/has_stimulus_attrs.rb:158 | merging the same string twice in a row is idempotent when the prev value was blank or already that string |
| StimulusChain.RepeatAfterOtherIsKept | lib/has_stimulus_attrs.rb:158 | contributions x, y, x to one key give "x y x": dedup compares with the whole accumulated string |
| StimulusChain.RepeatAfterOtherNotIdempotent | lib/has_stimulus_attrs.rb:158 | contributions x, y, y to one key give "x y y" |
| StimulusChain.MergeKeepsBoth | lib/has_stimulus_attrs.rb:158 | the merged string contains the non-blank prev value and the non-blank new value |
| StimulusChain.RunIsFold | lib/has_stimulus_attrs.rb:129-163 | evaluating the chain through `super()` equals merging the applied links' contributions in declaration order, with the same calls on the instance |
| StimulusChain.FoldKeeps | lib/has_stimulus_attrs.rb:157-158 | a non-blank contribution is still contained in its key's final value after every later contribution |
| StimulusChain.FoldSole | lib/has_stimulus_attrs.rb:157-158 | a contribution whose key no other contribution writes leaves exactly its merge with the host's value for that key |
| StimulusChain.TraceBefore | lib/has_stimulus_attrs.rb:132-157 | the calls made before `dom_data` reaches a link are those of the links declared after it |
| StimulusChain.AppliedLinkContributes | lib/has_stimulus_attrs.rb:139-158 | an applied link anywhere in the chain, evaluated with the calls before it, is one of the contributions |
| StimulusChain.SoleContributionExact | lib/has_stimulus_attrs.rb:157-158 | an applied link anywhere in the chain whose key no other applied link writes leaves in `dom_data` exactly its value merged with the host's value for that key |
| StimulusChain.ContributionSurvives | lib/has_stimulus_attrs.rb:157-158 | every non-blank value of an applied link appears in `dom_data` under its key: contributions accumulate, they never overwrite |
| StimulusChain.RunCalls | lib/has_stimulus_attrs.rb:129-163 | the calls of the whole chain are those of its links, top link first |
| StimulusChain.SkippedLinkIsTransparent | lib/has_stimulus_attrs.rb:139-145 | a link that skips returns `super()` unchanged; only its guard was called, never its key or value |
| StimulusChain.AppliedLinkWritesOnlyItsKey | lib/has_stimulus_attrs.rb:157-159 | an applied link writes its own key, even when both values are blank, and keeps every other entry of `super()`'s hash |
| StimulusChain.TopLinkContributes | lib/has_stimulus_attrs.rb:157-159 | the last-declared applied link's key is in `dom_data`, a non-blank value is contained in its text, and when `super()`'s hash held nothing non-blank under the key the entry is exactly the value's text |
| StimulusChain.RunExtends | lib/has_stimulus_attrs.rb:129-163 | evaluating the chain only adds calls to the instance's history |
| StimulusChain.LastLinkEvaluatedFirst | lib/has_stimulus_attrs.rb:147-157 | all calls of the last-declared link happen before any call of the links below it |
| StimulusChain.UnguardedApplies | lib/has_stimulus_attrs.rb:133-145 | a link without `if:`/`unless:` always applies and calls nothing for its guard |
| StimulusChain.IfGuardDecides | lib/has_stimulus_attrs.rb:139-141 | with a callable `if:` alone, the link is skipped if and only if the guard's result is falsy |
| StimulusChain.UnlessGuardDecides | lib/has_stimulus_attrs.rb:143-145 | with a callable `unless:` alone, the link is skipped if and only if the guard's result is truthy |
| StimulusChain.LiteralIfTrueSkips | lib/has_stimulus_attrs.rb:133-141 | a literal `if: true` is never called and the link is always skipped, with no call |
| StimulusChain.LiteralUnlessTrueApplies | lib/has_stimulus_attrs.rb:133-145 | a literal `unless: true` with no `if:` is never called and the link always applies |
| StimulusChain.FalsyIfApplies | lib/has_stimulus_attrs.rb:133-141 | a falsy `if:` with no `unless:` never skips the link |
| StimulusChain.IfAndUnlessTogetherSkip | lib/has_stimulus_attrs.rb:133-145 | with both keys present, a truthy first guard always skips the link |
| StimulusChain.ComponentClass.constructor | lib/has_stimulus_attrs.rb:7-9 | a class that includes the mixin starts with an empty chain |
| StimulusChain.ComponentClass.Prepend | lib/has_stimulus_attrs.rb:129-131 | a declaration puts exactly one new link on top of the chain and keeps the others |
| StimulusChain.Component.constructor | test/performance_test.rb:11-14 | a new instance has made no calls yet (its counter of expensive computations starts at 0) |
| StimulusChain.Component.DomData | lib/has_stimulus_attrs.rb:132-160 | `dom_data` returns the hash and leaves the call history that `Run` specifies for the whole chain |
| StimulusChain.Component.DomDataOf | lib/has_stimulus_attrs.rb:132-160 | one prepended `dom_data` (guard, key, value, `super()`, merge) returns the hash and leaves the call history that `Run` specifies for the chain up to it |
| StimulusHelpers.ControllerOf | lib/has_stimulus_attrs.rb:22 | the fallback from the declared controller to `controller_name` inside a closure; specified by `ActionRuleContributes` and `UnnamedActionCalls`: a truthy declared controller is used with no call, otherwise the instance's answer after exactly one `controller_name` call |
| StimulusHelpers.ControllerRuleContributes | lib/has_stimulus_attrs.rb:13-18 | an unguarded controller declaration applies to `:controller` with its fixed name, or with its Proc's answer after exactly one call |
| HasStimulusAttrs.BatchRules | lib/has_stimulus_attrs.rb:49-54 | a plural declaration registers one rule per entry, in the hash's order, each with the shared controller and guard |
| HasStimulusAttrs.HasStimulusController | lib/has_stimulus_attrs.rb:13-18 | one `:controller` rule is added; with no argument its value is the class's `controller_name` |
| HasStimulusAttrs.HasStimulusAction | lib/has_stimulus_attrs.rb:20-25 | one `:action` rule is added, its value built from the controller, event and action |
| HasStimulusAttrs.HasStimulusActions | lib/has_stimulus_attrs.rb:27-34 | a single `:action` rule is added for all actions; its controller is fixed at declaration as `controller:` or the class's `controller_name` |
| HasStimulusAttrs.HasStimulusClass | lib/has_stimulus_attrs.rb:36-47 | one class rule is added |
| HasStimulusAttrs.HasStimulusOutlet | lib/has_stimulus_attrs.rb:56-68 | one outlet rule is added |
| HasStimulusAttrs.HasStimulusParam | lib/has_stimulus_attrs.rb:77-89 | one param rule is added |
| HasStimulusAttrs.HasStimulusTarget | lib/has_stimulus_attrs.rb:98-103 | one target rule is added |
| HasStimulusAttrs.HasStimulusValue | lib/has_stimulus_attrs.rb:105-118 | one value rule is added |
| HasStimulusAttrs.HasStimulusBatch | lib/has_stimulus_attrs.rb:120-125 | the `each` loop of the plural declarations adds exactly `BatchRules` of the entries on top of the chain |
| HasStimulusAttrs.AttributeRuleContributes | lib/has_stimulus_attrs.rb:36-118 | an unguarded class, outlet, param or value link applies with the helper's key and value for the declared controller or else `controller_name`, value form by value form: a Proc runs once and its answer is used; a class takes `to_s` of anything else with no call (a Symbol its own name); outlet, param and value send a Symbol; a value with nil sends its own name; outlet or param nil, strings and booleans pass through with no call; the calls are the key's controller, the value's call, then the value's controller |
| HasStimulusAttrs.TargetRuleContributes | lib/has_stimulus_attrs.rb:98-103 | an unguarded target link applies with the target helper's key and value for the declared controller or else `controller_name`, resolved once for each and with no other call |
| HasStimulusAttrs.Argument | lib/has_stimulus_attrs.rb:39-113 | the `v = case value` of the class, outlet, param and value closures; specified value form by value form by `AttributeRuleContributes` and against the variant by `ClassDiffersFromGem` |
| HasStimulusAttrs.Exec | lib/has_stimulus_attrs.rb:20-115 | `instance_exec` of the closures the declarations build; specified by `ActionRuleContributes`, `ActionsRuleContributes`, `AttributeRuleContributes`, `TargetRuleContributes` and `GemEnvExtends` |
| HasStimulusAttrs.PerformanceChain | test/performance_test.rb:21-25 | the five declarations of the performance component, in order; `ConditionalEarlyExit` states what evaluating them calls |
| HasStimulusAttrs.SymbolAttributeInDomData | test/has_stimulus_attrs_test.rb:109-119 | an unguarded outlet, param or value given as a Symbol, anywhere in the chain, whose key no other applied link writes: on a host hash without that key, `dom_data` holds exactly the helper's value for the instance's answer under the helper's key |
| HasStimulusAttrs.GemEnvExtends | lib/has_stimulus_attrs.rb:20-118 | every closure the declarations build only appends calls to the instance's history |
| HasStimulusAttrs.ActionRuleContributes | lib/has_stimulus_attrs.rb:20-25 | an unguarded action applies to `:action` with the helper's descriptor for the declared controller with no call, or else for the instance's `controller_name` after exactly one call |
| HasStimulusAttrs.ActionsRuleContributes | lib/has_stimulus_attrs.rb:27-34 | an unguarded `has_stimulus_actions` applies to `:action` with the helper's descriptor for the controller fixed at declaration, and makes no call on the instance |
| HasStimulusAttrs.ConditionalEarlyExit | test/performance_test.rb:74-101 | in the performance component a false `if:` stops the link before its Proc: each evaluation runs the expensive computation once when the condition is false and twice when it is true |
| HasStimulusAttrs.GuardedLinkCalls | lib/has_stimulus_attrs.rb:139-141 | an `if: :should_include_conditional?` link calls the guard once, then is skipped or runs as if unguarded |
| HasStimulusAttrs.ExpensiveValueCalls | lib/has_stimulus_attrs.rb:105-118 | an unguarded Proc value without `controller:` asks `controller_name` for its key, then runs its Proc and asks `controller_name` again |
| HasStimulusAttrs.UnnamedActionCalls | lib/has_stimulus_attrs.rb:20-25 | an unguarded action without `controller:` asks `controller_name` once |
| HasStimulusAttrs.FixedControllerCalls | lib/has_stimulus_attrs.rb:13-18 | an unguarded controller with a fixed name makes no call |
| HasStimulusHelperMethods.HasStimulusController | has_stimulus_helper_methods.rb:9-14 | one `:controller` rule is added; with no argument its value is the class's `controller_name` |
| HasStimulusHelperMethods.HasStimulusAction | has_stimulus_helper_methods.rb:16-21 | one `:action` rule is added |
| HasStimulusHelperMethods.HasStimulusClass | has_stimulus_helper_methods.rb:23-36 | one class rule is added |
| HasStimulusHelperMethods.HasStimulusOutlet | has_stimulus_helper_methods.rb:38-50 | one outlet rule is added |
| HasStimulusHelperMethods.HasStimulusParam | has_stimulus_helper_methods.rb:52-64 | one param rule is added |
| HasStimulusHelperMethods.HasStimulusTarget | has_stimulus_helper_methods.rb:66-71 | one target rule is added |
| HasStimulusHelperMethods.HasStimulusValue | has_stimulus_helper_methods.rb:73-86 | one value rule is added |
| HasStimulusHelperMethods.AttributeRuleContributes | has_stimulus_helper_methods.rb:23-86 | an unguarded class, outlet, param or value link applies with the helper's key and value for the declared controller or else `controller_name`: a Proc runs once; a class asks `styles` for a Symbol's name or, when nil, for its own name; outlet, param and value send a Symbol; a value with nil sends its own name; outlet or param nil, strings and booleans pass through with no call and no `to_s` |
| HasStimulusHelperMethods.TargetRuleContributes | has_stimulus_helper_methods.rb:66-71 | an unguarded target link applies with the target helper's key and value for the declared controller or else `controller_name`, with no other call |
| HasStimulusHelperMethods.Argument | has_stimulus_helper_methods.rb:26-31 | the variant's `v = case value`; specified by its `AttributeRuleContributes` and by `ClassDiffersFromGem` |
| HasStimulusHelperMethods.Exec | has_stimulus_helper_methods.rb:16-83 | `instance_exec` of the variant's closures; specified by `ActionArgumentOrder`, `AttributeRuleContributes`, `TargetRuleContributes` and `ModulorEnvExtends` |
| HasStimulusHelperMethods.StylesClassInDomData | has_stimulus_helper_methods_test.rb:67 | an unguarded class declared with no value, anywhere in the chain, whose key no other applied link writes: on a host hash without that key, `dom_data` holds exactly the helper's value for what `styles` answers to the class's own name |
| HasStimulusHelperMethods.ModulorEnvExtends | has_stimulus_helper_methods.rb:16-86 | every closure the declarations build only appends calls to the component's history |
| HasStimulusHelperMethods.ClassDiffersFromGem | has_stimulus_helper_methods.rb:26-31 | the variant resolves outlets, params and values exactly as the gem does; a class Symbol: the gem uses its name with no call, the variant asks `styles`; a class nil: the gem gives "" with no call, the variant asks `styles` for the attribute's name; a class boolean: the gem gives its `to_s`, the variant passes it as it is |
| HasStimulusHelperMethods.ActionArgumentOrder | has_stimulus_helper_methods.rb:16-21 | the variant passes (event, controller, action) to the action helper where the gem passes (controller, event, action), with the same controller fallback and the same calls |
| DomDataCache.MemoizedComponent.constructor | test/performance_test.rb:40-55 | a new component has nothing cached |
| DomDataCache.MemoizedComponent.DomData | test/performance_test.rb:40-55 | a cached hash is returned with no call on the instance; otherwise the whole chain is evaluated once and its hash kept; a kept hash is always the result of a full evaluation |
| DomDataCache.MemoizedComponent.ResetDomDataCache | test/performance_test.rb:57-72 | after a reset nothing is cached, so the next `dom_data` evaluates the chain again |

## Left out

- Ruby exceptions: an instance that does not answer a call (`NoMethodError`) and a closure that raises are not modelled. The instance is assumed to answer every call.
- Values other than `nil`, booleans, strings, symbols and procs (integers, arrays, other objects) are not modelled. Neither is Ruby's exact `Proc#to_s` text; a proc prints as an opaque tag.
- Attribute and action names are plain strings; whether the author wrote them as Symbols or Strings is not distinguished. The key `:controller` and the string `"controller"` are distinguished.
- The text of the `stimulus_*` naming helpers (`click->ctrl#onClick`, `ctrl-name-class` and the like) is not part of this model. The helpers are parameters of the model, so facts that depend on their exact output are stated for any such helpers.
- The keyword-splat details of the plural declarations are not modelled. `has_stimulus_outlets/params/values` pass `controller:` twice, and they pass every entry on as options. Only `if:`, `unless:` and `controller:` of those options ever affect a rule, so `BatchRules` carries just those.
- `HasStimulusAttrs.HasStimulusBatch` models the plural declarations through the one loop they share. The gem has one method per kind (`has_stimulus_classes`, `_outlets`, `_params`, `_values`); here the kind is a parameter.
- Caching of `controller_name` on the instance (test/performance_test.rb:103-131) is not modelled: the instance's answers are a parameter. The benchmark (test/performance_test.rb:133-152) measures time and is not modelled.
- The `Modulor::Component` option DSL (`option :dynamic_value`) and `styles` objects are not modelled. Their answers are the instance's answers to `send` and `styles.send` calls.
- `super()`'s hash is modelled as a value: each link builds a new map from the one below (lib/has_stimulus_attrs.rb:157-159 writes into the hash `super()` returned). A host whose own `dom_data` returns a shared or memoised hash, which Ruby would mutate across evaluations (so "a", "b" to one key would read "a b a b" on a second uncached evaluation), is not captured: the host's hash is the same fresh value on every evaluation.
- Ruby Hash order is not modelled: `dom_data` is a Dafny `map`, so the insertion order of new keys, which Ruby keeps, is not part of the result.
- A default value on the host's hash is not modelled: `data[k]` for a missing key is nil, as for a hash built with `{}`.
- `DomDataCache.MemoizedComponent.DomData` does not state its result after the chain changes once the hash is cached. It requires that the kept hash still matches the chain, which holds while no declaration is added after the first access.
