/** The rule chain behind `dom_data`, as both `prepend___has_stimulus___method`
    implementations build it (lib/has_stimulus_attrs.rb and the
    Modulor::Component variant have the same body).

    Every `has_stimulus_*` declaration prepends one module whose `dom_data`
    resolves a guard, then a key and a value, calls `super()` and merges its
    value into the hash `super()` returned. The prepended modules form a chain
    ending in the host's own `dom_data`; here the chain is the class's
    `seq<Rule<C>>` in declaration order and `super()` is recursion on the prefix.

    `C` is the type of the closures a source file's declarations build for keys
    and values; each file supplies how to run one (`Env.exec`). */
module StimulusChain {
  import opened RubyValues

  datatype Option<T> = None | Some(value: T)

  /** One thing the chain asks of the component instance: run a Proc the
      author wrote (`instance_exec`), call one of its methods (`send`), or call a
      method of its `styles` object. */
  datatype Call = RunProc(id: string) | Send(name: string) | StylesSend(name: string)

  /** The calls made on the instance so far, oldest first. */
  type Trace = seq<Call>

  /** The component instance: what it answers to a call may depend on every call
      made before (a counter such as `expensive_call_count`, say). */
  datatype Instance = Instance(answer: (Trace, Call) -> Datum)

  /** Make one call on the instance. */
  function Invoke(inst: Instance, t: Trace, c: Call): (Datum, Trace) {
    (inst.answer(t, c), t + [c])
  }

  /** The hash `dom_data` returns; Ruby keys `:controller` and `"controller"`
      are different keys, as `Sym` and `Str` are. */
  type Data = map<Datum, Datum>

  /** `data[k]`: nil when `k` is missing. */
  function Lookup(data: Data, k: Datum): Datum {
    if k in data then data[k] else Nil
  }

  /** A key or value as a declaration registered it: a closure the declaration
      built, or a value the author gave (a `Lambda` among them). */
  datatype Spec<C> = Built(code: C) | Given(d: Datum)

  /** The `if:` and `unless:` entries of a declaration's options hash; `None`
      when the key is absent, `Some(Nil)` when it is present with value nil. */
  datatype Options = Options(ifOpt: Option<Datum>, unlessOpt: Option<Datum>)

  /** One registered link of the chain. */
  datatype Rule<C> = Rule(key: Spec<C>, value: Spec<C>, options: Options)

  /** What evaluating a chain needs besides the rules: the instance, how to run
      the closures of type `C`, and the hash the host's own `dom_data` returns. */
  datatype Env<!C> = Env(inst: Instance, exec: (C, Trace) -> (Datum, Trace), base: Data)

  // ---------------------------------------------------------------------------
  // Guards

  /** `options[:if] || options[:unless]`. */
  function Cond(o: Options): (cond: Datum)
    ensures o.ifOpt.Some? && Truthy(o.ifOpt.value) ==> cond == o.ifOpt.value
    ensures (o.ifOpt.None? || !Truthy(o.ifOpt.value)) ==>
      cond == if o.unlessOpt.Some? then o.unlessOpt.value else Nil
    ensures (o.ifOpt.None? || !Truthy(o.ifOpt.value)) && o.unlessOpt.None? ==> !Truthy(cond)
  {
    var ifValue := if o.ifOpt.Some? then o.ifOpt.value else Nil;
    if Truthy(ifValue) then ifValue
    else if o.unlessOpt.Some? then o.unlessOpt.value else Nil
  }

  /** The calls resolving a guard makes: a Proc is run, a Symbol or String is
      sent, anything else yields nil and calls nothing. */
  function GuardCalls(cond: Datum): (calls: seq<Call>)
    ensures |calls| <= 1
    ensures cond.Lambda? || cond.Sym? || cond.Str? <==> |calls| == 1
  {
    match cond
    case Lambda(id) => [RunProc(id)]
    case Sym(name) => [Send(name)]
    case Str(name) => [Send(name)]
    case _ => []
  }

  /** `cond_value`: the guard's result. */
  function GuardValue(cond: Datum, inst: Instance, t: Trace): (out: (Datum, Trace))
    ensures out.1 == t + GuardCalls(cond)
    ensures GuardCalls(cond) == [] ==> out.0 == Nil
  {
    match cond
    case Lambda(id) => Invoke(inst, t, RunProc(id))
    case Sym(name) => Invoke(inst, t, Send(name))
    case Str(name) => Invoke(inst, t, Send(name))
    case _ => (Nil, t)
  }

  /** The two early returns of a link: `return super() unless cond_value` when
      `:if` is a key, `return super() if cond_value` when `:unless` is. */
  predicate Skips(o: Options, cond: Datum, condValue: Datum) {
    || (Truthy(cond) && o.ifOpt.Some? && !Truthy(condValue))
    || (Truthy(cond) && o.unlessOpt.Some? && Truthy(condValue))
  }

  // ---------------------------------------------------------------------------
  // Keys, values and the merge

  /** `case spec when Proc then instance_exec(&spec) else spec`. */
  function Resolve<C>(s: Spec<C>, env: Env<C>, t: Trace): (Datum, Trace) {
    match s
    case Built(c) => env.exec(c, t)
    case Given(Lambda(id)) => Invoke(env.inst, t, RunProc(id))
    case Given(d) => (d, t)
  }

  /** `[prev, v].reject(&:blank?).uniq.join(" ")`. */
  function Merge(prev: Datum, v: Datum): string {
    Join(Uniq(RejectBlank([prev, v])), " ")
  }

  /** `data[k] = [data[k], v].reject(&:blank?).uniq.join(" ")` on the hash
      `super()` returned: `k` is present afterwards and no other entry moves. */
  function Store(data: Data, k: Datum, v: Datum): (r: Data)
    ensures r.Keys == data.Keys + {k}
    ensures r[k] == Str(Merge(Lookup(data, k), v))
    ensures forall k' :: k' in data && k' != k ==> r[k'] == data[k']
  {
    data[k := Str(Merge(Lookup(data, k), v))]
  }

  /** What one link does before it calls `super()`. */
  datatype Step = Skipped(after: Trace) | Applied(key: Datum, value: Datum, after: Trace)

  /** One link up to its call of `super()`: the guard, then (unless it skips) the
      key, then the value. */
  function Link<C>(r: Rule<C>, env: Env<C>, t: Trace): Step {
    var cond := Cond(r.options);
    var (condValue, t1) := GuardValue(cond, env.inst, t);
    if Skips(r.options, cond, condValue) then Skipped(t1)
    else
      var (k, t2) := Resolve(r.key, env, t1);
      var (v, t3) := Resolve(r.value, env, t2);
      Applied(k, v, t3)
  }

  /** `dom_data` through the whole chain: the last-declared link runs first and
      calls `super()`, that is the chain without it; the host's hash is at the
      bottom. Returns the hash and the calls made on the instance. */
  function Run<C>(chain: seq<Rule<C>>, env: Env<C>, t: Trace): (out: (Data, Trace))
    ensures env.base.Keys <= out.0.Keys
    decreases |chain|
  {
    if chain == [] then (env.base, t)
    else
      var below := chain[..|chain| - 1];
      match Link(chain[|chain| - 1], env, t)
      case Skipped(t1) => Run(below, env, t1)
      case Applied(k, v, t1) =>
        var (data, t2) := Run(below, env, t1);
        (Store(data, k, v), t2)
  }

  // ---------------------------------------------------------------------------
  // A reference definition: the applied contributions in declaration order,
  // folded over the host's hash.

  /** The (key, value) pairs of the links that apply, in declaration order,
      found by evaluating the chain as `dom_data` does (last link first). */
  function Contributions<C>(chain: seq<Rule<C>>, env: Env<C>, t: Trace): (out: (seq<(Datum, Datum)>, Trace))
    ensures |out.0| <= |chain|
    decreases |chain|
  {
    if chain == [] then ([], t)
    else
      var below := chain[..|chain| - 1];
      match Link(chain[|chain| - 1], env, t)
      case Skipped(t1) => Contributions(below, env, t1)
      case Applied(k, v, t1) =>
        var (cs, t2) := Contributions(below, env, t1);
        (cs + [(k, v)], t2)
  }

  /** The keys the contributions write. */
  function Keys(cs: seq<(Datum, Datum)>): (ks: set<Datum>)
    ensures forall i :: 0 <= i < |cs| ==> cs[i].0 in ks
    decreases |cs|
  {
    if cs == [] then {} else Keys(cs[..|cs| - 1]) + {cs[|cs| - 1].0}
  }

  /** Merge the contributions into `base` one after the other. */
  function Fold(base: Data, cs: seq<(Datum, Datum)>): Data
    decreases |cs|
  {
    if cs == [] then base
    else Store(Fold(base, cs[..|cs| - 1]), cs[|cs| - 1].0, cs[|cs| - 1].1)
  }

  /** Every contributed key ends up present and holding a string; no other key
      is added or changed. */
  lemma {:induction false} FoldFrame(base: Data, cs: seq<(Datum, Datum)>)
    ensures Fold(base, cs).Keys == base.Keys + Keys(cs)
    ensures forall k :: k in Keys(cs) ==> Fold(base, cs)[k].Str?
    ensures forall k :: k in base && k !in Keys(cs) ==> Fold(base, cs)[k] == base[k]
    decreases |cs|
  {
    if cs != [] {
      FoldFrame(base, cs[..|cs| - 1]);
    }
  }

  // ---------------------------------------------------------------------------
  // The merge

  /** The merge, case by case: blank values are dropped, a value equal to the
      WHOLE accumulated value is dropped, and what remains is joined by one space.
      A blank value leaves a non-blank prev value alone; with both blank the key
      still gets the empty string. */
  lemma MergeCases(prev: Datum, v: Datum)
    ensures Blank(prev) && Blank(v) ==> Merge(prev, v) == ""
    ensures Blank(prev) && !Blank(v) ==> Merge(prev, v) == ToS(v)
    ensures !Blank(prev) && Blank(v) ==> Merge(prev, v) == ToS(prev)
    ensures !Blank(prev) && !Blank(v) && prev == v ==> Merge(prev, v) == ToS(prev)
    ensures !Blank(prev) && !Blank(v) && prev != v ==> Merge(prev, v) == ToS(prev) + " " + ToS(v)
  {
    RejectPair(prev, v);
    UniqSingle(prev);
    UniqSingle(v);
    if !Blank(prev) && !Blank(v) {
      UniqPair(prev, v);
      if prev != v {
        assert Join([prev, v], " ") == ToS(prev) + " " + Join([v], " ");
      }
    }
  }

  /** `[a, b].reject(&:blank?)`. */
  lemma RejectPair(a: Datum, b: Datum)
    ensures RejectBlank([a, b]) == (if Blank(a) then [] else [a]) + (if Blank(b) then [] else [b])
  {
    assert [a, b][1..] == [b];
    assert [b][1..] == [];
  }

  /** `[a, b].uniq`. */
  lemma UniqPair(a: Datum, b: Datum)
    ensures Uniq([a, b]) == if a == b then [a] else [a, b]
  {
    assert [a, b][..1] == [a];
    UniqSingle(a);
  }

  /** A single value is kept by `uniq` and printed by `join`. */
  lemma UniqSingle(d: Datum)
    ensures Uniq([d]) == [d] && Join([d], " ") == ToS(d)
  {
    assert [d][..0] == [];
  }

  /** Merging the same string twice in a row changes nothing when the key's
      accumulated value was blank or already equal to that string. */
  lemma MergeRepeatFirst(prev: Datum, s: string)
    requires Blank(prev) || prev == Str(s)
    ensures Merge(Str(Merge(prev, Str(s))), Str(s)) == Merge(prev, Str(s))
  {
    MergeCases(prev, Str(s));
    MergeCases(Str(Merge(prev, Str(s))), Str(s));
  }

  /** Deduplication is not per token: each value is compared with the WHOLE
      accumulated string, so "a", "b", "a" gives "a b a" (and in general x, y, x
      gives "x y x" for distinct non-blank strings). */
  lemma RepeatAfterOtherIsKept(k: Datum, x: string, y: string)
    requires x != y && !BlankString(x) && !BlankString(y)
    ensures Fold(map[], [(k, Str(x)), (k, Str(y)), (k, Str(x))])[k] == Str(x + " " + y + " " + x)
  {
    ThreeMerges(k, Str(x), Str(y), Str(x));
    MergeThird(x, y, x);
  }

  /** A value repeated right after a different one is kept twice: "b", "a",
      "a" gives "b a a", because "a" is compared with "b a". */
  lemma RepeatAfterOtherNotIdempotent(k: Datum, x: string, y: string)
    requires x != y && !BlankString(x) && !BlankString(y)
    ensures Fold(map[], [(k, Str(x)), (k, Str(y)), (k, Str(y))])[k] == Str(x + " " + y + " " + y)
  {
    ThreeMerges(k, Str(x), Str(y), Str(y));
    MergeThird(x, y, y);
  }

  /** A third non-blank string shorter than "x y" is appended to it. */
  lemma MergeThird(x: string, y: string, z: string)
    requires x != y && !BlankString(x) && !BlankString(y) && !BlankString(z)
    requires |z| <= |x| || |z| <= |y|
    ensures Merge(Str(Merge(Str(Merge(Nil, Str(x))), Str(y))), Str(z)) == x + " " + y + " " + z
  {
    var xy := PairMerge(x, y);
    assert |xy| > |z|;
    MergeCases(Str(xy), Str(z));
  }

  /** The first two of two distinct non-blank strings merged into a missing key. */
  lemma PairMerge(x: string, y: string) returns (xy: string)
    requires x != y && !BlankString(x) && !BlankString(y)
    ensures xy == x + " " + y && !BlankString(xy)
    ensures Merge(Nil, Str(x)) == x && Merge(Str(x), Str(y)) == xy
  {
    MergeCases(Nil, Str(x));
    MergeCases(Str(x), Str(y));
    xy := x + " " + y;
    PrefixNonBlank(x, " " + y);
    assert x + (" " + y) == xy;
  }

  /** A string that begins with a non-blank string is not blank. */
  lemma PrefixNonBlank(x: string, y: string)
    requires !BlankString(x)
    ensures !BlankString(x + y)
  {
    var i :| 0 <= i < |x| && !IsSpace(x[i]);
    assert (x + y)[i] == x[i];
  }

  /** Three contributions to one key folded over an empty hash. */
  lemma ThreeMerges(k: Datum, a: Datum, b: Datum, c: Datum)
    ensures Fold(map[], [(k, a), (k, b), (k, c)])[k]
      == Str(Merge(Str(Merge(Str(Merge(Nil, a)), b)), c))
  {
    var d0: Data := map[];
    var s1 := [] + [(k, a)];
    var s2 := s1 + [(k, b)];
    var s3 := s2 + [(k, c)];
    FoldSnoc(d0, [], (k, a));
    FoldSnoc(d0, s1, (k, b));
    FoldSnoc(d0, s2, (k, c));
    assert s3 == [(k, a), (k, b), (k, c)];
  }

  /** Folding one more contribution merges it into its key. */
  lemma FoldSnoc(base: Data, cs: seq<(Datum, Datum)>, p: (Datum, Datum))
    ensures p.0 in Fold(base, cs + [p])
    ensures Fold(base, cs + [p])[p.0] == Str(Merge(Lookup(Fold(base, cs), p.0), p.1))
  {
    assert (cs + [p])[..|cs|] == cs;
  }


  /** The merged value keeps the prev value as its beginning when the prev value
      is not blank, and ends with the new value when that is not blank. */
  lemma MergeKeepsBoth(prev: Datum, v: Datum)
    ensures !Blank(prev) ==> Includes(Merge(prev, v), ToS(prev))
    ensures !Blank(v) ==> Includes(Merge(prev, v), ToS(v))
  {
    MergeCases(prev, v);
    JoinedPieces(ToS(prev), ToS(v));
    JoinedPieces(ToS(v), ToS(prev));
  }

  /** A string includes itself, and "p q" includes both p and q. */
  lemma JoinedPieces(p: string, q: string)
    ensures Includes(p, p)
    ensures Includes(p + " " + q, p) && Includes(p + " " + q, q)
  {
    assert p[0..|p|] == p;
    assert IncludesAt(p, p, 0);
    assert (p + " " + q)[0..|p|] == p;
    assert IncludesAt(p + " " + q, p, 0);
    assert (p + " " + q)[|p| + 1..|p| + 1 + |q|] == q;
    assert IncludesAt(p + " " + q, q, |p| + 1);
  }

  // ---------------------------------------------------------------------------
  // The chain

  /** Evaluating the chain link by link through `super()` gives the contributions
      of the applied links merged in DECLARATION order, although their guards,
      keys and values are evaluated last link first. */
  lemma {:induction false} RunIsFold<C>(chain: seq<Rule<C>>, env: Env<C>, t: Trace)
    ensures Run(chain, env, t).0 == Fold(env.base, Contributions(chain, env, t).0)
    ensures Run(chain, env, t).1 == Contributions(chain, env, t).1
    decreases |chain|
  {
    if chain != [] {
      var below := chain[..|chain| - 1];
      match Link(chain[|chain| - 1], env, t)
      case Skipped(t1) =>
        RunIsFold(below, env, t1);
      case Applied(k, v, t1) =>
        RunIsFold(below, env, t1);
        var cs := Contributions(below, env, t1).0;
        assert (cs + [(k, v)])[..|cs|] == cs;
    }
  }

  /** A value a contribution brings in survives every later contribution: the
      final value of its key includes it (contributions to one key accumulate,
      they never overwrite). */
  lemma {:induction false} FoldKeeps(base: Data, cs: seq<(Datum, Datum)>, i: nat)
    requires i < |cs|
    requires !Blank(cs[i].1) && !BlankString(ToS(cs[i].1))
    ensures cs[i].0 in Fold(base, cs)
    ensures Includes(ToS(Fold(base, cs)[cs[i].0]), ToS(cs[i].1))
    decreases |cs|
  {
    var init := cs[..|cs| - 1];
    var d := Fold(base, init);
    var (k, v) := cs[|cs| - 1];
    if i == |cs| - 1 {
      MergeKeepsBoth(Lookup(d, k), v);
    } else {
      assert init[i] == cs[i];
      FoldKeeps(base, init, i);
      FoldFrame(base, init);
      var ki := cs[i].0;
      if ki == k {
        var prev := d[ki];
        assert prev.Str?;
        IncludedNonBlank(ToS(prev), ToS(cs[i].1));
        MergeKeepsBoth(prev, v);
        IncludesWithin(Merge(prev, v), ToS(prev), ToS(cs[i].1));
      }
    }
  }

  /** What a piece of a piece of `t` is a piece of `t`. */
  lemma IncludesWithin(t: string, u: string, s: string)
    requires Includes(t, u) && Includes(u, s)
    ensures Includes(t, s)
  {
    var j :| IncludesAt(t, u, j);
    var i :| IncludesAt(u, s, i);
    forall m | 0 <= m < |s|
      ensures t[j + i..j + i + |s|][m] == s[m]
    {
      assert u[i..i + |s|][m] == s[m];
      assert t[j..j + |u|][i + m] == u[i + m];
    }
    assert IncludesAt(t, s, j + i);
  }

  /** A key none of the contributions writes is not among their keys. */
  lemma {:induction false} KeysNotIn(cs: seq<(Datum, Datum)>, k: Datum)
    requires forall j :: 0 <= j < |cs| ==> cs[j].0 != k
    ensures k !in Keys(cs)
    decreases |cs|
  {
    if cs != [] {
      KeysNotIn(cs[..|cs| - 1], k);
    }
  }

  /** A contribution whose key no other contribution writes leaves exactly its
      own merge into the host's value for that key. */
  lemma {:induction false} FoldSole(base: Data, cs: seq<(Datum, Datum)>, i: nat)
    requires i < |cs|
    requires forall j :: 0 <= j < |cs| && j != i ==> cs[j].0 != cs[i].0
    ensures cs[i].0 in Fold(base, cs)
    ensures Fold(base, cs)[cs[i].0] == Str(Merge(Lookup(base, cs[i].0), cs[i].1))
    decreases |cs|
  {
    var init := cs[..|cs| - 1];
    if i == |cs| - 1 {
      KeysNotIn(init, cs[i].0);
      FoldFrame(base, init);
      assert Lookup(Fold(base, init), cs[i].0) == Lookup(base, cs[i].0);
    } else {
      FoldSole(base, init, i);
    }
  }

  /** The trace with which `dom_data` reaches the link `chain[n]`: the calls of
      every link declared after it come first. */
  function TraceBefore<C>(chain: seq<Rule<C>>, env: Env<C>, t: Trace, n: nat): Trace
    requires n < |chain|
    decreases |chain|
  {
    if n == |chain| - 1 then t
    else TraceBefore(chain[..|chain| - 1], env, Link(chain[|chain| - 1], env, t).after, n)
  }

  /** An applied link, wherever it sits in the chain, is one of the
      contributions. */
  lemma {:induction false} AppliedLinkContributes<C>(chain: seq<Rule<C>>, env: Env<C>, t: Trace, n: nat) returns (j: nat)
    requires n < |chain|
    requires Link(chain[n], env, TraceBefore(chain, env, t, n)).Applied?
    ensures j < |Contributions(chain, env, t).0|
    ensures var s := Link(chain[n], env, TraceBefore(chain, env, t, n));
      Contributions(chain, env, t).0[j] == (s.key, s.value)
    decreases |chain|
  {
    var below := chain[..|chain| - 1];
    var s0 := Link(chain[|chain| - 1], env, t);
    if n == |chain| - 1 {
      j := |Contributions(below, env, s0.after).0|;
    } else {
      assert below[n] == chain[n];
      j := AppliedLinkContributes(below, env, s0.after, n);
    }
  }

  /** When no other applied link writes its key, an applied link's value is
      merged exactly once into the host's value for that key: on a host hash
      without the key (or with a blank value there), a non-blank value is the
      entry's whole text. */
  lemma SoleContributionExact<C>(chain: seq<Rule<C>>, env: Env<C>, t: Trace, n: nat)
    requires n < |chain|
    requires Link(chain[n], env, TraceBefore(chain, env, t, n)).Applied?
    requires var k := Link(chain[n], env, TraceBefore(chain, env, t, n)).key;
      var cs := Contributions(chain, env, t).0;
      forall j, j' :: 0 <= j < |cs| && 0 <= j' < |cs| && cs[j].0 == k && cs[j'].0 == k ==> j == j'
    ensures var s := Link(chain[n], env, TraceBefore(chain, env, t, n));
      && s.key in Run(chain, env, t).0
      && Run(chain, env, t).0[s.key] == Str(Merge(Lookup(env.base, s.key), s.value))
  {
    var j := AppliedLinkContributes(chain, env, t, n);
    var cs := Contributions(chain, env, t).0;
    RunIsFold(chain, env, t);
    FoldSole(env.base, cs, j);
  }

  /** Every non-blank value of an applied link ends up in `dom_data` under its
      key. */
  lemma ContributionSurvives<C>(chain: seq<Rule<C>>, env: Env<C>, t: Trace, i: nat)
    requires i < |Contributions(chain, env, t).0|
    requires var v := Contributions(chain, env, t).0[i].1; !Blank(v) && !BlankString(ToS(v))
    ensures var (k, v) := Contributions(chain, env, t).0[i];
      k in Run(chain, env, t).0 && Includes(ToS(Run(chain, env, t).0[k]), ToS(v))
  {
    RunIsFold(chain, env, t);
    FoldKeeps(env.base, Contributions(chain, env, t).0, i);
  }

  /** The calls a chain makes are those of its links, top link first: when
      `ts[i]` is the trace before the i-th link from the top, the run ends with
      the trace after the bottom link. */
  lemma {:induction false} RunCalls<C>(chain: seq<Rule<C>>, env: Env<C>, ts: seq<Trace>)
    requires |ts| == |chain| + 1
    requires forall i :: 0 <= i < |chain| ==> Link(chain[|chain| - 1 - i], env, ts[i]).after == ts[i + 1]
    ensures Run(chain, env, ts[0]).1 == ts[|chain|]
    decreases |chain|
  {
    if chain != [] {
      var below := chain[..|chain| - 1];
      assert Link(chain[|chain| - 1], env, ts[0]).after == ts[1];
      forall i | 0 <= i < |below|
        ensures Link(below[|below| - 1 - i], env, ts[1..][i]).after == ts[1..][i + 1]
      {
        assert below[|below| - 1 - i] == chain[|chain| - 1 - (i + 1)];
      }
      RunCalls(below, env, ts[1..]);
    }
  }

  /** A link whose guard says skip returns `super()` untouched: the result is
      that of the chain below it, evaluated after the guard's one call at most;
      the link's key and value are never evaluated. */
  lemma SkippedLinkIsTransparent<C>(chain: seq<Rule<C>>, r: Rule<C>, env: Env<C>, t: Trace)
    requires Link(r, env, t).Skipped?
    ensures Run(chain + [r], env, t) == Run(chain, env, t + GuardCalls(Cond(r.options)))
  {
    assert (chain + [r])[..|chain|] == chain;
  }

  /** A link that applies writes its own key and nothing else: every other entry
      of the hash `super()` returned is kept, and its key is present afterwards
      even when both the prev and the new value are blank. */
  lemma AppliedLinkWritesOnlyItsKey<C>(chain: seq<Rule<C>>, r: Rule<C>, env: Env<C>, t: Trace)
    requires Link(r, env, t).Applied?
    ensures var s := Link(r, env, t);
      var below := Run(chain, env, s.after).0;
      var data := Run(chain + [r], env, t).0;
      && data.Keys == below.Keys + {s.key}
      && data[s.key] == Str(Merge(Lookup(below, s.key), s.value))
      && (forall k :: k in below && k != s.key ==> data[k] == below[k])
  {
    assert (chain + [r])[..|chain|] == chain;
  }

  /** What an applied top link leaves in `dom_data`: its key is present; a
      non-blank value is contained in the key's final text; and when the hash
      `super()` returned held nothing non-blank under that key, the key holds
      exactly the value's text. */
  lemma TopLinkContributes<C>(chain: seq<Rule<C>>, r: Rule<C>, env: Env<C>, t: Trace)
    requires Link(r, env, t).Applied?
    ensures var s := Link(r, env, t);
      var below := Run(chain, env, s.after).0;
      var data := Run(chain + [r], env, t).0;
      && s.key in data
      && (!Blank(s.value) ==> Includes(ToS(data[s.key]), ToS(s.value)))
      && (Blank(Lookup(below, s.key)) ==> data[s.key] == Str(if Blank(s.value) then "" else ToS(s.value)))
  {
    var s := Link(r, env, t);
    AppliedLinkWritesOnlyItsKey(chain, r, env, t);
    MergeKeepsBoth(Lookup(Run(chain, env, s.after).0, s.key), s.value);
    MergeCases(Lookup(Run(chain, env, s.after).0, s.key), s.value);
  }

  /** A closure runner that only appends calls to the instance's history. */
  ghost predicate ExtendsTrace<C(!new)>(env: Env<C>) {
    forall c, t :: t <= env.exec(c, t).1
  }

  /** Evaluating the chain only appends to the instance's history. */
  lemma {:induction false} RunExtends<C(!new)>(chain: seq<Rule<C>>, env: Env<C>, t: Trace)
    requires ExtendsTrace(env)
    ensures t <= Run(chain, env, t).1
    decreases |chain|
  {
    if chain != [] {
      var below := chain[..|chain| - 1];
      var r := chain[|chain| - 1];
      var cond := Cond(r.options);
      var (cv, t1) := GuardValue(cond, env.inst, t);
      if !Skips(r.options, cond, cv) {
        var (k, t2) := Resolve(r.key, env, t1);
        var (v, t3) := Resolve(r.value, env, t2);
        assert t <= t1 <= t2 <= t3;
        RunExtends(below, env, t3);
      } else {
        RunExtends(below, env, t1);
      }
    }
  }

  /** The last-declared link is evaluated first: everything its guard, key and
      value ask of the instance happens before any call made by the links below
      it. */
  lemma LastLinkEvaluatedFirst<C(!new)>(chain: seq<Rule<C>>, r: Rule<C>, env: Env<C>, t: Trace)
    requires ExtendsTrace(env)
    ensures Link(r, env, t).after <= Run(chain + [r], env, t).1
  {
    assert (chain + [r])[..|chain|] == chain;
    RunExtends(chain, env, Link(r, env, t).after);
  }

  // ---------------------------------------------------------------------------
  // Guard decisions

  /** True for the guard values that are called (a Proc, a Symbol, a String). */
  predicate Callable(d: Datum) {
    d.Lambda? || d.Sym? || d.Str?
  }

  /** A link without `if:` and `unless:` always applies and calls nothing for its
      guard. */
  lemma UnguardedApplies<C>(r: Rule<C>, env: Env<C>, t: Trace)
    requires r.options == Options(None, None)
    ensures Link(r, env, t).Applied?
    ensures GuardCalls(Cond(r.options)) == []
  {
  }

  /** `if:` alone with a Proc, Symbol or String: the link is skipped exactly when
      the guard's result is falsy. */
  lemma IfGuardDecides<C>(r: Rule<C>, env: Env<C>, t: Trace)
    requires r.options.ifOpt.Some? && Callable(r.options.ifOpt.value) && r.options.unlessOpt.None?
    ensures Link(r, env, t).Skipped? <==> !Truthy(GuardValue(r.options.ifOpt.value, env.inst, t).0)
  {
  }

  /** `unless:` alone with a Proc, Symbol or String: the link is skipped exactly
      when the guard's result is truthy. */
  lemma UnlessGuardDecides<C>(r: Rule<C>, env: Env<C>, t: Trace)
    requires r.options.unlessOpt.Some? && Callable(r.options.unlessOpt.value) && r.options.ifOpt.None?
    ensures Link(r, env, t).Skipped? <==> Truthy(GuardValue(r.options.unlessOpt.value, env.inst, t).0)
  {
  }

  /** A literal `if: true` is not called, so `cond_value` is nil and the link is
      always skipped, without any call. */
  lemma LiteralIfTrueSkips<C>(r: Rule<C>, env: Env<C>, t: Trace)
    requires r.options.ifOpt == Some(Bool(true))
    ensures Link(r, env, t) == Skipped(t)
  {
  }

  /** The mirror of a literal `if: true`: a literal `unless: true` with no `if:`
      is never called, so `cond_value` stays nil and the link always applies. */
  lemma LiteralUnlessTrueApplies<C>(r: Rule<C>, env: Env<C>, t: Trace)
    requires r.options == Options(None, Some(Bool(true)))
    ensures Link(r, env, t).Applied?
    ensures GuardCalls(Cond(r.options)) == []
  {
  }

  /** A falsy `if:` (false or nil) with no `unless:` leaves `cond` falsy, so the
      link always applies. */
  lemma FalsyIfApplies<C>(r: Rule<C>, env: Env<C>, t: Trace)
    requires r.options.ifOpt.Some? && !Truthy(r.options.ifOpt.value) && r.options.unlessOpt.None?
    ensures Link(r, env, t).Applied?
  {
  }

  /** With both `if:` and `unless:` keys present, only one guard is resolved and
      both checks use its result, so whenever that guard is truthy the link is
      skipped whatever the guard returns. */
  lemma IfAndUnlessTogetherSkip<C>(r: Rule<C>, env: Env<C>, t: Trace)
    requires r.options.ifOpt.Some? && r.options.unlessOpt.Some?
    requires Truthy(Cond(r.options))
    ensures Link(r, env, t).Skipped?
  {
  }

  // ---------------------------------------------------------------------------
  // The class and its instances

  /** A component class: its controller name and the links its `has_stimulus_*`
      declarations have prepended so far, oldest first. */
  class ComponentClass<C> {
    const controllerName: string
    var chain: seq<Rule<C>>

    constructor (controllerName: string)
      ensures this.controllerName == controllerName && chain == []
    {
      this.controllerName := controllerName;
      chain := [];
    }

    /** `prepend___has_stimulus___method`: one more link on top of the chain. */
    method Prepend(r: Rule<C>)
      modifies this
      ensures chain == old(chain) + [r]
    {
      chain := chain + [r];
    }
  }

  /** An instance of a component class: the calls made on it so far are its
      state. */
  class Component<C> {
    const klass: ComponentClass<C>
    const env: Env<C>
    var trace: Trace

    constructor (klass: ComponentClass<C>, env: Env<C>)
      ensures this.klass == klass && this.env == env && trace == []
    {
      this.klass := klass;
      this.env := env;
      trace := [];
    }

    /** `dom_data`: the hash of the whole chain. */
    method DomData() returns (data: Data)
      modifies this
      ensures (data, trace) == Run(klass.chain, env, old(trace))
    {
      data := DomDataOf(klass.chain);
    }

    /** The `dom_data` of the top link of `chain`: resolve its guard, its key and
        its value, call `super()` (the chain below it), and write into the hash
        that returns. */
    method DomDataOf(chain: seq<Rule<C>>) returns (data: Data)
      modifies this
      ensures (data, trace) == Run(chain, env, old(trace))
      decreases |chain|
    {
      if chain == [] {
        return env.base;
      }
      ghost var t0 := trace;
      var r := chain[|chain| - 1];
      var cond := Cond(r.options);
      var (condValue, t1) := GuardValue(cond, env.inst, trace);
      trace := t1;
      if Skips(r.options, cond, condValue) {
        assert Link(r, env, t0) == Skipped(t1);
        data := DomDataOf(chain[..|chain| - 1]);
        return;
      }
      var (k, t2) := Resolve(r.key, env, trace);
      trace := t2;
      var (v, t3) := Resolve(r.value, env, trace);
      trace := t3;
      assert Link(r, env, t0) == Applied(k, v, t3);
      data := DomDataOf(chain[..|chain| - 1]);
      data := Store(data, k, v);
    }
  }
}
