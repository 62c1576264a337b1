/** The memoised `dom_data` and `reset_dom_data_cache!` that
    test/performance_test.rb expects of a component: the first access evaluates
    the whole chain and keeps the hash, later accesses return the kept hash
    without calling anything on the instance, and a reset makes the next access
    evaluate again. Neither library file defines this cache; it is stated here
    as the tests describe it, on top of the uncached evaluation. */
module DomDataCache {
  import opened StimulusChain

  class MemoizedComponent<C> {
    const component: Component<C>
    var cache: Option<Data>
    /** The instance's calls just before the evaluation whose hash is kept. */
    ghost var computedAt: Trace

    /** A kept hash is the one a full evaluation of the chain produced. */
    ghost predicate Valid()
      reads this, component, component.klass
    {
      cache.Some? ==> cache.value == Run(component.klass.chain, component.env, computedAt).0
    }

    constructor (component: Component<C>)
      ensures this.component == component && cache == None
      ensures Valid()
    {
      this.component := component;
      cache := None;
      computedAt := [];
    }

    /** `dom_data`: the kept hash when there is one, with no call on the
        instance; otherwise a full evaluation, which is then kept. */
    method DomData() returns (data: Data)
      requires Valid()
      modifies this, component
      ensures Valid()
      ensures cache == Some(data)
      ensures old(cache).Some? ==> data == old(cache).value && component.trace == old(component.trace)
      ensures old(cache).None? ==>
        (data, component.trace) == Run(component.klass.chain, component.env, old(component.trace))
    {
      if cache.Some? {
        return cache.value;
      }
      computedAt := component.trace;
      data := component.DomData();
      cache := Some(data);
    }

    /** `reset_dom_data_cache!`: drop the kept hash; the chain is untouched. */
    method ResetDomDataCache()
      modifies this
      ensures cache == None
      ensures Valid()
    {
      cache := None;
    }
  }
}
