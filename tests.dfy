/** What every test descriptor shares: its declared fields, the keyword bag
    that `render` fills in, and the call into the template engine. */
module Tests {

  /** A value a caller can put in the keyword bag handed to a template. */
  datatype KwValue = Str(s: string) | Int(i: int) | Bool(b: bool) | Strs(items: seq<string>) | Null

  /** The keyword arguments (`**kwargs`) of `render`. */
  type Bag = map<string, KwValue>

  /** The call `self._render(template, **kwargs)`. Template expansion is not
      modelled: the rendered fragment is identified with the template name and
      the bag the template receives, so two renders agree exactly when these do. */
  datatype TemplateCall = TemplateCall(template: string, bag: Bag)

  /** The class attributes of a test: its registry name, the device names or
      patterns it declares, its timeout, and whether it needs the
      test-definition bundle. An instance of a test is the same record with the
      instance's effective timeout. */
  datatype TestDesc = TestDesc(name: string, devices: seq<string>, timeout: nat, needTestDefinition: bool)

  /** `after` is `before` with every key of `updates` assigned its value in
      `updates` (overwriting what the caller supplied) and every other key of
      `before` left as it was; no other key appears. */
  predicate Overrides(before: Bag, updates: Bag, after: Bag) {
    && after.Keys == before.Keys + updates.Keys
    && (forall k :: k in updates ==> after[k] == updates[k])
    && (forall k :: k in before && k !in updates ==> after[k] == before[k])
  }

  /** The update is a function of its inputs: two results of the same update agree. */
  lemma OverridesUnique(before: Bag, updates: Bag, a1: Bag, a2: Bag)
    requires Overrides(before, updates, a1) && Overrides(before, updates, a2)
    ensures a1 == a2
  {
    forall k | k in a1
      ensures a1[k] == a2[k]
    {
      if k !in updates {
        assert k in before;
      }
    }
  }

  /** Applying the same update to its own result changes nothing. */
  lemma OverridesIdempotent(before: Bag, updates: Bag, after: Bag)
    requires Overrides(before, updates, after)
    ensures Overrides(after, updates, after)
  {
  }
}
