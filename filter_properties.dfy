/**
 * Properties of the filter's decision (resource/filter.go) proved over the
 * specification predicates that the loops of ResourceFilter are proved
 * against.
 */
module FilterProperties {
  import opened Wrappers
  import opened Registry
  import opened ResourceFilter

  /** A resource of a type that is not configured is never selected. */
  lemma UnconfiguredTypeNeverSelected(f: Filter, rx: Regexp, r: Resource)
    requires r.resType !in f.cfg
    ensures !f.Selected(rx, r)
  {
  }

  /** A type with an empty entry list selects every resource of it, whatever its id, tags or age. */
  lemma EmptyEntryListSelectsAll(f: Filter, rx: Regexp, r: Resource)
    requires r.resType in f.cfg && f.cfg[r.resType] == []
    ensures f.Selected(rx, r)
  {
  }

  /**
   * With a non-empty entry list, a resource is selected iff some single entry
   * has its tag criteria, its id pattern and its creation window all hold.
   */
  lemma SelectedIffSomeEntry(f: Filter, rx: Regexp, r: Resource)
    requires r.resType in f.cfg && f.cfg[r.resType] != []
    ensures f.Selected(rx, r) <==>
      exists i :: 0 <= i < |f.cfg[r.resType]| &&
        f.cfg[r.resType][i].TagsHold(rx, r.tags) &&
        f.cfg[r.resType][i].MatchId(rx, r.id) &&
        f.cfg[r.resType][i].MatchCreated(r.created)
  {
    var es := f.cfg[r.resType];
    if f.Selected(rx, r) {
      var e :| e in es && e.Selects(rx, r);
      var i :| 0 <= i < |es| && es[i] == e;
    }
    if exists i :: 0 <= i < |es| && es[i].Selects(rx, r) {
      var i :| 0 <= i < |es| && es[i].Selects(rx, r);
      assert es[i] in es;
    }
  }

  /** Reordering (or otherwise permuting) the entry lists changes no decision. */
  lemma {:induction false} SelectedIgnoresEntryOrder(f: Filter, g: Filter, rx: Regexp, r: Resource)
    requires f.cfg.Keys == g.cfg.Keys
    requires forall t :: t in f.cfg ==> t in g.cfg && multiset(f.cfg[t]) == multiset(g.cfg[t])
    ensures f.Selected(rx, r) == g.Selected(rx, r)
  {
    if r.resType in f.cfg {
      var es, gs := f.cfg[r.resType], g.cfg[r.resType];
      assert |es| == |multiset(es)| == |multiset(gs)| == |gs|;
      forall e | e in es
        ensures e in gs
      {
        assert e in multiset(es);
      }
      forall e | e in gs
        ensures e in es
      {
        assert e in multiset(gs);
      }
    }
  }

  /** An entry with no id pattern, no (or empty) tag criteria and no window. */
  predicate IsSelectAllEntry(e: ResourceTypeFilter)
  {
    e.id.None? && (e.tags.None? || e.tags == Some(map[])) && e.created.None?
  }

  /** Such an entry selects every resource. */
  lemma SelectAllEntrySelects(e: ResourceTypeFilter, rx: Regexp, r: Resource)
    requires IsSelectAllEntry(e)
    ensures e.Selects(rx, r)
  {
  }

  /**
   * An entry list containing a select-all entry selects every resource of
   * its type, the same decision as an empty list.
   */
  lemma ListWithSelectAllEntry(f: Filter, rx: Regexp, r: Resource, k: int)
    requires r.resType in f.cfg
    requires 0 <= k < |f.cfg[r.resType]| && IsSelectAllEntry(f.cfg[r.resType][k])
    ensures f.Selected(rx, r)
  {
    SelectAllEntrySelects(f.cfg[r.resType][k], rx, r);
  }

  /** Adding an entry to a non-empty list keeps every resource it selected. */
  lemma AppendEntryKeepsSelection(f: Filter, rx: Regexp, r: Resource, e: ResourceTypeFilter)
    requires r.resType in f.cfg && f.cfg[r.resType] != []
    requires f.Selected(rx, r)
    ensures Filter(f.cfg[r.resType := f.cfg[r.resType] + [e]]).Selected(rx, r)
  {
  }

  /**
   * Adding an entry to an EMPTY list can narrow the selection: the empty list
   * selects everything, a list with one id-pattern entry only what matches.
   */
  lemma FirstEntryCanNarrowSelection(rx: Regexp, r: Resource)
    requires !rx.MatchString("^keep-", r.id)
    ensures Filter(map[r.resType := []]).Selected(rx, r)
    ensures !Filter(map[r.resType := [ResourceTypeFilter(Some("^keep-"), None, None)]]).Selected(rx, r)
  {
  }

  /** No tag criteria (absent or empty) always hold. */
  lemma NoTagCriteriaHold(e: ResourceTypeFilter, rx: Regexp, tags: map<string, string>)
    requires e.tags.None? || e.tags == Some(map[])
    ensures e.TagsHold(rx, tags)
  {
  }

  /** A resource without tags fails any non-empty tag criteria. */
  lemma UntaggedFailsTagCriteria(e: ResourceTypeFilter, rx: Regexp)
    requires e.tags.Some? && e.tags.value != map[]
    ensures !e.TagsHold(rx, map[])
  {
  }

  /**
   * Only the configured keys are read: resource tags that agree on the
   * configured keys give the same answer, so extra resource tags are irrelevant.
   */
  lemma TagsHoldReadsConfiguredKeysOnly(
    e: ResourceTypeFilter, rx: Regexp, tags: map<string, string>, other: map<string, string>)
    requires e.tags.Some?
    requires forall k :: k in e.tags.value ==>
      (k in tags <==> k in other) && (k in tags ==> tags[k] == other[k])
    ensures e.TagsHold(rx, tags) == e.TagsHold(rx, other)
  {
  }

  /** Adding tags to a resource never makes it fail tag criteria it met. */
  lemma ExtraTagsKeepMatch(
    e: ResourceTypeFilter, rx: Regexp, tags: map<string, string>, more: map<string, string>)
    requires e.TagsHold(rx, tags)
    requires forall k :: k in tags ==> k in more && more[k] == tags[k]
    ensures e.TagsHold(rx, more)
  {
  }

  /** Tag keys compare exactly: a configured key absent from the tags fails, whatever the other tags. */
  lemma MissingConfiguredKeyFails(
    e: ResourceTypeFilter, rx: Regexp, tags: map<string, string>, key: string)
    requires e.tags.Some? && key in e.tags.value && key !in tags
    ensures !e.TagsHold(rx, tags)
  {
  }

  /**
   * The window's bounds are strict: a creation time equal to either bound
   * fails, and one strictly inside passes.
   */
  lemma CreatedBoundsAreStrict(e: ResourceTypeFilter, after: int, before: int, t: int)
    requires e.created == Some(Created(Some(before), Some(after)))
    ensures !e.MatchCreated(Some(after))
    ensures !e.MatchCreated(Some(before))
    ensures after < t < before ==> e.MatchCreated(Some(t))
  {
  }

  /**
   * A window with neither bound set still demands a creation time: it fails
   * for a resource without one and passes for any resource with one.
   */
  lemma EmptyWindowNeedsCreationTime(e: ResourceTypeFilter, t: int)
    requires e.created == Some(Created(None, None))
    ensures !e.MatchCreated(None)
    ensures e.MatchCreated(Some(t))
  {
  }
}
