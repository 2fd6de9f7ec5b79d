/**
 * The filter of resource/filter.go: a configuration that maps a Terraform
 * resource type to a list of entries, and the decision whether a resource
 * matches it.
 *
 * Within one entry the id pattern, the tag criteria and the creation window
 * must all hold; a resource matches when some entry of its type holds, and
 * every resource of a type whose entry list is empty matches. A type absent
 * from the configuration never matches.
 *
 * The regular expression engine is a parameter (`Regexp`), as is the test
 * of whether a type is supported; times are whole Unix seconds.
 */
module ResourceFilter {
  import opened Wrappers
  import opened Registry

  type TerraformResourceType = string

  /**
   * A regular expression engine: which patterns compile, and which strings a
   * compiled pattern matches.
   */
  datatype Regexp = Regexp(compiles: string -> bool, matches: (string, string) -> bool)
  {
    /** regexp.MatchString: a pattern that does not compile reports no match (and an error). */
    predicate MatchString(pattern: string, s: string)
    {
      compiles(pattern) && matches(pattern, s)
    }
  }

  /** A creation-time window; either bound may be absent. */
  datatype Created = Created(before: Option<int>, after: Option<int>)

  /**
   * One entry of the configuration: an optional id pattern, optional tag
   * criteria (tag key to value pattern) and an optional creation window.
   */
  datatype ResourceTypeFilter = ResourceTypeFilter(
    id: Option<string>,
    tags: Option<map<string, string>>,
    created: Option<Created>)
  {
    /** matchID: the id pattern, when there is one, matches the resource id. */
    function MatchId(rx: Regexp, resourceId: string): (b: bool)
      ensures id.None? ==> b
      ensures id.Some? && !rx.compiles(id.value) ==> !b
      ensures id.Some? && rx.compiles(id.value) ==> (b <==> rx.matches(id.value, resourceId))
    {
      if id.None? then true
      else if rx.MatchString(id.value, resourceId) then true
      else false
    }

    /** Every tag value pattern of this entry compiles (otherwise matchTags exits the process). */
    predicate TagPatternsCompile(rx: Regexp)
    {
      tags.Some? ==> forall k :: k in tags.value ==> rx.compiles(tags.value[k])
    }

    /**
     * The tag criteria hold: every configured key is a tag of the resource
     * whose value matches the key's pattern. Keys compare exactly.
     */
    predicate TagsHold(rx: Regexp, resourceTags: map<string, string>)
    {
      tags.Some? ==>
        forall k :: k in tags.value ==>
          k in resourceTags && rx.MatchString(tags.value[k], resourceTags[k])
    }

    /**
     * matchTags: visits the configured keys in an arbitrary order, as Go's
     * map iteration does, and stops at the first key that fails.
     */
    method MatchTags(rx: Regexp, resourceTags: map<string, string>) returns (b: bool)
      requires TagPatternsCompile(rx)
      ensures b == TagsHold(rx, resourceTags)
    {
      if tags.None? {
        return true;
      }
      var criteria := tags.value;
      var pending := criteria.Keys;
      while pending != {}
        invariant pending <= criteria.Keys
        invariant forall k :: k in criteria && k !in pending ==>
          k in resourceTags && rx.MatchString(criteria[k], resourceTags[k])
        decreases pending
      {
        var key :| key in pending;
        if key in resourceTags {
          if !rx.MatchString(criteria[key], resourceTags[key]) {
            return false;
          }
        } else {
          return false;
        }
        pending := pending - {key};
      }
      return true;
    }

    /**
     * matchCreated: with a window configured, the creation time must be known
     * and lie strictly after `after` and strictly before `before`, each
     * compared only when set.
     */
    function MatchCreated(creationTime: Option<int>): (b: bool)
      ensures created.None? ==> b
      ensures created.Some? && creationTime.None? ==> !b
      ensures created.Some? && creationTime.Some? ==>
        (b <==> (forall a :: created.value.after == Some(a) ==> a < creationTime.value) &&
                (forall z :: created.value.before == Some(z) ==> creationTime.value < z))
    {
      if created.None? then true
      else if creationTime.None? then false
      else
        var t := creationTime.value;
        var createdAfter := if created.value.after.Some? then t > created.value.after.value else true;
        var createdBefore := if created.value.before.Some? then t < created.value.before.value else true;
        createdAfter && createdBefore
    }

    /** The three predicates of an entry together, as `matches` combines them. */
    predicate Selects(rx: Regexp, r: Resource)
    {
      TagsHold(rx, r.tags) && MatchId(rx, r.id) && MatchCreated(r.created)
    }
  }

  /** A configuration: for each resource type, its list of entries. */
  type Config = map<TerraformResourceType, seq<ResourceTypeFilter>>

  /** Why a configuration was rejected. */
  datatype ValidationError = UnsupportedResourceType(resType: TerraformResourceType)

  /** Selects resources according to a configuration. */
  datatype Filter = Filter(cfg: Config)
  {
    /**
     * Whether `r` is selected: its type is configured, and either the type's
     * entry list is empty or some entry selects `r`.
     */
    predicate Selected(rx: Regexp, r: Resource)
    {
      r.resType in cfg &&
      (cfg[r.resType] == [] || exists e :: e in cfg[r.resType] && e.Selects(rx, r))
    }

    /** Every tag pattern in the entries of `resType` compiles. */
    predicate TagPatternsCompileFor(rx: Regexp, resType: TerraformResourceType)
    {
      resType in cfg ==> forall e :: e in cfg[resType] ==> e.TagPatternsCompile(rx)
    }

    /** matches: the entries of the resource's type, searched in list order. */
    method Matches(rx: Regexp, r: Resource) returns (b: bool)
      requires TagPatternsCompileFor(rx, r.resType)
      ensures b == Selected(rx, r)
    {
      if r.resType !in cfg {
        return false;
      }
      var entries := cfg[r.resType];
      if |entries| == 0 {
        return true;
      }
      for i := 0 to |entries|
        invariant forall j :: 0 <= j < i ==> !entries[j].Selects(rx, r)
      {
        var rtf := entries[i];
        var tagsOk := rtf.MatchTags(rx, r.tags);
        if tagsOk && rtf.MatchId(rx, r.id) && rtf.MatchCreated(r.created) {
          assert rtf in entries && rtf.Selects(rx, r);
          return true;
        }
      }
      return false;
    }

    /** Types: every configured type exactly once, in map iteration order. */
    method Types() returns (types: seq<TerraformResourceType>)
      ensures |types| == |cfg|
      ensures forall t :: t in types <==> t in cfg
      ensures forall i, j :: 0 <= i < j < |types| ==> types[i] != types[j]
    {
      types := [];
      var pending := cfg.Keys;
      while pending != {}
        invariant pending <= cfg.Keys
        invariant forall t :: t in types <==> t in cfg && t !in pending
        invariant forall i, j :: 0 <= i < j < |types| ==> types[i] != types[j]
        invariant |types| + |pending| == |cfg.Keys|
        decreases pending
      {
        var t :| t in pending;
        types := types + [t];
        pending := pending - {t};
      }
    }

    /** Every configured type is one that `isSupported` accepts. */
    predicate AllSupported(isSupported: TerraformResourceType -> bool)
    {
      forall t :: t in cfg ==> isSupported(t)
    }

    /**
     * Validate: reports a configured type that `isSupported` rejects, if there
     * is one; which one depends on the iteration order of Types.
     */
    method Validate(isSupported: TerraformResourceType -> bool) returns (err: Option<ValidationError>)
      ensures err.None? <==> AllSupported(isSupported)
      ensures err.Some? ==> err.value.resType in cfg && !isSupported(err.value.resType)
    {
      var types := Types();
      for i := 0 to |types|
        invariant forall j :: 0 <= j < i ==> isSupported(types[j])
      {
        if !isSupported(types[i]) {
          return Some(UnsupportedResourceType(types[i]));
        }
      }
      return None;
    }
  }
}
