/** The common tags every metric carries (CommonTagsManager). Providers are
    consulted in priority order and the first one that supplies a key decides
    its value; the baggage built from the merged map holds the sanitised
    values. A baggage is modelled as the map of its entries. */
module CommonTags {
  import opened Wrappers
  import opened AttributesUtils

  /** The merged tags of the providers, earlier providers taking precedence:
      the last provider's tags, overridden by the merge of all before it. */
  function FirstWins(providers: seq<map<string, string>>): map<string, string>
  {
    if providers == [] then map[]
    else providers[|providers| - 1] + FirstWins(providers[..|providers| - 1])
  }

  /** A key is merged iff some provider supplies it, and it takes the value of
      the first provider that does. */
  lemma {:induction false} FirstWinsPicksFirst(providers: seq<map<string, string>>, k: string)
    ensures k in FirstWins(providers) <==> exists i :: 0 <= i < |providers| && k in providers[i]
    ensures forall i :: 0 <= i < |providers| && k in providers[i] && (forall j :: 0 <= j < i ==> k !in providers[j]) ==>
      FirstWins(providers)[k] == providers[i][k]
    decreases |providers|
  {
    if providers != [] {
      var n := |providers| - 1;
      var prefix := providers[..n];
      FirstWinsPicksFirst(prefix, k);
      assert forall i :: 0 <= i < n ==> prefix[i] == providers[i];
      if k in FirstWins(providers) && k !in providers[n] {
        var i :| 0 <= i < n && k in prefix[i];
        assert k in providers[i];
      }
    }
  }

  /** Every value passed through `createAttributeValue`. */
  function Sanitized(tags: map<string, string>): (r: map<string, string>)
    ensures r.Keys == tags.Keys
    ensures forall k :: k in r ==> ValidAttributeValue(r[k]) && (r[k] == tags[k] <==> ValidAttributeValue(tags[k]))
    ensures forall k :: k in r && !ValidAttributeValue(tags[k]) ==> r[k] == Invalid
  {
    map k | k in tags :: AttributeValue(tags[k])
  }

  /** The merge loop of `update`: each provider's tags are added with
      `putIfAbsent`, in provider order. */
  method MergeProviders(providers: seq<map<string, string>>) returns (merged: map<string, string>)
    ensures merged == FirstWins(providers)
  {
    merged := map[];
    for i := 0 to |providers|
      invariant merged == FirstWins(providers[..i])
    {
      var provider := providers[i];
      ghost var before := merged;
      var remaining := provider.Keys;
      while remaining != {}
        invariant remaining <= provider.Keys
        invariant merged == (map k | k in provider && k !in remaining :: provider[k]) + before
        decreases remaining
      {
        var k :| k in remaining;
        if k !in merged {
          merged := merged[k := provider[k]];
        }
        remaining := remaining - {k};
      }
      assert (map k | k in provider && k !in remaining :: provider[k]) == provider;
      assert providers[..i + 1][..i] == providers[..i];
    }
    assert providers[..|providers|] == providers;
  }

  /** The second loop of `update`: each merged key listed once, and its value
      put into the baggage through `createAttributeValue`. */
  method KeysAndBaggage(merged: map<string, string>, limiter: WarningLimiter, now: int)
    returns (keys: seq<string>, baggage: map<string, string>)
    requires limiter.Valid()
    modifies limiter
    ensures limiter.Valid()
    ensures Distinct(keys) && (forall k :: k in keys <==> k in merged)
    ensures baggage == Sanitized(merged)
  {
    keys, baggage := [], map[];
    var remaining := merged.Keys;
    while remaining != {}
      invariant remaining <= merged.Keys
      invariant limiter.Valid()
      invariant Distinct(keys)
      invariant forall k :: k in keys <==> k in merged && k !in remaining
      invariant baggage == map k | k in merged && k !in remaining :: AttributeValue(merged[k])
      decreases remaining
    {
      var k :| k in remaining;
      var value, _ := limiter.CreateAttributeValue(k, merged[k], now);
      assert baggage[k := value] ==
        map j | j in merged && j !in remaining - {k} :: AttributeValue(merged[j]);
      keys := keys + [k];
      baggage := baggage[k := value];
      remaining := remaining - {k};
    }
  }

  /** Each tag put over `base` through `createAttributeValue`, later puts
      overwriting what is there. */
  method PutSanitized(base: map<string, string>, tags: map<string, string>, limiter: WarningLimiter, now: int)
    returns (r: map<string, string>)
    requires limiter.Valid()
    modifies limiter
    ensures limiter.Valid()
    ensures r == base + Sanitized(tags)
  {
    r := base;
    var remaining := tags.Keys;
    while remaining != {}
      invariant remaining <= tags.Keys
      invariant limiter.Valid()
      invariant r == base + map k | k in tags && k !in remaining :: AttributeValue(tags[k])
      decreases remaining
    {
      var key :| key in remaining;
      var value, _ := limiter.CreateAttributeValue(key, tags[key], now);
      ghost var done := map k | k in tags && k !in remaining :: AttributeValue(tags[k]);
      UnionUpdate(base, done, key, value);
      assert done[key := value] == map k | k in tags && k !in remaining - {key} :: AttributeValue(tags[k]);
      r := r[key := value];
      remaining := remaining - {key};
    }
    assert (map k | k in tags && k !in remaining :: AttributeValue(tags[k])) == Sanitized(tags);
  }

  /** The baggage `withCommonTagScope(customTagMap)` makes current: the current
      baggage, overridden by the sanitised merge of the common tags with the
      custom ones, the custom tags winning; the common baggage alone when there
      are no custom tags. */
  function ScopeBaggage(commonTagValueMap: map<string, string>, commonBaggage: map<string, string>,
                        customTagMap: Option<map<string, string>>, current: map<string, string>): map<string, string>
  {
    if customTagMap.None? || customTagMap.value == map[] then commonBaggage
    else current + Sanitized(commonTagValueMap + customTagMap.value)
  }

  /** Custom values override common ones on a clash, the other common keys and
      the keys of the current baggage are kept, and every merged value is
      sanitised. */
  lemma CustomOverridesCommon(commonTagValueMap: map<string, string>, commonBaggage: map<string, string>,
                              custom: map<string, string>, current: map<string, string>)
    requires custom != map[]
    ensures var b := ScopeBaggage(commonTagValueMap, commonBaggage, Some(custom), current);
      && b.Keys == current.Keys + commonTagValueMap.Keys + custom.Keys
      && (forall k :: k in custom ==> b[k] == AttributeValue(custom[k]))
      && (forall k :: k in commonTagValueMap && k !in custom ==> b[k] == AttributeValue(commonTagValueMap[k]))
      && (forall k :: k in current && k !in commonTagValueMap && k !in custom ==> b[k] == current[k])
  {
  }

  /** Without custom tags the scope is exactly the common one. */
  lemma NoCustomTagsIsCommonScope(commonTagValueMap: map<string, string>, commonBaggage: map<string, string>,
                                  customTagMap: Option<map<string, string>>, current: map<string, string>)
    requires customTagMap.None? || customTagMap.value == map[]
    ensures ScopeBaggage(commonTagValueMap, commonBaggage, customTagMap, current) == commonBaggage
  {
  }

  class CommonTagsManager {
    var commonTagValueMap: map<string, string>
    var commonBaggage: map<string, string>
    var commonTagKeys: seq<string>

    /** The key list names each merged key once, and the baggage holds the
        sanitised values of the merged map. */
    ghost predicate Valid()
      reads this
    {
      && Distinct(commonTagKeys)
      && (forall k :: k in commonTagKeys <==> k in commonTagValueMap)
      && commonBaggage == Sanitized(commonTagValueMap)
    }

    constructor ()
      ensures Valid() && commonTagValueMap == map[] && commonBaggage == map[] && commonTagKeys == []
    {
      commonTagValueMap, commonBaggage, commonTagKeys := map[], map[], [];
    }

    /** `getCommonTagKeys`: every common key, once each. */
    function CommonTagKeys(): (r: seq<string>)
      reads this
      requires Valid()
      ensures Distinct(r) && forall k :: k in r <==> k in commonTagValueMap
    {
      commonTagKeys
    }

    /** `update`, given the tags each provider reports for the current
        configuration, in provider order. Invalid values reach the warning
        limiter, which is shared and therefore also modified. */
    method Update(providerTags: seq<map<string, string>>, limiter: WarningLimiter, now: int)
      requires limiter.Valid()
      modifies this, limiter
      ensures Valid() && limiter.Valid()
      ensures commonTagValueMap == FirstWins(providerTags)
    {
      var newCommonTagValueMap := MergeProviders(providerTags);
      var newCommonTagKeys, baggage := KeysAndBaggage(newCommonTagValueMap, limiter, now);
      commonTagKeys := newCommonTagKeys;
      commonTagValueMap := newCommonTagValueMap;
      commonBaggage := baggage;
    }

    /** `withCommonTagScope(customTagMap)`: the baggage the returned scope makes
        current, given the baggage current before the call. */
    method WithCommonTagScope(customTagMap: Option<map<string, string>>, current: map<string, string>,
                              limiter: WarningLimiter, now: int) returns (scopeBaggage: map<string, string>)
      requires limiter.Valid()
      modifies limiter
      ensures limiter.Valid()
      ensures scopeBaggage == ScopeBaggage(commonTagValueMap, commonBaggage, customTagMap, current)
    {
      if customTagMap.None? || customTagMap.value == map[] {
        return commonBaggage;
      }
      scopeBaggage := PutSanitized(current, commonTagValueMap + customTagMap.value, limiter, now);
    }
  }
}
