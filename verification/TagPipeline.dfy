/** `EnsureTags`, `FilterSystemTags` and `mirrorAWSTags` (manager.go). */
module TagPipeline {
  import opened Basics
  import opened Api
  import opened TagLists
  import opened Resource

  /** `acktags.Merge`: the existing tags win over the defaults. */
  function Merge(existing: map<string, string>, defaults: map<string, string>): map<string, string> {
    defaults + existing
  }

  function Mirrored(desired: map<string, string>, latest: map<string, string>): map<string, string> {
    desired + AWSPart(latest)
  }

  method EnsureTags(r: AutoScalingGroup, defaults: map<string, string>)
    returns (ghost rest: seq<string>, ghost out: seq<Tag>)
    modifies r`spec
    ensures r.spec == old(r.spec).(tags := Elems(out))
    ensures Listing(Merge(TagMap(old(r.spec.tags.Items())), defaults), KeyOrder(old(r.spec.tags.Items())), rest, out)
    ensures var m, n := TagMap(old(r.spec.tags.Items())), TagMap(out);
            && (forall k :: k in n <==> k in m || k in defaults)
            && (forall k | k in n :: n[k] == if k in m then m[k] else defaults[k])
  {
    var resourceTags, keyOrder := ConvertToOrderedACKTags(r.spec.tags.Items());
    var tags := new TagTable(Merge(resourceTags.entries, defaults));
    var listed, others := FromACKTags(tags, keyOrder);
    r.spec := r.spec.(tags := Elems(listed));
    rest, out := others, listed;
    ListingStandsForMap(Merge(TagMap(old(r.spec.tags.Items())), defaults), KeyOrder(old(r.spec.tags.Items())),
                        rest, out);
  }

  method FilterSystemTags(r: AutoScalingGroup?, systemTags: seq<string>)
    returns (ghost rest: seq<string>, ghost out: seq<Tag>)
    modifies (if r != null then {r} else {})`spec
    ensures r != null ==>
              && r.spec == old(r.spec).(tags := Elems(out))
              && Listing(WithoutSystemTags(TagMap(old(r.spec.tags.Items())), systemTags),
                         KeyOrder(old(r.spec.tags.Items())), rest, out)
    ensures r != null ==>
              var m, n := TagMap(old(r.spec.tags.Items())), TagMap(out);
              && (forall k :: k in n <==> k in m && !IsAWS(k) && k !in systemTags)
              && (forall k | k in n :: n[k] == m[k])
  {
    if r == null {
      rest, out := [], [];
      return;
    }
    var resourceTags, keyOrder := ConvertToOrderedACKTags(r.spec.tags.Items());
    IgnoreSystemTags(resourceTags, systemTags);
    var listed, others := FromACKTags(resourceTags, keyOrder);
    r.spec := r.spec.(tags := Elems(listed));
    rest, out := others, listed;
    ListingStandsForMap(WithoutSystemTags(TagMap(old(r.spec.tags.Items())), systemTags),
                        KeyOrder(old(r.spec.tags.Items())), rest, out);
  }

  /** Nothing happens when either side is missing, as after a failed read. */
  method MirrorAWSTags(a: AutoScalingGroup?, b: AutoScalingGroup?)
    returns (ghost rest: seq<string>, ghost out: seq<Tag>)
    modifies (if a != null then {a} else {})`spec
    ensures a != null && b == null ==> unchanged(a)
    ensures a != null && b != null ==>
              && a.spec == old(a.spec).(tags := Elems(out))
              && Listing(Mirrored(TagMap(old(a.spec.tags.Items())), TagMap(old(b.spec.tags.Items()))),
                         KeyOrder(old(a.spec.tags.Items())), rest, out)
    ensures a != null && b != null ==>
              var m, latest, n := TagMap(old(a.spec.tags.Items())), TagMap(old(b.spec.tags.Items())), TagMap(out);
              && (forall k :: k in n <==> k in m || (k in latest && IsAWS(k)))
              && (forall k | k in n :: n[k] == if k in latest && IsAWS(k) then latest[k] else m[k])
  {
    if a == null || b == null {
      rest, out := [], [];
      return;
    }
    var desiredTags, desiredKeyOrder := ConvertToOrderedACKTags(a.spec.tags.Items());
    var latestTags, _ := ConvertToOrderedACKTags(b.spec.tags.Items());
    SyncAWSTags(desiredTags, latestTags);
    var listed, others := FromACKTags(desiredTags, desiredKeyOrder);
    a.spec := a.spec.(tags := Elems(listed));
    rest, out := others, listed;
    ListingStandsForMap(Mirrored(TagMap(old(a.spec.tags.Items())), TagMap(old(b.spec.tags.Items()))),
                        KeyOrder(old(a.spec.tags.Items())), rest, out);
  }

  // ---- filtering undoes what was added ------------------------------------------------------

  /** The list with every nil value made "". */
  function Filled(l: seq<Tag>): seq<Tag> {
    seq(|l|, i requires 0 <= i < |l| => Tag(l[i].key, Some(TagValue(l[i]))))
  }

  predicate AllKeyed(l: seq<Tag>) {
    forall i | 0 <= i < |l| :: l[i].key.Some?
  }

  /** Every tag has a key, no key comes twice, and none belongs to AWS or to the controller. */
  predicate UserTags(l: seq<Tag>, systemTags: seq<string>) {
    && AllKeyed(l)
    && Distinct(KeyOrder(l))
    && forall k | k in KeyOrder(l) :: !Ignored(k, systemTags)
  }

  /** Every default tag is one that filtering takes out again, or one that the list has anyway. */
  predicate DefaultsCovered(l: seq<Tag>, defaults: map<string, string>, systemTags: seq<string>) {
    forall k | k in defaults :: Ignored(k, systemTags) || k in KeyOrder(l)
  }

  lemma {:induction false} KeysOfKeyed(l: seq<Tag>)
    requires AllKeyed(l)
    ensures |KeyOrder(l)| == |l|
    ensures forall i | 0 <= i < |l| :: KeyOrder(l)[i] == l[i].key.value
  {
    if l != [] {
      KeysOfKeyed(l[..|l| - 1]);
    }
  }

  lemma {:induction false} FirstOccurrencesOfDistinct(order: seq<string>, s: set<string>)
    requires Distinct(order) && forall k | k in order :: k in s
    ensures FirstOccurrences(order, s) == order
  {
    if order != [] {
      var init := order[..|order| - 1];
      assert order == init + [order[|order| - 1]];
      FirstOccurrencesOfDistinct(init, s);
    }
  }

  lemma {:induction false} FirstOccurrencesDropsOthers(order: seq<string>, more: seq<string>, s: set<string>)
    requires forall k | k in more :: k !in s
    ensures FirstOccurrences(order + more, s) == FirstOccurrences(order, s)
  {
    if more == [] {
      assert order + more == order;
    } else {
      var init := more[..|more| - 1];
      assert (order + more)[..|order + more| - 1] == order + init;
      assert more[|more| - 1] in more;
      FirstOccurrencesDropsOthers(order, init, s);
    }
  }

  /** `x` is `l` (nil values made "") followed by tags with keys that `l` does not have. */
  ghost predicate Extends(l: seq<Tag>, x: seq<Tag>) {
    && KeyOrder(l) <= KeyOrder(x)
    && Distinct(KeyOrder(x))
    && forall k | k in KeyOrder(l) :: k in TagMap(x) && k in TagMap(l) && TagMap(x)[k] == TagMap(l)[k]
  }

  /** Writing out a map that agrees with the list on the list's own keys extends the list. */
  lemma ListingExtends(l: seq<Tag>, m: map<string, string>, rest: seq<string>, out: seq<Tag>)
    requires Distinct(KeyOrder(l))
    requires forall k | k in KeyOrder(l) :: k in m && k in TagMap(l) && m[k] == TagMap(l)[k]
    requires Listing(m, KeyOrder(l), rest, out)
    ensures Extends(l, out)
  {
    ListingStandsForMap(m, KeyOrder(l), rest, out);
    FirstOccurrencesOfDistinct(KeyOrder(l), m.Keys);
  }

  lemma {:induction false} ValuesOfDistinct(l: seq<Tag>, i: nat)
    requires AllKeyed(l) && Distinct(KeyOrder(l)) && i < |l|
    ensures l[i].key.value in TagMap(l) && TagMap(l)[l[i].key.value] == TagValue(l[i])
  {
    KeysOfKeyed(l);
    forall j | i < j < |l|
      ensures l[j].key != Some(l[i].key.value)
    {
      assert KeyOrder(l)[i] != KeyOrder(l)[j];
    }
    LastValueWins(l, i, l[i].key.value);
  }

  lemma FilteredKeys(l: seq<Tag>, systemTags: seq<string>, x: seq<Tag>)
    requires UserTags(l, systemTags) && Extends(l, x)
    requires forall k | k in TagMap(x) && k !in KeyOrder(l) :: Ignored(k, systemTags)
    ensures WithoutSystemTags(TagMap(x), systemTags).Keys == Members(KeyOrder(l))
    ensures FirstOccurrences(KeyOrder(x), Members(KeyOrder(l))) == KeyOrder(l)
  {
    var n := |KeyOrder(l)|;
    var more := KeyOrder(x)[n..];
    assert KeyOrder(x) == KeyOrder(l) + more;
    forall k | k in more
      ensures k !in Members(KeyOrder(l))
    {
      var j :| 0 <= j < |more| && more[j] == k;
      assert KeyOrder(x)[n + j] == k;
      assert forall i | 0 <= i < n :: KeyOrder(x)[i] == KeyOrder(l)[i];
    }
    FirstOccurrencesDropsOthers(KeyOrder(l), more, Members(KeyOrder(l)));
    FirstOccurrencesOfDistinct(KeyOrder(l), Members(KeyOrder(l)));
  }

  lemma TagsOfOwnKeys(l: seq<Tag>, m: map<string, string>)
    requires AllKeyed(l) && Distinct(KeyOrder(l))
    requires forall k | k in KeyOrder(l) :: k in m && k in TagMap(l) && m[k] == TagMap(l)[k]
    ensures TagsOf(m, KeyOrder(l)) == Filled(l)
  {
    KeysOfKeyed(l);
    forall i | 0 <= i < |l|
      ensures TagsOf(m, KeyOrder(l))[i] == Filled(l)[i]
    {
      ValuesOfDistinct(l, i);
      assert KeyOrder(l)[i] in KeyOrder(l);
    }
  }

  /** Filtering an extension whose extra tags are all ignored gives the list back, in its order. */
  lemma FilterUndoesExtension(l: seq<Tag>, systemTags: seq<string>, x: seq<Tag>, rest: seq<string>, out: seq<Tag>)
    requires UserTags(l, systemTags) && Extends(l, x)
    requires forall k | k in TagMap(x) && k !in KeyOrder(l) :: Ignored(k, systemTags)
    requires Listing(WithoutSystemTags(TagMap(x), systemTags), KeyOrder(x), rest, out)
    ensures out == Filled(l)
  {
    FilteredKeys(l, systemTags, x);
    MapKeys(x);
    Nonempty(rest);
    TagsOfOwnKeys(l, WithoutSystemTags(TagMap(x), systemTags));
    assert KeyOrder(l) + [] == KeyOrder(l);
  }

  lemma CoveredDefaultsAreIgnored(l: seq<Tag>, defaults: map<string, string>, systemTags: seq<string>,
                                  latest: map<string, string>)
    requires DefaultsCovered(l, defaults, systemTags)
    ensures forall k | k in Mirrored(Merge(TagMap(l), defaults), latest) && k !in KeyOrder(l) :: Ignored(k, systemTags)
  {
    MapKeys(l);
    hide TagMap, KeyOrder;
  }

  lemma DefaultsAreMerged(l: seq<Tag>, defaults: map<string, string>, latest: map<string, string>)
    ensures forall k | k in defaults :: k in Mirrored(Merge(TagMap(l), defaults), latest)
  {
  }

  /** Add the defaults, mirror the AWS tags of whatever was read, filter: exactly the user's list
      comes back, in order and with nil values made "", if and only if the list was made of user tags
      and filtering takes every foreign default out again. This holds for every iteration order. */
  lemma FilterUndoesEnsureAndMirror(
    l: seq<Tag>, defaults: map<string, string>, systemTags: seq<string>, latest: map<string, string>,
    ensured: seq<Tag>, rest1: seq<string>, mirrored: seq<Tag>, rest2: seq<string>, out: seq<Tag>, rest3: seq<string>)
    requires Listing(Merge(TagMap(l), defaults), KeyOrder(l), rest1, ensured)
    requires Listing(Mirrored(TagMap(ensured), latest), KeyOrder(ensured), rest2, mirrored)
    requires Listing(WithoutSystemTags(TagMap(mirrored), systemTags), KeyOrder(mirrored), rest3, out)
    ensures out == Filled(l) <==> UserTags(l, systemTags) && DefaultsCovered(l, defaults, systemTags)
  {
    hide TagMap, KeyOrder, Listing, Filled, Extends, Mirrored, WithoutSystemTags;
    ListingStandsForMap(Merge(TagMap(l), defaults), KeyOrder(l), rest1, ensured);
    ListingStandsForMap(Mirrored(TagMap(ensured), latest), KeyOrder(ensured), rest2, mirrored);
    if UserTags(l, systemTags) && DefaultsCovered(l, defaults, systemTags) {
      MapKeys(l);
      ListingExtends(l, Merge(TagMap(l), defaults), rest1, ensured);
      MirroringUserTags(l, systemTags, ensured, latest, rest2, mirrored);
      CoveredDefaultsAreIgnored(l, defaults, systemTags, latest);
      FilterUndoesExtension(l, systemTags, mirrored, rest3, out);
    }
    if out == Filled(l) {
      OnlyUserTagsComeBack(l, TagMap(mirrored), systemTags, KeyOrder(mirrored), rest3, out);
      DefaultsAreMerged(l, defaults, latest);
    }
  }

  lemma MirroringUserTags(l: seq<Tag>, systemTags: seq<string>, x: seq<Tag>, latest: map<string, string>,
                          rest: seq<string>, out: seq<Tag>)
    requires UserTags(l, systemTags) && Extends(l, x)
    requires Listing(Mirrored(TagMap(x), latest), KeyOrder(x), rest, out)
    ensures Extends(l, out)
  {
    var m := Mirrored(TagMap(x), latest);
    ListingStandsForMap(m, KeyOrder(x), rest, out);
    MapKeys(x);
    FirstOccurrencesOfDistinct(KeyOrder(x), m.Keys);
    assert forall k | k in KeyOrder(l) :: !IsAWS(k);
  }

  lemma OnlyUserTagsComeBack(l: seq<Tag>, m: map<string, string>, systemTags: seq<string>, order: seq<string>,
                             rest: seq<string>, out: seq<Tag>)
    requires Listing(WithoutSystemTags(m, systemTags), order, rest, out) && out == Filled(l)
    ensures UserTags(l, systemTags)
    ensures forall k | k in m && !Ignored(k, systemTags) :: k in KeyOrder(l)
  {
    var kept := WithoutSystemTags(m, systemTags);
    ListingStandsForMap(kept, order, rest, out);
    MapKeys(out);
    forall i | 0 <= i < |l|
      ensures l[i].key.Some?
    {
      assert out[i].key == l[i].key;
    }
    KeysOfKeyed(l);
    KeysOfKeyed(out);
    assert KeyOrder(out) == KeyOrder(l);
    forall k | k in KeyOrder(l)
      ensures !Ignored(k, systemTags)
    {
      assert k in kept.Keys;
    }
    forall k | k in m && !Ignored(k, systemTags)
      ensures k in KeyOrder(l)
    {
      assert k in kept.Keys;
    }
  }
}
