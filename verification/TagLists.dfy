/** The tag list of a spec, the map it stands for, and the way back (tags.go of the resource). Map
    iteration order is arbitrary: every loop over a map picks any remaining key. */
module TagLists {
  import opened Basics
  import opened Api

  // ---- a list of tags as a map and a key order ----------------------------------------------

  function TagValue(t: Tag): string {
    if t.value.Some? then t.value.value else ""
  }

  /** Tags without a key are dropped; of several tags with one key the last wins. */
  function TagMap(l: seq<Tag>): map<string, string> {
    if l == [] then map[]
    else
      var t := l[|l| - 1];
      if t.key.None? then TagMap(l[..|l| - 1]) else TagMap(l[..|l| - 1])[t.key.value := TagValue(t)]
  }

  function KeyOrder(l: seq<Tag>): seq<string> {
    if l == [] then []
    else
      var t := l[|l| - 1];
      KeyOrder(l[..|l| - 1]) + if t.key.None? then [] else [t.key.value]
  }

  /** Go's `acktags.Tags`: a map that its holders share and change in place. */
  class TagTable {
    var entries: map<string, string>

    constructor (entries: map<string, string>)
      ensures this.entries == entries
    {
      this.entries := entries;
    }
  }

  method ConvertToOrderedACKTags(tags: seq<Tag>) returns (result: TagTable, keyOrder: seq<string>)
    ensures fresh(result)
    ensures result.entries == TagMap(tags) && keyOrder == KeyOrder(tags)
  {
    result := new TagTable(map[]);
    keyOrder := [];
    for i := 0 to |tags|
      invariant fresh(result)
      invariant result.entries == TagMap(tags[..i]) && keyOrder == KeyOrder(tags[..i])
    {
      assert tags[..i + 1][..i] == tags[..i];
      var t := tags[i];
      if t.key.Some? {
        keyOrder := keyOrder + [t.key.value];
        if t.value.Some? {
          result.entries := result.entries[t.key.value := t.value.value];
        } else {
          result.entries := result.entries[t.key.value := ""];
        }
      }
    }
    assert tags[..|tags|] == tags;
  }

  // ---- a map written out as a list ----------------------------------------------------------

  predicate Distinct(keys: seq<string>) {
    forall i, j | 0 <= i < j < |keys| :: keys[i] != keys[j]
  }

  /** Each member of `s` once, in some order. */
  ghost predicate Enumerates(keys: seq<string>, s: set<string>) {
    Distinct(keys) && forall k :: k in keys <==> k in s
  }

  /** The keys of `order` that are in `s`, each at its first occurrence. */
  function FirstOccurrences(order: seq<string>, s: set<string>): (r: seq<string>)
    ensures Distinct(r)
    ensures forall k :: k in r <==> k in order && k in s
  {
    if order == [] then []
    else
      var init := FirstOccurrences(order[..|order| - 1], s);
      var last := order[|order| - 1];
      assert order == order[..|order| - 1] + [last];
      if last in s && last !in init then init + [last] else init
  }

  /** Where a key stands first. */
  function FirstIndex(order: seq<string>, k: string): (i: nat)
    requires k in order
    ensures i < |order| && order[i] == k && k !in order[..i]
  {
    var init := order[..|order| - 1];
    assert order == init + [order[|order| - 1]];
    if k in init then
      var i := FirstIndex(init, k);
      assert order[..i] == init[..i];
      i
    else |order| - 1
  }

  /** Of two keys, the one that stands first earlier in the list comes earlier. */
  lemma {:induction false} FirstOccurrencesInOrder(order: seq<string>, s: set<string>, i: nat, j: nat)
    requires i < j < |FirstOccurrences(order, s)|
    ensures FirstIndex(order, FirstOccurrences(order, s)[i]) < FirstIndex(order, FirstOccurrences(order, s)[j])
  {
    var init := order[..|order| - 1];
    var r := FirstOccurrences(order, s);
    assert order == init + [order[|order| - 1]];
    assert r[i] in FirstOccurrences(init, s);
    if j < |FirstOccurrences(init, s)| {
      assert r[j] in FirstOccurrences(init, s);
      FirstOccurrencesInOrder(init, s, i, j);
    }
  }

  function TagsOf(m: map<string, string>, keys: seq<string>): seq<Tag>
    requires forall k | k in keys :: k in m
  {
    seq(|keys|, i requires 0 <= i < |keys| => Tag(Some(keys[i]), Some(m[keys[i]])))
  }

  function Members(order: seq<string>): set<string> {
    set k | k in order
  }

  /** `out` is one of the lists that a map written out along `order` may become: first the ordered
      keys, then the others (`rest`) in any order. */
  ghost predicate Listing(m: map<string, string>, order: seq<string>, rest: seq<string>, out: seq<Tag>) {
    && Enumerates(rest, m.Keys - Members(order))
    && out == TagsOf(m, FirstOccurrences(order, m.Keys) + rest)
  }

  lemma NoOccurrences(s: set<string>)
    ensures FirstOccurrences([], s) == []
  {
  }

  lemma NextOccurrence(order: seq<string>, i: nat, s: set<string>)
    requires i < |order|
    ensures FirstOccurrences(order[..i + 1], s)
            == FirstOccurrences(order[..i], s)
               + if order[i] in s && order[i] !in Members(order[..i]) then [order[i]] else []
    ensures Members(order[..i + 1]) == Members(order[..i]) + {order[i]}
  {
    assert order[..i + 1][..i] == order[..i];
    assert order[..i + 1] == order[..i] + [order[i]];
  }

  /** Consumes the table: every ordered key is deleted once it is written out. */
  method FromACKTags(tags: TagTable, keyOrder: seq<string>) returns (result: seq<Tag>, ghost rest: seq<string>)
    modifies tags
    ensures Listing(old(tags.entries), keyOrder, rest, result)
    ensures tags.entries == old(tags.entries) - Members(keyOrder)
  {
    hide FirstOccurrences;
    ghost var m := tags.entries;
    result := [];
    NoOccurrences(m.Keys);
    for i := 0 to |keyOrder|
      invariant tags.entries == m - Members(keyOrder[..i])
      invariant result == TagsOf(m, FirstOccurrences(keyOrder[..i], m.Keys))
    {
      var k := keyOrder[i];
      NextOccurrence(keyOrder, i, m.Keys);
      if k in tags.entries {
        result := result + [Tag(Some(k), Some(tags.entries[k]))];
        tags.entries := tags.entries - {k};
      }
    }
    assert keyOrder[..|keyOrder|] == keyOrder;
    ghost var first := FirstOccurrences(keyOrder, m.Keys);
    var todo := tags.entries.Keys;
    rest := [];
    while todo != {}
      invariant todo <= tags.entries.Keys
      invariant Enumerates(rest, tags.entries.Keys - todo)
      invariant forall k | k in first + rest :: k in m
      invariant result == TagsOf(m, first + rest)
      decreases todo
    {
      var k :| k in todo;
      todo := todo - {k};
      result := result + [Tag(Some(k), Some(tags.entries[k]))];
      rest := rest + [k];
    }
  }

  lemma {:induction false} KeysOfTagsOf(m: map<string, string>, keys: seq<string>)
    requires forall k | k in keys :: k in m
    ensures KeyOrder(TagsOf(m, keys)) == keys
  {
    if keys != [] {
      var init, last := keys[..|keys| - 1], keys[|keys| - 1];
      KeysOfTagsOf(m, init);
      assert TagsOf(m, keys)[..|keys| - 1] == TagsOf(m, init);
    }
  }

  lemma {:induction false} MapOfTagsOf(m: map<string, string>, keys: seq<string>)
    requires forall k | k in keys :: k in m
    ensures TagMap(TagsOf(m, keys)).Keys == Members(keys)
    ensures forall k | k in keys :: TagMap(TagsOf(m, keys))[k] == m[k]
  {
    if keys != [] {
      var init, last := keys[..|keys| - 1], keys[|keys| - 1];
      MapOfTagsOf(m, init);
      assert TagsOf(m, keys)[..|keys| - 1] == TagsOf(m, init);
      assert keys == init + [last];
    }
  }

  lemma {:induction false} MapKeys(l: seq<Tag>)
    ensures TagMap(l).Keys == Members(KeyOrder(l))
    ensures forall k :: k in TagMap(l) <==> exists i | 0 <= i < |l| :: l[i].key == Some(k)
  {
    if l != [] {
      var init := l[..|l| - 1];
      MapKeys(init);
      forall k
        ensures k in TagMap(l) <==> exists i | 0 <= i < |l| :: l[i].key == Some(k)
      {
        if k in TagMap(init) {
          var i :| 0 <= i < |init| && init[i].key == Some(k);
          assert l[i].key == Some(k);
        }
        assert k in TagMap(l) <==> k in TagMap(init) || l[|l| - 1].key == Some(k);
        assert forall i | 0 <= i < |init| :: init[i] == l[i];
      }
    }
  }

  lemma ListedKeys(m: map<string, string>, order: seq<string>, rest: seq<string>)
    requires Enumerates(rest, m.Keys - Members(order))
    ensures Distinct(FirstOccurrences(order, m.Keys) + rest)
    ensures Members(FirstOccurrences(order, m.Keys) + rest) == m.Keys
  {
    var first := FirstOccurrences(order, m.Keys);
    assert forall i | 0 <= i < |rest| :: rest[i] in rest;
    assert forall i | 0 <= i < |first| :: first[i] in first;
    assert Members(first + rest) == Members(first) + Members(rest);
  }

  /** Map to list to map: whatever the key order (with duplicates, with keys that are not there) and
      whatever order the map was ranged over in, the list stands for exactly the original map, names
      no key twice, and puts the ordered keys first. */
  lemma ListingStandsForMap(m: map<string, string>, order: seq<string>, rest: seq<string>, out: seq<Tag>)
    requires Listing(m, order, rest, out)
    ensures TagMap(out) == m
    ensures KeyOrder(out) == FirstOccurrences(order, m.Keys) + rest
    ensures Distinct(KeyOrder(out)) && |KeyOrder(out)| == |out|
  {
    var keys := FirstOccurrences(order, m.Keys) + rest;
    KeysOfTagsOf(m, keys);
    MapOfTagsOf(m, keys);
    ListedKeys(m, order, rest);
    forall k
      ensures k in m <==> k in keys
    {
      assert k in Members(keys) <==> k in keys;
    }
  }

  /** The last tag with a key decides its value. */
  lemma {:induction false} LastValueWins(l: seq<Tag>, i: nat, k: string)
    requires i < |l| && l[i].key == Some(k)
    requires forall j | i < j < |l| :: l[j].key != Some(k)
    ensures k in TagMap(l) && TagMap(l)[k] == if l[i].value.Some? then l[i].value.value else ""
  {
    if i < |l| - 1 {
      var init := l[..|l| - 1];
      assert forall j | i < j < |init| :: init[j] == l[j];
      LastValueWins(init, i, k);
    }
  }

  lemma Nonempty(keys: seq<string>)
    ensures keys == [] || exists k :: k in keys
  {
    if keys != [] {
      assert keys[0] in keys;
    }
  }

  /** List to map to list: nothing is left to the iteration order. Duplicate keys keep their first
      position and, by LastValueWins, their last value. */
  lemma ListMapList(l: seq<Tag>, rest: seq<string>, out: seq<Tag>)
    requires Listing(TagMap(l), KeyOrder(l), rest, out)
    ensures rest == []
    ensures KeyOrder(out) == FirstOccurrences(KeyOrder(l), Members(KeyOrder(l)))
    ensures TagMap(out) == TagMap(l)
  {
    MapKeys(l);
    ListingStandsForMap(TagMap(l), KeyOrder(l), rest, out);
    Nonempty(rest);
  }

  // ---- in-place edits -----------------------------------------------------------------------

  const AWS_PREFIX := "aws:"

  predicate IsAWS(k: string) {
    AWS_PREFIX <= k
  }

  predicate Ignored(k: string, systemTags: seq<string>) {
    IsAWS(k) || k in systemTags
  }

  /** The prefix, letter by letter. */
  lemma WhatIsIgnored(k: string, systemTags: seq<string>)
    ensures IsAWS(k) <==> |k| >= 4 && k[0] == 'a' && k[1] == 'w' && k[2] == 's' && k[3] == ':'
    ensures Ignored(k, systemTags) <==> IsAWS(k) || k in systemTags
  {
    assert AWS_PREFIX == ['a', 'w', 's', ':'];
  }

  function IgnoredKeys(s: set<string>, systemTags: seq<string>): set<string> {
    set k | k in s && Ignored(k, systemTags)
  }

  function WithoutSystemTags(m: map<string, string>, systemTags: seq<string>): map<string, string> {
    m - IgnoredKeys(m.Keys, systemTags)
  }

  /** Deletes from the map it ranges over. */
  method IgnoreSystemTags(tags: TagTable, systemTags: seq<string>)
    modifies tags
    ensures tags.entries == WithoutSystemTags(old(tags.entries), systemTags)
  {
    ghost var m := tags.entries;
    var todo := tags.entries.Keys;
    ghost var done: set<string> := {};
    while todo != {}
      invariant todo !! done && todo + done == m.Keys
      invariant tags.entries == m - IgnoredKeys(done, systemTags)
      decreases todo
    {
      var k :| k in todo;
      todo, done := todo - {k}, done + {k};
      if IsAWS(k) || k in systemTags {
        tags.entries := tags.entries - {k};
      }
    }
  }

  function AWSPart(m: map<string, string>): map<string, string> {
    map k | k in m && IsAWS(k) :: m[k]
  }

  method SyncAWSTags(a: TagTable, b: TagTable)
    requires a != b
    modifies a
    ensures a.entries == old(a.entries) + AWSPart(b.entries)
  {
    ghost var m := a.entries;
    var todo := b.entries.Keys;
    ghost var done: set<string> := {};
    while todo != {}
      invariant todo !! done && todo + done == b.entries.Keys
      invariant a.entries == m + (map k | k in b.entries && k in done && IsAWS(k) :: b.entries[k])
      decreases todo
    {
      var k :| k in todo;
      todo, done := todo - {k}, done + {k};
      if IsAWS(k) {
        a.entries := a.entries[k := b.entries[k]];
      }
    }
    assert done == b.entries.Keys;
    assert AWSPart(b.entries) == map k | k in b.entries && k in done && IsAWS(k) :: b.entries[k];
  }
}
