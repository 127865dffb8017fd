/** `tags.Tags` (pkg/tags/tags.go): bring the tags of the group to the desired ones with one call that
    adds and one that removes, either of which may fail. Then what holds over any run of attempts. */
module TagSync {
  import opened Basics
  import opened TagLists
  import opened TagPipeline
  import opened Service
  import Api

  // ---- the difference -----------------------------------------------------------------------

  /** `ackcompare.GetTagsDifference` compares pairs, so a changed value is in both results. */
  function AddedPairs(from: map<string, string>, to: map<string, string>): map<string, string> {
    map k | k in to && !(k in from && from[k] == to[k]) :: to[k]
  }

  function RemovedPairs(from: map<string, string>, to: map<string, string>): map<string, string> {
    map k | k in from && !(k in to && from[k] == to[k]) :: from[k]
  }

  /** The keys left to remove once the changed ones are taken out. */
  function KeysToRemove(from: map<string, string>, to: map<string, string>): set<string> {
    RemovedPairs(from, to).Keys - AddedPairs(from, to).Keys
  }

  /** The two requests never share a key, the removed keys are those that are not desired, and it does
      not matter to the service in which order the requests arrive. */
  lemma RequestsAreDisjoint(from: map<string, string>, to: map<string, string>)
    ensures AddedPairs(from, to).Keys !! KeysToRemove(from, to)
    ensures KeysToRemove(from, to) == from.Keys - to.Keys
    ensures forall tags: map<string, string> ::
              (tags + AddedPairs(from, to)) - KeysToRemove(from, to)
              == (tags - KeysToRemove(from, to)) + AddedPairs(from, to)
  {
    forall k
      ensures k in KeysToRemove(from, to) <==> k in from.Keys - to.Keys
    {
    }
  }

  // ---- one attempt --------------------------------------------------------------------------

  function ValueAt(m: map<string, string>, k: string): Option<string> {
    if k in m then Some(m[k]) else None
  }

  /** What the two requests do to the service, and the error that is returned, if any. */
  function SendEffect(tags: map<string, string>, added: map<string, string>, removed: set<string>,
                      add: TagOutcome, del: TagOutcome): (map<string, string>, Option<string>) {
    var tags1 := if added == map[] then tags else AfterAdd(tags, added, add);
    if added != map[] && add.Fails? then (tags1, Some(add.error))
    else if removed == {} then (tags1, None)
    else (AfterDelete(tags1, removed, del), TagError(del))
  }

  function SyncEffect(tags: map<string, string>, from: map<string, string>, to: map<string, string>,
                      add: TagOutcome, del: TagOutcome): (map<string, string>, Option<string>) {
    SendEffect(tags, AddedPairs(from, to), KeysToRemove(from, to), add, del)
  }

  /** How many calls it takes when they succeed. */
  function CallsNeeded(from: map<string, string>, to: map<string, string>): nat {
    (if AddedPairs(from, to) == map[] then 0 else 1) + (if KeysToRemove(from, to) == {} then 0 else 1)
  }

  /** A failed addition is the last call. */
  function CallsMade(from: map<string, string>, to: map<string, string>, add: TagOutcome): nat {
    if AddedPairs(from, to) != map[] && add.Fails? then 1 else CallsNeeded(from, to)
  }

  method Tags(service: AutoScalingService, desiredTags: seq<Api.Tag>, latestTags: seq<Api.Tag>, add: TagOutcome,
              del: TagOutcome)
    returns (err: Option<string>)
    modifies service`tags, service`tagCalls
    ensures (service.tags, err) == SyncEffect(old(service.tags), TagMap(latestTags), TagMap(desiredTags), add, del)
    ensures service.tagCalls == old(service.tagCalls) + CallsMade(TagMap(latestTags), TagMap(desiredTags), add)
  {
    var from, _ := ConvertToOrderedACKTags(latestTags);
    var to, _ := ConvertToOrderedACKTags(desiredTags);
    var added := AddedPairs(from.entries, to.entries);
    var removed := DropChanged(added, RemovedPairs(from.entries, to.entries));
    err := Send(service, added, removed, add, del);
  }

  method Send(service: AutoScalingService, added: map<string, string>, removed: map<string, string>, add: TagOutcome,
              del: TagOutcome)
    returns (err: Option<string>)
    modifies service`tags, service`tagCalls
    ensures (service.tags, err) == SendEffect(old(service.tags), added, removed.Keys, add, del)
    ensures service.tagCalls == old(service.tagCalls)
            + (if added == map[] then 0 else 1)
              + (if removed.Keys == {} || (added != map[] && add.Fails?) then 0 else 1)
  {
    if |added| > 0 {
      var toAdd := ListPairs(added);
      err := service.CreateOrUpdateTags(toAdd, add);
      if err.Some? {
        return;
      }
    }
    if |removed| > 0 {
      assert removed.Keys != {};
      var toRemove := ListKeys(removed.Keys);
      assert Members(toRemove) == removed.Keys;
      err := service.DeleteTags(toRemove, del);
      if err.Some? {
        return;
      }
    }
    err := None;
  }

  /** Deletes from `removed`, while ranging over it, the keys that are also in `added`. */
  method DropChanged(added: map<string, string>, removed: map<string, string>) returns (left: map<string, string>)
    ensures left == removed - added.Keys
  {
    left := removed;
    var todo := removed.Keys;
    while todo != {}
      invariant todo <= removed.Keys
      invariant left == removed - (added.Keys - todo)
      decreases todo
    {
      var key :| key in todo;
      todo := todo - {key};
      if key in added {
        left := left - {key};
      }
    }
    assert added.Keys - {} == added.Keys;
  }

  /** Ranging over a map appends its keys in any order. */
  method ListKeys(s: set<string>) returns (keys: seq<string>)
    ensures Enumerates(keys, s)
  {
    keys := [];
    var todo := s;
    while todo != {}
      invariant todo <= s && Enumerates(keys, s - todo)
      decreases todo
    {
      var k :| k in todo;
      todo := todo - {k};
      keys := keys + [k];
    }
  }

  method ListPairs(m: map<string, string>) returns (tags: seq<Api.Tag>)
    ensures TagMap(tags) == m
  {
    var keys := ListKeys(m.Keys);
    tags := TagsOf(m, keys);
    MapOfTagsOf(m, keys);
    assert TagMap(tags).Keys == m.Keys;
  }

  /** The pair is new or has another value. */
  predicate Changed(from: map<string, string>, to: map<string, string>, k: string) {
    k in to && (k !in from || from[k] != to[k])
  }

  predicate Gone(from: map<string, string>, to: map<string, string>, k: string) {
    k in from && k !in to
  }

  /** What the service holds after the two requests, key by key: only pairs that are new or changed are
      added, only keys that are not desired are removed, and nothing is removed once an addition failed. */
  lemma SyncAtKey(tags: map<string, string>, from: map<string, string>, to: map<string, string>,
                  add: TagOutcome, del: TagOutcome, k: string)
    ensures var stopped := add.Fails? && exists j :: Changed(from, to, j);
            ValueAt(SyncEffect(tags, from, to, add, del).0, k)
            == if Changed(from, to, k) && (add.Succeeds? || k in add.applied) then Some(to[k])
               else if Gone(from, to, k) && !stopped && (del.Succeeds? || k in del.applied) then None
               else if k in tags then Some(tags[k]) else None
    ensures SyncEffect(tags, from, to, add, del).1
            == if add.Fails? && exists j :: Changed(from, to, j) then Some(add.error)
               else if del.Fails? && exists j :: Gone(from, to, j) then Some(del.error)
               else None
    ensures CallsMade(from, to, add)
            == if add.Fails? && exists j :: Changed(from, to, j) then 1
               else (if exists j :: Changed(from, to, j) then 1 else 0) + if exists j :: Gone(from, to, j) then 1 else 0
  {
    var added, removed := AddedPairs(from, to), KeysToRemove(from, to);
    RequestsAreDisjoint(from, to);
    assert forall j :: Changed(from, to, j) <==> j in added.Keys;
    assert forall j :: Gone(from, to, j) <==> j in removed;
    assert added != map[] ==> added.Keys != {};
  }

  // ---- AWS-managed tags ---------------------------------------------------------------------

  /** Once the AWS tags of the latest state are mirrored into the desired one, no AWS tag of the group
      is added or removed, and none at all is removed. An AWS tag is asked for exactly when the desired
      spec has one that the group lacks, and that call is expected to fail. */
  lemma AWSTagsAreSafe(desired: map<string, string>, latest: map<string, string>)
    ensures forall k | IsAWS(k) && k in latest ::
              k !in AddedPairs(latest, Mirrored(desired, latest))
              && k !in KeysToRemove(latest, Mirrored(desired, latest))
    ensures forall k | k in KeysToRemove(latest, Mirrored(desired, latest)) :: !IsAWS(k)
    ensures forall k | IsAWS(k) ::
              k in AddedPairs(latest, Mirrored(desired, latest)) <==> k in desired && k !in latest
  {
    var to := Mirrored(desired, latest);
    assert forall k | IsAWS(k) && k in latest :: k in AWSPart(latest) && k in to && to[k] == latest[k];
  }

  // ---- the delta and the calls --------------------------------------------------------------

  lemma DifferingMapsDiffer(from: map<string, string>, to: map<string, string>)
    ensures from == to <==> Differing(from, to) == {}
  {
    if Differing(from, to) == {} {
      forall k
        ensures k in from <==> k in to
        ensures k in from ==> k in to && from[k] == to[k]
      {
        assert k !in Differing(from, to);
      }
      assert from == to;
    }
  }

  /** The step makes a call exactly when the maps differ, which is when the comparison reports the
      tags. */
  lemma CallsIffTagsDiffer(from: map<string, string>, to: map<string, string>)
    ensures CallsNeeded(from, to) > 0 <==> from != to
  {
    DifferingMapsDiffer(from, to);
    forall k
      ensures k in Differing(from, to) <==> k in AddedPairs(from, to) || k in KeysToRemove(from, to)
    {
    }
    if Differing(from, to) != {} {
      var k :| k in Differing(from, to);
      assert k in AddedPairs(from, to) || k in KeysToRemove(from, to);
    }
  }

  // ---- runs of attempts ---------------------------------------------------------------------

  /** One reconciliation: the read fails, or the tags are read and mirrored and the step ends as the
      two outcomes say. */
  datatype Attempt = ReadFails | Sync(add: TagOutcome, del: TagOutcome)

  predicate Clean(a: Attempt) {
    a.Sync? && a.add.Succeeds? && a.del.Succeeds?
  }

  function Step(tags: map<string, string>, desired: map<string, string>, a: Attempt): map<string, string> {
    if a.ReadFails? then tags else SyncEffect(tags, tags, Mirrored(desired, tags), a.add, a.del).0
  }

  /** The states of a run, first to last. */
  function Run(tags: map<string, string>, desired: map<string, string>,
               attempts: seq<Attempt>): (states: seq<map<string, string>>)
    ensures |states| == |attempts| + 1 && states[0] == tags
    decreases |attempts|
  {
    if attempts == [] then [tags]
    else [tags] + Run(Step(tags, desired, attempts[0]), desired, attempts[1..])
  }

  /** The keys on which two tag maps disagree. */
  function Differing(s: map<string, string>, t: map<string, string>): set<string> {
    set k | k in s.Keys + t.Keys && !(k in s && k in t && s[k] == t[k])
  }

  /** What the tags should end up as. */
  function Target(tags: map<string, string>, desired: map<string, string>): map<string, string> {
    Mirrored(desired, tags)
  }

  /** On every key, the requests leave the old value, set the added one or remove the key. */
  lemma SendAtKey(tags: map<string, string>, added: map<string, string>, removed: set<string>,
                  add: TagOutcome, del: TagOutcome, k: string)
    ensures var next := SendEffect(tags, added, removed, add, del).0;
            || ValueAt(next, k) == ValueAt(tags, k)
            || (k in added && ValueAt(next, k) == Some(added[k]))
            || (k in removed && ValueAt(next, k) == None)
  {
  }

  /** The order of the calls shows in what a failure leaves behind: after a failed addition no key is
      gone yet, and whatever becomes of the removal, by then every added pair has arrived. */
  lemma AdditionsComeFirst(tags: map<string, string>, added: map<string, string>, removed: set<string>,
                           add: TagOutcome, del: TagOutcome)
    requires added.Keys !! removed
    ensures var next, err := SendEffect(tags, added, removed, add, del).0, SendEffect(tags, added, removed, add, del).1;
            && (added != map[] && add.Fails? ==> err == Some(add.error) && tags.Keys <= next.Keys)
            && (added == map[] || add.Succeeds? ==> forall k | k in added :: ValueAt(next, k) == Some(added[k]))
  {
  }

  lemma CleanSend(tags: map<string, string>, added: map<string, string>, removed: set<string>)
    ensures SendEffect(tags, added, removed, Succeeds, Succeeds) == ((tags + added) - removed, None)
  {
    assert tags + map[] == tags;
    assert forall m: map<string, string> :: m - {} == m;
  }

  lemma PairsReachTarget(from: map<string, string>, to: map<string, string>)
    ensures (from + AddedPairs(from, to)) - KeysToRemove(from, to) == to
  {
    RequestsAreDisjoint(from, to);
  }

  /** On every key, a step leaves the old value or brings the target's. */
  lemma StepMovesTowards(tags: map<string, string>, desired: map<string, string>, a: Attempt, k: string)
    ensures var next, to := Step(tags, desired, a), Target(tags, desired);
            ValueAt(next, k) == ValueAt(tags, k) || ValueAt(next, k) == ValueAt(to, k)
  {
    if a.Sync? {
      var to := Target(tags, desired);
      RequestsAreDisjoint(tags, to);
      SendAtKey(tags, AddedPairs(tags, to), KeysToRemove(tags, to), a.add, a.del, k);
    }
  }

  lemma StepKeepsAWS(tags: map<string, string>, desired: map<string, string>, a: Attempt)
    ensures forall k | IsAWS(k) && k in tags :: ValueAt(Step(tags, desired, a), k) == ValueAt(tags, k)
    ensures Target(Step(tags, desired, a), desired) == Target(tags, desired)
  {
    var next, to := Step(tags, desired, a), Target(tags, desired);
    forall k | IsAWS(k) && k in tags
      ensures ValueAt(next, k) == ValueAt(tags, k)
    {
      assert k in AWSPart(tags);
      StepMovesTowards(tags, desired, a, k);
    }
    forall k
      ensures ValueAt(Target(next, desired), k) == ValueAt(to, k)
    {
      StepMovesTowards(tags, desired, a, k);
    }
    SameValues(Target(next, desired), to);
  }

  lemma SameValues(s: map<string, string>, t: map<string, string>)
    requires forall k :: ValueAt(s, k) == ValueAt(t, k)
    ensures s == t
  {
    forall k
      ensures k in s <==> k in t
      ensures k in s ==> k in t && s[k] == t[k]
    {
      assert ValueAt(s, k) == ValueAt(t, k);
    }
  }

  lemma StepShrinksDifference(tags: map<string, string>, desired: map<string, string>, a: Attempt)
    ensures Differing(Step(tags, desired, a), Target(tags, desired)) <= Differing(tags, Target(tags, desired))
  {
    forall k | k in Differing(Step(tags, desired, a), Target(tags, desired))
      ensures k in Differing(tags, Target(tags, desired))
    {
      StepMovesTowards(tags, desired, a, k);
    }
  }

  /** An attempt whose calls both succeed reaches the target at once. */
  lemma CleanStepReachesTarget(tags: map<string, string>, desired: map<string, string>, a: Attempt)
    requires Clean(a)
    ensures Step(tags, desired, a) == Target(tags, desired)
  {
    var to := Target(tags, desired);
    CleanSend(tags, AddedPairs(tags, to), KeysToRemove(tags, to));
    PairsReachTarget(tags, to);
  }

  /** Over any run of attempts, whatever fails and however much of a failed call was carried out: the
      keys that differ from the target only ever become fewer, every AWS tag keeps its value, the
      target stays the same, and from the first attempt without failures on the tags are exactly the
      target. */
  lemma {:induction false} RunConverges(tags: map<string, string>, desired: map<string, string>,
                                        attempts: seq<Attempt>, i: nat, j: nat)
    requires i <= j <= |attempts|
    ensures var states, to := Run(tags, desired, attempts), Target(tags, desired);
            && Target(states[j], desired) == to
            && Differing(states[j], to) <= Differing(states[i], to)
            && |Differing(states[j], to)| <= |Differing(states[i], to)|
            && (forall k | IsAWS(k) && k in states[i] :: ValueAt(states[j], k) == ValueAt(states[i], k))
            && ((exists n | 0 <= n < j :: Clean(attempts[n]))
                ==> states[j] == to)
    decreases |attempts|
  {
    if attempts == [] {
      return;
    }
    var next := Step(tags, desired, attempts[0]);
    var to := Target(tags, desired);
    var states := Run(tags, desired, attempts);
    var tail := Run(next, desired, attempts[1..]);
    assert forall n | 0 < n < |states| :: states[n] == tail[n - 1];
    StepKeepsAWS(tags, desired, attempts[0]);
    StepShrinksDifference(tags, desired, attempts[0]);
    if j > 0 {
      RunConverges(next, desired, attempts[1..], if i == 0 then 0 else i - 1, j - 1);
      assert Differing(states[j], to) <= Differing(states[i], to);
      SubsetSize(Differing(states[j], to), Differing(states[i], to));
      if Clean(attempts[0]) {
        CleanStepReachesTarget(tags, desired, attempts[0]);
        RunConverges(next, desired, attempts[1..], 0, j - 1);
        DifferingMapsDiffer(next, to);
        DifferingMapsDiffer(states[j], to);
      } else if exists n | 0 <= n < j :: Clean(attempts[n]) {
        var n :| 0 <= n < j && Clean(attempts[n]);
        assert attempts[1..][n - 1] == attempts[n];
      }
    }
  }

  lemma SubsetSize(s: set<string>, t: set<string>)
    requires s <= t
    ensures |s| <= |t|
  {
    assert t == s + (t - s);
  }
}
