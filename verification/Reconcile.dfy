/** `sdkUpdate` (sdk.go) and one pass of the reconciler over it. The reconciler itself is not part of
    the repository: its order of calls is taken to be read, compare, update. */
module Reconcile {
  import opened Basics
  import opened Resource
  import opened ResourceDelta
  import opened Service
  import opened TagLists
  import opened TagSync
  import Api
  import Builders
  import Comparison
  import Conditions
  import GroupShapes
  import RoundTrips
  import Wire

  // ---- the update step ----------------------------------------------------------------------

  predicate TagsReported(d: seq<Path>) {
    DifferentAt(d, At(Tags, Here))
  }

  predicate MoreReported(d: seq<Path>) {
    DifferentExcept(d, At(Tags, Here))
  }

  datatype Failure =
    | TagCallFailed(text: string)
    | NotInt32(field: GroupShapes.NumberField)
    | UpdateCallFailed(text: string)

  /** How the calls of one step end. */
  datatype Outcomes = Outcomes(add: TagOutcome, del: TagOutcome, update: UpdateOutcome)

  /** What a step leaves on the server, and the error it returns, if any. */
  datatype Effect = Effect(group: Wire.Group, tags: map<string, string>, err: Option<Failure>)

  function TagEffect(tags: map<string, string>, desired: Api.Spec, latest: Api.Spec, d: seq<Path>, o: Outcomes):
    (map<string, string>, Option<string>)
  {
    if TagsReported(d) then SyncEffect(tags, TagMap(latest.tags.Items()), TagMap(desired.tags.Items()), o.add, o.del)
    else (tags, None)
  }

  function GroupEffect(group: Wire.Group, tags: map<string, string>, desired: Api.Spec, o: UpdateOutcome): Effect {
    var misfit := GroupShapes.UpdateError(desired);
    if misfit.Some? then Effect(group, tags, Some(NotInt32(misfit.value)))
    else
      var known := desired.name == group.settings.name;
      var rejected := RequestError(known, o);
      Effect(if known && (o.Accepted? || o.applied) then RoundTrips.UpdatedGroup(group, desired) else group, tags,
             if rejected.None? then None else Some(UpdateCallFailed(rejected.value)))
  }

  /** Tags first; then, if anything else was reported, one update of the whole group. */
  function UpdateEffect(group: Wire.Group, tags: map<string, string>, desired: Api.Spec, latest: Api.Spec, d: seq<Path>,
                        o: Outcomes): Effect
  {
    var t := TagEffect(tags, desired, latest, d, o);
    if t.1.Some? then Effect(group, t.0, Some(TagCallFailed(t.1.value)))
    else if !MoreReported(d) then Effect(group, t.0, None)
    else GroupEffect(group, t.0, desired, o.update)
  }

  /** What the two questions to the report come down to. */
  lemma WhatIsReported(d: seq<Path>)
    ensures TagsReported(d) <==> exists i | 0 <= i < |d| :: d[i].At? && d[i].field == Tags
    ensures MoreReported(d) <==> exists i | 0 <= i < |d| :: !(d[i].At? && d[i].field == Tags)
  {
    assert forall i | 0 <= i < |d| :: Contains(d[i], At(Tags, Here)) <==> d[i].At? && d[i].field == Tags;
  }

  /** The errors exclude one another, and each says how far the step got: the tag call's error means that
      the group is untouched, and so does a number that does not fit; the group changes only when no tag
      call failed, something else was reported, every number fits, the service knows the name and the
      update was carried out. */
  lemma ErrorsTellHowFar(group: Wire.Group, tags: map<string, string>, desired: Api.Spec, latest: Api.Spec,
                         d: seq<Path>, o: Outcomes)
    ensures var e := UpdateEffect(group, tags, desired, latest, d, o);
            var sync := SyncEffect(tags, TagMap(latest.tags.Items()), TagMap(desired.tags.Items()), o.add, o.del);
            var sent := !(TagsReported(d) && sync.1.Some?) && MoreReported(d) && GroupShapes.SettingsFit(desired);
            && e.tags == (if TagsReported(d) then sync.0 else tags)
            && (forall x :: e.err == Some(TagCallFailed(x)) <==> TagsReported(d) && sync.1 == Some(x))
            && (forall f :: e.err == Some(NotInt32(f)) <==>
                  !(TagsReported(d) && sync.1.Some?) && MoreReported(d) && GroupShapes.UpdateError(desired) == Some(f))
            && (forall x :: e.err == Some(UpdateCallFailed(x)) <==>
                  && sent
                  && if desired.name == group.settings.name then o.update.Rejected? && x == o.update.error
                     else x == GROUP_NOT_FOUND)
            && (e.group == if sent && desired.name == group.settings.name
                              && (o.update.Accepted? || o.update.applied)
                           then RoundTrips.UpdatedGroup(group, desired) else group)
  {
    hide SyncEffect, TagMap, TagsReported, MoreReported, GroupShapes.SettingsFit, GroupShapes.UpdateError,
         RoundTrips.UpdatedGroup, GROUP_NOT_FOUND;
    var misfit := GroupShapes.UpdateError(desired);
    assert misfit.Some? ==> GroupEffect(group, tags, desired, o.update).err == Some(NotInt32(misfit.value));
  }

  /** The update of the group and the copy that answers it. */
  method SendUpdate(service: AutoScalingService, desired: AutoScalingGroup, o: UpdateOutcome, region: string,
                    account: string, ghost before: seq<ConditionView>)
    returns (updated: AutoScalingGroup?, err: Option<Failure>)
    requires GroupShapes.SettingsFilled(desired.spec) && desired.ConditionViews() == before
    modifies service`group, service`updateCalls
    ensures service.updateCalls == old(service.updateCalls) + if GroupShapes.SettingsFit(desired.spec) then 1 else 0
    ensures Effect(service.group, service.tags, err) == GroupEffect(old(service.group), service.tags, desired.spec, o)
    ensures updated != null <==> err.None?
    ensures updated != null ==>
              && fresh(updated) && fresh(updated.Pointers())
              && updated.spec == desired.spec && updated.namespace == desired.namespace
              && updated.metadata == Some(Conditions.WithDefaults(desired.metadata, region, account))
              && updated.ConditionViews() == before
  {
    hide RoundTrips.UpdatedGroup, GroupShapes.SettingsFit, GroupShapes.SettingsFilled, GroupShapes.Updated,
         GroupShapes.UpdateInputOf, GroupShapes.UpdateError;
    var input := Builders.NewUpdateRequestPayload(desired.spec);
    if input.Err? {
      return null, Some(NotInt32(input.error));
    }
    UpdatedGroupIs(service.group, desired.spec);
    var rejected := service.UpdateAutoScalingGroup(input.value, o);
    if rejected.Some? {
      return null, Some(UpdateCallFailed(rejected.value));
    }
    updated := CopyWithDefaults(desired, region, account, before);
    err := None;
  }

  method CopyWithDefaults(desired: AutoScalingGroup, region: string, account: string, ghost before: seq<ConditionView>)
    returns (ko: AutoScalingGroup)
    requires desired.ConditionViews() == before
    ensures fresh(ko) && fresh(ko.Pointers())
    ensures ko.spec == desired.spec && ko.namespace == desired.namespace
    ensures ko.metadata == Some(Conditions.WithDefaults(desired.metadata, region, account))
    ensures ko.ConditionViews() == before
  {
    ko := desired.DeepCopy();
    Conditions.SetStatusDefaults(ko, region, account);
  }

  lemma UpdatedGroupIs(g: Wire.Group, d: Api.Spec)
    ensures RoundTrips.UpdatedGroup(g, d) == GroupShapes.Updated(g, GroupShapes.UpdateInputOf(d))
    ensures GroupShapes.UpdateInputOf(d).settings.name == d.name
  {
  }

  /** Tags, then the group: what is called and what it leaves behind. */
  method RunUpdate(service: AutoScalingService, desired: AutoScalingGroup, latest: AutoScalingGroup,
                   delta: Comparison.Delta, o: Outcomes, region: string, account: string)
    returns (updated: AutoScalingGroup?, err: Option<Failure>)
    requires TagsReported(delta.differences) ==> latest.spec.name.Some?
    requires MoreReported(delta.differences) ==> GroupShapes.SettingsFilled(desired.spec)
    modifies service
    ensures Effect(service.group, service.tags, err)
            == UpdateEffect(old(service.group), old(service.tags), desired.spec, latest.spec, delta.differences, o)
    ensures service.updateCalls
            == old(service.updateCalls)
               + if MoreReported(delta.differences) && GroupShapes.SettingsFit(desired.spec)
                    && TagEffect(old(service.tags), desired.spec, latest.spec, delta.differences, o).1.None?
                 then 1 else 0
    ensures service.tagCalls
            == old(service.tagCalls)
               + if TagsReported(delta.differences)
                 then CallsMade(TagMap(latest.spec.tags.Items()), TagMap(desired.spec.tags.Items()), o.add) else 0
    ensures updated != null <==> err.None?
    ensures updated != null ==> fresh(updated) && updated.spec == desired.spec && updated.namespace == desired.namespace
    ensures updated != null ==>
              if MoreReported(delta.differences)
              then && fresh(updated.Pointers())
                   && updated.metadata == Some(Conditions.WithDefaults(desired.metadata, region, account))
                   && updated.ConditionViews() == old(desired.ConditionViews())
              else updated.conditions == latest.conditions && updated.metadata == latest.metadata
  {
    hide SyncEffect, GroupEffect, GroupShapes.SettingsFilled, GroupShapes.SettingsFit, DifferentAt, DifferentExcept,
         TagMap, CallsMade, Conditions.WithDefaults, RequestError, RoundTrips.UpdatedGroup, GroupShapes.UpdateError;
    ghost var before := desired.ConditionViews();
    var updatedDesired := desired.DeepCopy();
    updatedDesired.SetStatus(latest);
    if DifferentAt(delta.differences, At(Tags, Here)) {
      var failed := TagSync.Tags(service, desired.spec.tags.Items(), latest.spec.tags.Items(), o.add, o.del);
      if failed.Some? {
        return null, Some(TagCallFailed(failed.value));
      }
    }
    if !DifferentExcept(delta.differences, At(Tags, Here)) {
      return updatedDesired, None;
    }
    updated, err := SendUpdate(service, desired, o.update, region, account, before);
  }

  /** `sdkUpdate` dereferences the latest name when it syncs tags, and the slots of the desired nest
      when it builds the request. */
  method SdkUpdate(service: AutoScalingService, desired: AutoScalingGroup, latest: AutoScalingGroup,
                   delta: Comparison.Delta, o: Outcomes, region: string, account: string)
    returns (updated: AutoScalingGroup?, err: Option<Failure>)
    requires TagsReported(delta.differences) ==> latest.spec.name.Some?
    requires MoreReported(delta.differences) ==> GroupShapes.SettingsFilled(desired.spec)
    modifies service
    ensures Effect(service.group, service.tags, err)
            == UpdateEffect(old(service.group), old(service.tags), desired.spec, latest.spec, delta.differences, o)
    ensures forall x :: err == Some(TagCallFailed(x)) <==>
                          && TagsReported(delta.differences)
                          && SyncEffect(old(service.tags), TagMap(latest.spec.tags.Items()),
                                        TagMap(desired.spec.tags.Items()), o.add, o.del).1 == Some(x)
    ensures err.Some? && !err.value.UpdateCallFailed? ==>
              service.group == old(service.group) && service.updateCalls == old(service.updateCalls)
    ensures !MoreReported(delta.differences) ==>
              service.group == old(service.group) && service.updateCalls == old(service.updateCalls)
    ensures MoreReported(delta.differences) && (err.None? || err.value.UpdateCallFailed?) ==>
              service.updateCalls == old(service.updateCalls) + 1
    ensures service.tagCalls
            == old(service.tagCalls)
               + if TagsReported(delta.differences)
                 then CallsMade(TagMap(latest.spec.tags.Items()), TagMap(desired.spec.tags.Items()), o.add) else 0
    ensures updated != null <==> err.None?
    ensures updated != null ==> fresh(updated) && updated.spec == desired.spec && updated.namespace == desired.namespace
    ensures updated != null ==>
              if MoreReported(delta.differences)
              then && fresh(updated.Pointers())
                   && updated.metadata == Some(Conditions.WithDefaults(desired.metadata, region, account))
                   && updated.ConditionViews() == old(desired.ConditionViews())
              else updated.conditions == latest.conditions && updated.metadata == latest.metadata
  {
    hide SyncEffect, UpdateEffect, GroupShapes.SettingsFilled, GroupShapes.SettingsFit, TagsReported, MoreReported,
         TagMap, CallsMade, Conditions.WithDefaults, RoundTrips.UpdatedGroup, GroupShapes.UpdateError;
    ErrorsTellHowFar(service.group, service.tags, desired.spec, latest.spec, delta.differences, o);
    updated, err := RunUpdate(service, desired, latest, delta, o, region, account);
  }
}
