/** Whole passes of the reconciler: read and mirror, compare, update, and read again. */
module Passes {
  import opened Basics
  import opened Codec
  import opened Reconcile
  import opened Resource
  import opened ResourceDelta
  import opened RoundTrips
  import opened Service
  import opened TagLists
  import opened TagPipeline
  import opened TagSync
  import Api
  import Comparison
  import Conditions
  import GroupShapes
  import Reading
  import Wire

  /** The service describes the stored group, with its tags in any list that stands for them. */
  predicate Describes(answer: Wire.Group, group: Wire.Group, tags: map<string, string>) {
    answer == group.(tags := answer.tags) && TagMap(answer.tags.Items()) == tags
  }

  // ---- tags ---------------------------------------------------------------------------------

  /** The comparison reports the tags exactly when the sync that would follow makes a call. */
  lemma TagsReportedIffCalled(d: Api.Spec, latest: Api.Spec, eq: StringsEq)
    ensures TagsReported(SpecDelta(d, latest, eq)) <==> TagMap(d.tags.Items()) != TagMap(latest.tags.Items())
    ensures TagsReported(SpecDelta(d, latest, eq)) <==>
              CallsNeeded(TagMap(latest.tags.Items()), TagMap(d.tags.Items())) > 0
  {
    var delta := SpecDelta(d, latest, eq);
    var p := At(Tags, Here);
    CallsIffTagsDiffer(TagMap(latest.tags.Items()), TagMap(d.tags.Items()));
    Reported(d, latest, eq, p);
    OnlyTagsContainTags(d, latest, eq);
    hide SpecDelta, FieldDelta;
    if p in delta {
      var i :| 0 <= i < |delta| && delta[i] == p;
      assert Contains(delta[i], p);
    }
    if TagsReported(delta) {
      var i :| 0 <= i < |delta| && Contains(delta[i], p);
      assert delta[i] in delta;
    }
  }

  lemma TagsDelta(d: Api.Spec, latest: Api.Spec, eq: StringsEq)
    ensures FieldDelta(Tags, d, latest, eq)
            == Report(TagMap(d.tags.Items()) != TagMap(latest.tags.Items()), At(Tags, Here))
  {
  }

  lemma OnlyTagsContainTags(d: Api.Spec, latest: Api.Spec, eq: StringsEq)
    ensures forall q | q in SpecDelta(d, latest, eq) :: Contains(q, At(Tags, Here)) <==> q == At(Tags, Here)
    ensures At(Tags, Here) in FieldDelta(Tags, d, latest, eq) <==> TagMap(d.tags.Items()) != TagMap(latest.tags.Items())
  {
    TagsDelta(d, latest, eq);
    hide SpecDelta, FieldDelta, TagMap;
    forall q | q in SpecDelta(d, latest, eq)
      ensures Contains(q, At(Tags, Here)) <==> q == At(Tags, Here)
    {
      Reported(d, latest, eq, q);
    }
  }

  /** A sync that reports success has reached its target, whichever calls it needed. */
  lemma SuccessReachesTarget(tags: map<string, string>, to: map<string, string>, add: TagOutcome, del: TagOutcome)
    requires SyncEffect(tags, tags, to, add, del).1.None?
    ensures SyncEffect(tags, tags, to, add, del).0 == to
  {
    var added, removed := AddedPairs(tags, to), KeysToRemove(tags, to);
    PairsReachTarget(tags, to);
    assert added == map[] ==> tags + added == tags;
    assert removed == {} ==> (tags + added) - removed == tags + added;
  }

  lemma NothingToSync(tags: map<string, string>, add: TagOutcome, del: TagOutcome)
    ensures SyncEffect(tags, tags, tags, add, del) == (tags, None)
  {
    assert AddedPairs(tags, tags) == map[];
    assert KeysToRemove(tags, tags) == {};
  }

  // ---- one pass -----------------------------------------------------------------------------

  /** The desired spec once the AWS tags of the service are mirrored into it. */
  predicate MirroredInto(d: Api.Spec, d0: Api.Spec, tags: map<string, string>) {
    d == d0.(tags := d.tags) && TagMap(d.tags.Items()) == Mirrored(TagMap(d0.tags.Items()), tags)
  }

  /** What a pass leaves on the server. */
  function PassEffect(group: Wire.Group, tags: map<string, string>, d: Api.Spec, answer: Wire.Group, eq: StringsEq,
                      o: Outcomes): Effect
  {
    var latest := GroupShapes.Found(d, answer);
    UpdateEffect(group, tags, d, latest, SpecDelta(d, latest, eq), o)
  }

  lemma PassDoesTagsFirst(group: Wire.Group, tags: map<string, string>, d: Api.Spec, answer: Wire.Group, eq: StringsEq,
                          o: Outcomes)
    ensures var latest := GroupShapes.Found(d, answer);
            var t := TagEffect(tags, d, latest, SpecDelta(d, latest, eq), o);
            && PassEffect(group, tags, d, answer, eq, o).tags == t.0
            && (PassEffect(group, tags, d, answer, eq, o).err.None? ==> t.1.None?)
  {
    hide GroupShapes.Found, SpecDelta, TagEffect, MoreReported;
  }

  lemma TagsAfterPass(group: Wire.Group, tags: map<string, string>, d: Api.Spec, answer: Wire.Group, eq: StringsEq,
                      o: Outcomes)
    requires Describes(answer, group, tags)
    ensures PassEffect(group, tags, d, answer, eq, o).tags
            == SyncEffect(tags, tags, TagMap(d.tags.Items()), o.add, o.del).0
    ensures PassEffect(group, tags, d, answer, eq, o).err.None? ==>
              PassEffect(group, tags, d, answer, eq, o).tags == TagMap(d.tags.Items())
  {
    var latest := GroupShapes.Found(d, answer);
    var to := TagMap(d.tags.Items());
    assert latest.tags == answer.tags;
    hide GroupShapes.Found, SpecDelta, SyncEffect, TagsReported, PassEffect;
    PassDoesTagsFirst(group, tags, d, answer, eq, o);
    TagsReportedIffCalled(d, latest, eq);
    if TagsReported(SpecDelta(d, latest, eq)) {
      if SyncEffect(tags, tags, to, o.add, o.del).1.None? {
        SuccessReachesTarget(tags, to, o.add, o.del);
      }
    } else {
      NothingToSync(tags, o.add, o.del);
    }
  }

  /** Whatever fails, a pass moves the tags by one step of the tag protocol. */
  lemma PassIsATagStep(group: Wire.Group, tags: map<string, string>, d0: Api.Spec, d: Api.Spec, answer: Wire.Group,
                       eq: StringsEq, o: Outcomes)
    requires Describes(answer, group, tags) && MirroredInto(d, d0, tags)
    ensures PassEffect(group, tags, d, answer, eq, o).tags == Step(tags, TagMap(d0.tags.Items()), Sync(o.add, o.del))
  {
    TagsAfterPass(group, tags, d, answer, eq, o);
  }

  // ---- what is left after it ----------------------------------------------------------------

  /** Without further reports, every field but the tags agrees. */
  lemma QuietFieldsAgree(d: Api.Spec, latest: Api.Spec, eq: StringsEq)
    requires !MoreReported(SpecDelta(d, latest, eq))
    ensures forall f | f != Tags :: Agree(f, d, latest, eq)
  {
    hide SpecDelta, FieldDelta;
    var delta := SpecDelta(d, latest, eq);
    forall f | f != Tags
      ensures Agree(f, d, latest, eq)
    {
      var part := FieldDelta(f, d, latest, eq);
      if part != [] {
        var p := part[0];
        PartsLieAtTheirField(f, d, latest, eq, p);
        Reported(d, latest, eq, p);
      }
    }
  }

  lemma PartsLieAtTheirField(f: Field, d: Api.Spec, latest: Api.Spec, eq: StringsEq, p: Path)
    requires p in FieldDelta(f, d, latest, eq)
    ensures p.At? && p.field == f
  {
    hide FieldDelta;
    FieldShape(f, d, latest, eq);
  }

  lemma SameButTags(f: Field, d: Api.Spec, g: Wire.Group, h: Wire.Group)
    requires f != Tags && h == g.(tags := h.tags)
    ensures Same(f, GroupShapes.Found(d, g), GroupShapes.Found(d, h))
  {
    assert GroupShapes.Found(d, h) == GroupShapes.Found(d, g).(tags := h.tags);
    hide GroupShapes.Found;
  }

  /** Two listings of the same tags read alike. */
  lemma SameReportButTags(f: Field, d: Api.Spec, g: Wire.Group, h: Wire.Group, eq: StringsEq)
    requires f != Tags && h == g.(tags := h.tags)
    ensures FieldDelta(f, d, GroupShapes.Found(d, g), eq) == FieldDelta(f, d, GroupShapes.Found(d, h), eq)
  {
    hide GroupShapes.Found, FieldDelta, Same;
    SameButTags(f, d, g, h);
    DeltaIsLocal(f, d, GroupShapes.Found(d, g), GroupShapes.Found(d, h), eq);
  }

  lemma AfterTheUpdate(f: Field, d: Api.Spec, group: Wire.Group, answer: Wire.Group, next: Wire.Group, eq: StringsEq)
    requires GroupShapes.SettingsFit(d) && GroupShapes.SettingsFilled(d) && d.name == group.settings.name
    requires answer == group.(tags := answer.tags)
    requires next == UpdatedGroup(group, d).(tags := next.tags) && TagMap(next.tags.Items()) == TagMap(d.tags.Items())
    ensures Sent(f, d) ==> (Agree(f, d, GroupShapes.Found(d, next), eq) <==> Survives(f, d, eq))
    ensures !Sent(f, d) ==>
              FieldDelta(f, d, GroupShapes.Found(d, next), eq)
              == if Unsettled(f, d) then FieldDelta(f, d, GroupShapes.Found(d, answer), eq) else []
  {
    var g := group.(tags := next.tags);
    assert UpdatedGroup(g, d) == next;
    hide UpdatedGroup, GroupShapes.Found, FieldDelta, Survives, GroupShapes.SettingsFit, GroupShapes.SettingsFilled,
         Sent, Unsettled, TagMap;
    if Sent(f, d) {
      UpdateDecidesDelta(f, d, g, eq);
    } else {
      UnsettledAfterUpdate(f, d, g, eq);
      FieldsArePartitioned(f, d);
      if f != Tags {
        SameReportButTags(f, d, answer, g, eq);
      }
    }
  }

  lemma WithoutAnUpdate(f: Field, d: Api.Spec, group: Wire.Group, answer: Wire.Group, next: Wire.Group, eq: StringsEq)
    requires answer == group.(tags := answer.tags) && next == group.(tags := next.tags)
    requires TagMap(next.tags.Items()) == TagMap(d.tags.Items())
    requires !MoreReported(SpecDelta(d, GroupShapes.Found(d, answer), eq))
    ensures FieldDelta(f, d, GroupShapes.Found(d, next), eq) == []
    ensures f != Tags ==> FieldDelta(f, d, GroupShapes.Found(d, answer), eq) == []
  {
    assert GroupShapes.Found(d, next).tags == next.tags;
    hide GroupShapes.Found, FieldDelta, SpecDelta, MoreReported;
    QuietFieldsAgree(d, GroupShapes.Found(d, answer), eq);
    if f == Tags {
      TagsDelta(d, GroupShapes.Found(d, next), eq);
    } else {
      assert Agree(f, d, GroupShapes.Found(d, answer), eq);
      SameReportButTags(f, d, answer, next, eq);
    }
  }

  lemma GroupAfterPass(group: Wire.Group, tags: map<string, string>, d: Api.Spec, answer: Wire.Group, eq: StringsEq,
                       o: Outcomes)
    requires PassEffect(group, tags, d, answer, eq, o).err.None?
    ensures var delta := SpecDelta(d, GroupShapes.Found(d, answer), eq);
            && (MoreReported(delta) ==> GroupShapes.SettingsFit(d))
            && PassEffect(group, tags, d, answer, eq, o).group
               == if MoreReported(delta) then UpdatedGroup(group, d) else group
  {
    hide GroupShapes.Found, SpecDelta, TagEffect, MoreReported, UpdatedGroup, GroupShapes.SettingsFit;
  }

  /** When no call fails, a pass succeeds unless it calls for an update that cannot be encoded, and then
      the error names the first number that does not fit. */
  lemma PassWithoutFailures(group: Wire.Group, tags: map<string, string>, d: Api.Spec, answer: Wire.Group,
                            eq: StringsEq, o: Outcomes)
    requires d.name == group.settings.name
    requires o.add.Succeeds? && o.del.Succeeds? && o.update.Accepted?
    ensures var more, err := MoreReported(SpecDelta(d, GroupShapes.Found(d, answer), eq)),
                             PassEffect(group, tags, d, answer, eq, o).err;
            && (err.None? <==> !more || GroupShapes.SettingsFit(d))
            && (err.Some? ==>
                  GroupShapes.UpdateError(d).Some? && err == Some(NotInt32(GroupShapes.UpdateError(d).value)))
  {
    hide GroupShapes.Found, SpecDelta, TagsReported, MoreReported, UpdatedGroup, GroupShapes.SettingsFit,
         GroupShapes.UpdateError, TagMap;
  }

  /** After a successful pass and a new read, every field is decided. A field that was sent agrees
      exactly when its value survives the trip or nothing called for an update; an unset field, and the
      three that an update request leaves out, are reported as before; and every other field agrees. */
  lemma PassSettles(f: Field, group: Wire.Group, tags: map<string, string>, d: Api.Spec, answer: Wire.Group,
                    eq: StringsEq, o: Outcomes, next: Wire.Group)
    requires Describes(answer, group, tags) && d.name == group.settings.name && GroupShapes.SettingsFilled(d)
    requires var e := PassEffect(group, tags, d, answer, eq, o); e.err.None? && Describes(next, e.group, e.tags)
    ensures Sent(f, d) ==>
              (Agree(f, d, GroupShapes.Found(d, next), eq) <==>
               Survives(f, d, eq) || !MoreReported(SpecDelta(d, GroupShapes.Found(d, answer), eq)))
    ensures !Sent(f, d) ==>
              FieldDelta(f, d, GroupShapes.Found(d, next), eq)
              == if Unsettled(f, d) then FieldDelta(f, d, GroupShapes.Found(d, answer), eq) else []
  {
    hide GroupShapes.Found, FieldDelta, SpecDelta, MoreReported, PassEffect, UpdatedGroup, TagMap, Unsettled,
         Survives, Sent, GroupShapes.SettingsFilled, GroupShapes.SettingsFit;
    TagsAfterPass(group, tags, d, answer, eq, o);
    GroupAfterPass(group, tags, d, answer, eq, o);
    FieldsArePartitioned(f, d);
    if MoreReported(SpecDelta(d, GroupShapes.Found(d, answer), eq)) {
      AfterTheUpdate(f, d, group, answer, next, eq);
    } else {
      WithoutAnUpdate(f, d, group, answer, next, eq);
    }
  }

  /** After a successful pass and a new read, in whatever order the tags are listed, exactly those
      paths are reported that were reported before the pass and lie at fields it cannot settle: unset
      ones, and the three that an update request leaves out. */
  lemma PassConverges(group: Wire.Group, tags: map<string, string>, d: Api.Spec, answer: Wire.Group, eq: StringsEq,
                      o: Outcomes, next: Wire.Group, p: Path)
    requires Describes(answer, group, tags) && d.name == group.settings.name && GroupShapes.SettingsFilled(d)
    requires forall f | Sent(f, d) :: Survives(f, d, eq)
    requires var e := PassEffect(group, tags, d, answer, eq, o); e.err.None? && Describes(next, e.group, e.tags)
    ensures p in SpecDelta(d, GroupShapes.Found(d, next), eq) <==>
              p.At? && Unsettled(p.field, d) && p in SpecDelta(d, GroupShapes.Found(d, answer), eq)
  {
    hide GroupShapes.Found, FieldDelta, SpecDelta, PassEffect, TagMap, Unsettled, Survives, Sent,
         GroupShapes.SettingsFilled, Describes;
    Reported(d, GroupShapes.Found(d, next), eq, p);
    Reported(d, GroupShapes.Found(d, answer), eq, p);
    if p.At? {
      PassSettles(p.field, group, tags, d, answer, eq, o, next);
      FieldsArePartitioned(p.field, d);
    }
  }

  // ---- the next pass ------------------------------------------------------------------------

  /** Mirroring tags that are mirrored already leaves the list as it is, order and all. */
  lemma MirrorIsStable(m: map<string, string>, order: seq<string>, rest: seq<string>, l: seq<Api.Tag>,
                       rest': seq<string>, out: seq<Api.Tag>)
    requires Listing(m, order, rest, l)
    requires Listing(Mirrored(TagMap(l), m), KeyOrder(l), rest', out)
    ensures out == l
  {
    hide TagMap, KeyOrder, FirstOccurrences;
    var keys := FirstOccurrences(order, m.Keys) + rest;
    ListingStandsForMap(m, order, rest, l);
    assert Mirrored(m, m) == m;
    ListMapList(l, rest', out);
    ListedKeys(m, order, rest);
    assert forall k | k in keys :: k in Members(keys);
    FirstOccurrencesOfDistinct(keys, m.Keys);
    assert keys + [] == keys;
  }

  lemma EmptyReportsNoMore(d: Api.Spec, latest: Api.Spec, eq: StringsEq)
    requires forall f :: FieldDelta(f, d, latest, eq) == []
    ensures !MoreReported(SpecDelta(d, latest, eq))
  {
    hide FieldDelta, SpecDelta;
    assert forall f :: Agree(f, d, latest, eq);
    EmptyDelta(d, latest, eq);
  }

  /** A pass that succeeded is final: whatever the outcomes of the next one, and whatever it still
      reports, it leaves group and tags as they are. */
  lemma NextPassChangesNothing(group: Wire.Group, tags: map<string, string>, d: Api.Spec, answer: Wire.Group,
                               eq: StringsEq,
                               o: Outcomes, next: Wire.Group, o': Outcomes)
    requires Describes(answer, group, tags)
    requires var e := PassEffect(group, tags, d, answer, eq, o); e.err.None? && Describes(next, e.group, e.tags)
    ensures var e := PassEffect(group, tags, d, answer, eq, o);
            var e' := PassEffect(e.group, e.tags, d, next, eq, o');
            e'.group == e.group && e'.tags == e.tags
  {
    var e := PassEffect(group, tags, d, answer, eq, o);
    TagsAfterPass(group, tags, d, answer, eq, o);
    TagsAfterPass(e.group, e.tags, d, next, eq, o');
    NothingToSync(e.tags, o'.add, o'.del);
    GroupAfterPass(group, tags, d, answer, eq, o);
    GroupOfPass(e.group, e.tags, d, next, eq, o');
    hide GroupShapes.Found, FieldDelta, SpecDelta, MoreReported, PassEffect, UpdatedGroup, TagMap,
         GroupShapes.SettingsFit;
    if MoreReported(SpecDelta(d, GroupShapes.Found(d, answer), eq)) {
      UpdateIsIdempotent(d, group);
    } else {
      forall f
        ensures FieldDelta(f, d, GroupShapes.Found(d, next), eq) == []
      {
        WithoutAnUpdate(f, d, group, answer, next, eq);
      }
      EmptyReportsNoMore(d, GroupShapes.Found(d, next), eq);
    }
  }

  lemma GroupOfPass(group: Wire.Group, tags: map<string, string>, d: Api.Spec, answer: Wire.Group, eq: StringsEq,
                    o: Outcomes)
    ensures var e := PassEffect(group, tags, d, answer, eq, o);
            || e.group == group
            || (MoreReported(SpecDelta(d, GroupShapes.Found(d, answer), eq)) && e.group == UpdatedGroup(group, d))
  {
    hide GroupShapes.Found, SpecDelta, TagEffect, MoreReported, UpdatedGroup, GroupShapes.SettingsFit;
  }

  lemma QuietPass(group: Wire.Group, tags: map<string, string>, d: Api.Spec, answer: Wire.Group, eq: StringsEq,
                  o: Outcomes)
    requires SpecDelta(d, GroupShapes.Found(d, answer), eq) == []
    ensures PassEffect(group, tags, d, answer, eq, o) == Effect(group, tags, None)
  {
    hide GroupShapes.Found, SpecDelta;
  }

  /** A group that was just created from a tidy spec is left alone: whatever the order in which its
      tags are listed, the pass after the create reports nothing, succeeds and leaves group and tags as they are. */
  lemma CreatedGroupIsLeftAlone(d: Api.Spec, arn: Option<string>, tags: Slice<Api.Tag>, listed: Slice<Api.Tag>,
                                eq: StringsEq,
                                o: Outcomes)
    requires GroupShapes.CreateFits(d) && GroupShapes.CreateFilled(d) && Reflexive(eq) && Tidy(d)
    requires TagMap(listed.Items()) == TagMap(d.tags.Items())
    ensures var group := GroupShapes.Echo(GroupShapes.CreateInputOf(d), arn, tags);
            var answer := group.(tags := listed);
            && SpecDelta(d, GroupShapes.Found(d, answer), eq) == []
            && PassEffect(group, TagMap(d.tags.Items()), d, answer, eq, o)
               == Effect(group, TagMap(d.tags.Items()), None)
  {
    var group := GroupShapes.Echo(GroupShapes.CreateInputOf(d), arn, tags);
    var answer := group.(tags := listed);
    assert CreatedAndRead(d, arn, listed) == GroupShapes.Found(d, answer) by {
      hide GroupShapes.Found, GroupShapes.CreateInputOf;
    }
    hide GroupShapes.Found, SpecDelta, PassEffect, GroupShapes.Echo, CreatedAndRead, TagMap;
    TidySpecsRoundTrip(d, arn, listed, eq);
    QuietPass(group, TagMap(d.tags.Items()), d, answer, eq, o);
  }

  // ---- a pass as code -----------------------------------------------------------------------

  lemma ReadIgnoresTags(d0: Api.Spec, d: Api.Spec, answer: Wire.Group)
    requires d == d0.(tags := d.tags)
    ensures GroupShapes.Found(d0, answer) == GroupShapes.Found(d, answer)
    ensures d.name == d0.name && d.mixedInstancesPolicy == d0.mixedInstancesPolicy
    ensures GroupShapes.Found(d, answer).name == answer.settings.name
  {
  }

  method Observe(desired: AutoScalingGroup, answer: Wire.Group, notFound: Conditions.Error, region: string,
                 account: string)
    returns (latest: AutoScalingGroup)
    requires desired.spec.name.Some?
    modifies desired`spec
    ensures MirroredInto(desired.spec, old(desired.spec), TagMap(answer.tags.Items()))
    ensures latest.spec == GroupShapes.Found(desired.spec, answer)
  {
    hide GroupShapes.Found, TagMap, KeyOrder;
    ghost var d0 := desired.spec;
    var observed, _, rest, out := Reading.ReadOne(desired, Reading.Groups([answer]), notFound, region, account);
    ListingStandsForMap(Mirrored(TagMap(d0.tags.Items()), TagMap(answer.tags.Items())), KeyOrder(d0.tags.Items()), rest,
                        out);
    ReadIgnoresTags(d0, desired.spec, answer);
    latest := observed;
  }

  /** Read and mirror, compare, and update if there is anything to report. */
  method Pass(service: AutoScalingService, desired: AutoScalingGroup, answer: Wire.Group, eq: StringsEq,
              notFound: Conditions.Error, region: string, account: string, o: Outcomes)
    returns (delta: Comparison.Delta, err: Option<Failure>)
    requires Describes(answer, service.group, service.tags)
    requires desired.spec.name.Some? && desired.spec.name == service.group.settings.name
    requires MixedFilled(desired.spec.mixedInstancesPolicy)
    modifies service, desired`spec
    ensures MirroredInto(desired.spec, old(desired.spec), old(service.tags))
    ensures delta.differences == SpecDelta(desired.spec, GroupShapes.Found(desired.spec, answer), eq)
    ensures Effect(service.group, service.tags, err)
            == PassEffect(old(service.group), old(service.tags), desired.spec, answer, eq, o)
  {
    hide GroupShapes.Found, SpecDelta, TagMap, MixedFilled, UpdateEffect, TagsReported, MoreReported;
    ghost var d0 := desired.spec;
    var latest := Observe(desired, answer, notFound, region, account);
    ReadIgnoresTags(d0, desired.spec, answer);
    delta := Comparison.NewResourceDelta(desired, latest, eq);
    if delta.differences == [] {
      QuietPass(service.group, service.tags, desired.spec, answer, eq, o);
      return delta, None;
    }
    var _, failed := SdkUpdate(service, desired, latest, delta, o, region, account);
    err := failed;
  }
}
