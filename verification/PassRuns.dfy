/** Runs of passes from one desired spec: the server is read, mirrored, compared and updated over and
    over, with any failure at any call, until and after a pass succeeds. */
module PassRuns {
  import opened Basics
  import opened Passes
  import opened Reconcile
  import opened ResourceDelta
  import opened RoundTrips
  import opened TagLists
  import opened TagPipeline
  import Api
  import GroupShapes
  import TagSync
  import Wire

  /** The stored group and its tags. */
  datatype Server = Server(group: Wire.Group, tags: map<string, string>)

  /** One reconciliation of the same custom resource. Either its read fails; or the service lists the
      tags in some order, the list is mirrored into the desired one in some order, and the calls end
      somehow. */
  datatype Attempt = ReadFailed | Try(listed: Slice<Api.Tag>, mirrored: Slice<Api.Tag>, o: Outcomes)

  /** The listing stands for the server's tags, and the mirrored list for what mirroring them gives. */
  predicate Possible(d0: Api.Spec, s: Server, a: Attempt) {
    a.Try? ==>
      && TagMap(a.listed.Items()) == s.tags
      && TagMap(a.mirrored.Items()) == Mirrored(TagMap(d0.tags.Items()), s.tags)
  }

  function AttemptEffect(d0: Api.Spec, s: Server, a: Attempt, eq: StringsEq): Effect
    requires a.Try?
  {
    PassEffect(s.group, s.tags, d0.(tags := a.mirrored), s.group.(tags := a.listed), eq, a.o)
  }

  predicate Succeeds(d0: Api.Spec, s: Server, a: Attempt, eq: StringsEq) {
    a.Try? && AttemptEffect(d0, s, a, eq).err.None?
  }

  function Next(d0: Api.Spec, s: Server, a: Attempt, eq: StringsEq): Server {
    if a.ReadFailed? then s
    else
      var e := AttemptEffect(d0, s, a, eq);
      Server(e.group, e.tags)
  }

  /** The states of the server, first to last. */
  function Servers(d0: Api.Spec, s: Server, attempts: seq<Attempt>, eq: StringsEq): (servers: seq<Server>)
    ensures |servers| == |attempts| + 1 && servers[0] == s
    decreases |attempts|
  {
    if attempts == [] then [s] else [s] + Servers(d0, Next(d0, s, attempts[0], eq), attempts[1..], eq)
  }

  predicate PossibleRun(d0: Api.Spec, s: Server, attempts: seq<Attempt>, eq: StringsEq)
    decreases |attempts|
  {
    attempts == [] ||
    (Possible(d0, s, attempts[0]) && PossibleRun(d0, Next(d0, s, attempts[0], eq), attempts[1..], eq))
  }

  // ---- the order of the mirrored list -------------------------------------------------------

  lemma SameButDesiredTags(f: Field, d: Api.Spec, d': Api.Spec, latest: Api.Spec, eq: StringsEq)
    requires d' == d.(tags := d'.tags) && TagMap(d'.tags.Items()) == TagMap(d.tags.Items())
    ensures FieldDelta(f, d', latest, eq) == FieldDelta(f, d, latest, eq)
  {
    hide TagMap, SameStrings, ZonesDelta, ImpairmentDelta, ReservationDelta, LifecycleDelta, MaintenanceDelta,
         MixedDelta;
  }

  lemma SameReport(d: Api.Spec, d': Api.Spec, latest: Api.Spec, eq: StringsEq)
    requires d' == d.(tags := d'.tags) && TagMap(d'.tags.Items()) == TagMap(d.tags.Items())
    ensures SpecDelta(d', latest, eq) == SpecDelta(d, latest, eq)
  {
    hide FieldDelta, Joined, TagMap;
    forall f
      ensures Part(d', latest, eq)(f) == Part(d, latest, eq)(f)
    {
      SameButDesiredTags(f, d, d', latest, eq);
    }
    SameParts(FIELD_COUNT, Part(d', latest, eq), Part(d, latest, eq));
  }

  lemma UpdateIgnoresTags(g: Wire.Group, d: Api.Spec, tags: Slice<Api.Tag>)
    ensures UpdatedGroup(g, d.(tags := tags)) == UpdatedGroup(g, d)
    ensures GroupShapes.UpdateError(d.(tags := tags)) == GroupShapes.UpdateError(d)
  {
  }

  lemma SameCalls(group: Wire.Group, tags: map<string, string>, d: Api.Spec, d': Api.Spec, latest: Api.Spec,
                  delta: seq<Path>, o: Outcomes)
    requires d' == d.(tags := d'.tags) && TagMap(d'.tags.Items()) == TagMap(d.tags.Items())
    ensures UpdateEffect(group, tags, d', latest, delta, o) == UpdateEffect(group, tags, d, latest, delta, o)
  {
    UpdateIgnoresTags(group, d, d'.tags);
    assert d'.name == d.name;
    hide TagMap, TagSync.SyncEffect, MoreReported, TagsReported, UpdatedGroup, GroupShapes.UpdateError;
  }

  /** Of the desired tags, nothing but the map they stand for matters to a pass. */
  lemma OnlyTheMapMatters(group: Wire.Group, tags: map<string, string>, d: Api.Spec, d': Api.Spec, answer: Wire.Group,
                          eq: StringsEq, o: Outcomes)
    requires d' == d.(tags := d'.tags) && TagMap(d'.tags.Items()) == TagMap(d.tags.Items())
    ensures PassEffect(group, tags, d', answer, eq, o) == PassEffect(group, tags, d, answer, eq, o)
  {
    hide GroupShapes.Found, SpecDelta, TagMap, UpdateEffect;
    var latest := GroupShapes.Found(d, answer);
    ReadIgnoresTags(d, d', answer);
    SameReport(d, d', latest, eq);
    SameCalls(group, tags, d, d', latest, SpecDelta(d, latest, eq), o);
  }

  lemma MirroringIsIdempotent(desired: map<string, string>, latest: map<string, string>)
    ensures Mirrored(desired, Mirrored(desired, latest)) == Mirrored(desired, latest)
  {
    var once := Mirrored(desired, latest);
    assert forall k | k in AWSPart(latest) :: k in once && once[k] == latest[k];
    assert forall k | k in AWSPart(once) && k !in AWSPart(latest) :: k in desired && once[k] == desired[k];
  }

  // ---- one pass, and the next ---------------------------------------------------------------

  lemma AttemptDescribed(d0: Api.Spec, s: Server, a: Attempt)
    requires a.Try? && Possible(d0, s, a)
    ensures Describes(s.group.(tags := a.listed), s.group, s.tags)
    ensures MirroredInto(d0.(tags := a.mirrored), d0, s.tags)
  {
  }

  function TagAttempt(a: Attempt): TagSync.Attempt {
    if a.ReadFailed? then TagSync.ReadFails else TagSync.Sync(a.o.add, a.o.del)
  }

  lemma NextTags(d0: Api.Spec, s: Server, a: Attempt, eq: StringsEq)
    requires Possible(d0, s, a)
    ensures Next(d0, s, a, eq).tags == TagSync.Step(s.tags, TagMap(d0.tags.Items()), TagAttempt(a))
  {
    hide PassEffect, TagSync.SyncEffect, TagMap;
    if a.Try? {
      AttemptDescribed(d0, s, a);
      PassIsATagStep(s.group, s.tags, d0, d0.(tags := a.mirrored), s.group.(tags := a.listed), eq, a.o);
    }
  }

  lemma NextGroup(d0: Api.Spec, s: Server, a: Attempt, eq: StringsEq)
    ensures Next(d0, s, a, eq).group == s.group || Next(d0, s, a, eq).group == UpdatedGroup(s.group, d0)
  {
    hide PassEffect, UpdatedGroup, SpecDelta, GroupShapes.Found, MoreReported;
    if a.Try? {
      GroupOfPass(s.group, s.tags, d0.(tags := a.mirrored), s.group.(tags := a.listed), eq, a.o);
      UpdateIgnoresTags(s.group, d0, a.mirrored);
    }
  }

  /** An attempt that follows a successful one, right away or after others that changed nothing. */
  lemma AfterSuccess(d0: Api.Spec, s: Server, a: Attempt, b: Attempt, eq: StringsEq)
    requires Possible(d0, s, a) && Succeeds(d0, s, a, eq) && Possible(d0, Next(d0, s, a, eq), b)
    ensures Next(d0, Next(d0, s, a, eq), b, eq) == Next(d0, s, a, eq)
  {
    var r := Next(d0, s, a, eq);
    if b.Try? {
      var d, d' := d0.(tags := a.mirrored), d0.(tags := b.mirrored);
      var answer, next := s.group.(tags := a.listed), r.group.(tags := b.listed);
      AttemptDescribed(d0, s, a);
      AttemptDescribed(d0, r, b);
      TagsAfterPass(s.group, s.tags, d, answer, eq, a.o);
      MirroringIsIdempotent(TagMap(d0.tags.Items()), s.tags);
      hide PassEffect, UpdatedGroup, TagMap, Describes, TagSync.SyncEffect;
      NextPassChangesNothing(s.group, s.tags, d, answer, eq, a.o, next, b.o);
      OnlyTheMapMatters(r.group, r.tags, d, d', next, eq, b.o);
    }
  }

  /** Nothing changes any more after a success. */
  lemma {:induction false} StaysAfterSuccess(d0: Api.Spec, s: Server, a: Attempt, attempts: seq<Attempt>, eq: StringsEq)
    requires Possible(d0, s, a) && Succeeds(d0, s, a, eq) && PossibleRun(d0, Next(d0, s, a, eq), attempts, eq)
    ensures forall r | r in Servers(d0, Next(d0, s, a, eq), attempts, eq) :: r == Next(d0, s, a, eq)
    decreases |attempts|
  {
    hide Possible, Succeeds, Next;
    if attempts != [] {
      AfterSuccess(d0, s, a, attempts[0], eq);
      StaysAfterSuccess(d0, s, a, attempts[1..], eq);
    }
  }

  /** Over any run of passes, whatever fails at any call and in whatever order tags are listed and
      mirrored: the group is the first one or the first one updated to the desired spec, and nothing in
      between; and from the first pass that succeeds on, neither group nor tags change again. */
  lemma {:induction false} RunOfPasses(d0: Api.Spec, s: Server, attempts: seq<Attempt>, eq: StringsEq, i: nat, j: nat)
    requires PossibleRun(d0, s, attempts, eq) && i < j <= |attempts|
    ensures var servers := Servers(d0, s, attempts, eq);
            && (servers[j].group == s.group || servers[j].group == UpdatedGroup(s.group, d0))
            && (Succeeds(d0, servers[i], attempts[i], eq) ==> servers[j] == servers[i + 1])
    decreases |attempts|
  {
    var next := Next(d0, s, attempts[0], eq);
    var servers, tail := Servers(d0, s, attempts, eq), Servers(d0, next, attempts[1..], eq);
    hide Next, Possible, Succeeds, UpdatedGroup;
    assert forall n | 0 < n < |servers| :: servers[n] == tail[n - 1];
    NextGroup(d0, s, attempts[0], eq);
    UpdateIsIdempotent(d0, s.group);
    if j > 1 {
      RunOfPasses(d0, next, attempts[1..], eq, if i == 0 then 0 else i - 1, j - 1);
    }
    if i == 0 && Succeeds(d0, s, attempts[0], eq) {
      StaysAfterSuccess(d0, s, attempts[0], attempts[1..], eq);
      assert tail[j - 1] in tail;
    }
  }

  function TagAttempts(attempts: seq<Attempt>): seq<TagSync.Attempt> {
    seq(|attempts|, i requires 0 <= i < |attempts| => TagAttempt(attempts[i]))
  }

  /** The tags go through the states of a run of the tag protocol, so what holds over those runs holds
      over runs of passes. */
  lemma {:induction false} TagsOfPasses(d0: Api.Spec, s: Server, attempts: seq<Attempt>, eq: StringsEq, j: nat)
    requires PossibleRun(d0, s, attempts, eq) && j <= |attempts|
    ensures Servers(d0, s, attempts, eq)[j].tags
            == TagSync.Run(s.tags, TagMap(d0.tags.Items()), TagAttempts(attempts))[j]
    decreases |attempts|
  {
    hide Next, Possible, TagSync.Step, TagMap;
    if j > 0 {
      NextTags(d0, s, attempts[0], eq);
      assert TagAttempts(attempts)[1..] == TagAttempts(attempts[1..]);
      TagsOfPasses(d0, Next(d0, s, attempts[0], eq), attempts[1..], eq, j - 1);
    }
  }

  lemma {:induction false} PossibleAt(d0: Api.Spec, s: Server, attempts: seq<Attempt>, eq: StringsEq, i: nat)
    requires PossibleRun(d0, s, attempts, eq) && i < |attempts|
    ensures Possible(d0, Servers(d0, s, attempts, eq)[i], attempts[i])
    ensures Servers(d0, s, attempts, eq)[i + 1] == Next(d0, Servers(d0, s, attempts, eq)[i], attempts[i], eq)
    decreases |attempts|
  {
    hide Next, Possible;
    if i > 0 {
      PossibleAt(d0, Next(d0, s, attempts[0], eq), attempts[1..], eq, i - 1);
    }
  }

  /** A pass that succeeds, whenever it does, leaves exactly the desired tags with the AWS tags that the
      group had at the very beginning, and there they stay. */
  lemma SuccessIsFinal(d0: Api.Spec, s: Server, attempts: seq<Attempt>, eq: StringsEq, i: nat, j: nat)
    requires PossibleRun(d0, s, attempts, eq) && i < j <= |attempts|
    requires Succeeds(d0, Servers(d0, s, attempts, eq)[i], attempts[i], eq)
    ensures Servers(d0, s, attempts, eq)[j].tags == Mirrored(TagMap(d0.tags.Items()), s.tags)
  {
    hide Describes, PassEffect, TagMap, Servers, TagSync.Run, Mirrored, PossibleRun, GroupShapes.Found;
    var servers, to := Servers(d0, s, attempts, eq), TagMap(d0.tags.Items());
    RunOfPasses(d0, s, attempts, eq, i, j);
    PossibleAt(d0, s, attempts, eq, i);
    var now, a := servers[i], attempts[i];
    AttemptDescribed(d0, now, a);
    TagsAfterPass(now.group, now.tags, d0.(tags := a.mirrored), now.group.(tags := a.listed), eq, a.o);
    TagsOfPasses(d0, s, attempts, eq, i);
    TagSync.RunConverges(s.tags, to, TagAttempts(attempts), 0, i);
    assert TagSync.Target(now.tags, to) == TagSync.Target(s.tags, to);
  }
}
