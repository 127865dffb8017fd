/** `updateConditions`, `onError` and `onSuccess` (sdk.go, manager.go): the conditions of a resource
    after an operation, over one call and over any run of calls. */
module Conditions {
  import opened Basics
  import opened Resource

  // ---- errors -------------------------------------------------------------------------------

  /** What the code asks of an error: is it one of two sentinels, does its chain hold an error of the
      AWS API or the runtime's terminal error, and how does it read. */
  datatype Sentinel = NoSentinel | SecretTypeNotSupported | SecretNotFound
  datatype Code = ValidationError | AlreadyExists | LimitExceeded | OtherCode(name: string)
  datatype APIError = APIError(code: Code, text: string)
  datatype Error = Error(sentinel: Sentinel, text: string, api: Option<APIError>, asTerminal: bool)

  /** The error that the manager returns in place of a terminal one. */
  datatype Returned = NoError | Same(error: Error) | TerminalError

  predicate TerminalAWSError(e: Error) {
    e.api.Some? && !e.api.value.code.OtherCode?
  }

  predicate WrittenAsIs(e: Error) {
    e.sentinel != NoSentinel || e.asTerminal
  }

  predicate Classified(e: Error) {
    TerminalAWSError(e) || WrittenAsIs(e)
  }

  // ---- the new list of conditions -----------------------------------------------------------

  /** Where the loop over the conditions leaves its pointer: at the last condition of the type. */
  function Last(cs: seq<ConditionView>, kind: ConditionType): (i: int)
    ensures -1 <= i < |cs|
    ensures i >= 0 ==> cs[i].kind == kind
    ensures forall j | i < j < |cs| :: cs[j].kind != kind
  {
    if cs == [] then -1
    else if cs[|cs| - 1].kind == kind then |cs| - 1
    else Last(cs[..|cs| - 1], kind)
  }

  /** The last condition of the type gets the status and the message; without one, it is appended. */
  function Put(cs: seq<ConditionView>, kind: ConditionType, status: ConditionStatus,
               message: Option<string>): seq<ConditionView> {
    var i := Last(cs, kind);
    if i >= 0 then cs[i := ConditionView(kind, status, message)] else cs + [ConditionView(kind, status, message)]
  }

  /** The last condition of the type, if any, is cleared. */
  function Clear(cs: seq<ConditionView>, kind: ConditionType): seq<ConditionView> {
    if Last(cs, kind) >= 0 then Put(cs, kind, False, None) else cs
  }

  function TerminalMessage(e: Error): string {
    if WrittenAsIs(e) || e.api.None? then e.text else e.api.value.text
  }

  function RecoverableMessage(e: Error): string {
    if e.api.Some? then e.api.value.text else e.text
  }

  /** The conditions after an operation that ended with `err`, None for success. */
  function After(cs: seq<ConditionView>, err: Option<Error>): seq<ConditionView> {
    if err.None? then Clear(Clear(cs, Terminal), Recoverable)
    else if Classified(err.value) then Put(cs, Terminal, True, Some(TerminalMessage(err.value)))
    else Put(Clear(cs, Terminal), Recoverable, True, Some(RecoverableMessage(err.value)))
  }

  /** Something was or is now there to report. */
  predicate Tracked(cs: seq<ConditionView>) {
    Last(cs, Terminal) >= 0 || Last(cs, Recoverable) >= 0 || Last(cs, ResourceSynced) >= 0
  }

  /** Which errors are terminal, and which text is recorded. */
  lemma WhatIsRecorded(e: Error)
    ensures Classified(e) <==>
              || e.sentinel == SecretTypeNotSupported || e.sentinel == SecretNotFound || e.asTerminal
              || (e.api.Some? && (|| e.api.value.code == ValidationError
                                  || e.api.value.code == AlreadyExists
                                  || e.api.value.code == LimitExceeded))
    ensures Classified(e) ==>
              TerminalMessage(e)
              == if e.sentinel == SecretTypeNotSupported || e.sentinel == SecretNotFound || e.asTerminal then e.text
                 else e.api.value.text
    ensures RecoverableMessage(e) == if e.api.Some? then e.api.value.text else e.text
  {
  }

  // ---- the code -----------------------------------------------------------------------------

  /** Fills in what the status lacks. */
  method SetStatusDefaults(ko: AutoScalingGroup, region: string, account: string)
    modifies ko`metadata, ko`conditions
    ensures ko.metadata == Some(WithDefaults(old(ko.metadata), region, account))
    ensures var before, now := old(ko.metadata), ko.metadata;
            && now.Some?
            && now.value.arn == (if before.Some? then before.value.arn else None)
            && now.value.region
               == (if before.Some? && before.value.region.Some? then before.value.region else Some(region))
            && now.value.ownerAccountID
               == (if before.Some? && before.value.ownerAccountID.Some? then before.value.ownerAccountID
                   else Some(account))
    ensures ko.conditions.Elems? && ko.conditions.Items() == old(ko.conditions.Items())
  {
    if ko.metadata.None? {
      ko.metadata := Some(Metadata(None, None, None));
    }
    if ko.metadata.value.region.None? {
      ko.metadata := Some(ko.metadata.value.(region := Some(region)));
    }
    if ko.metadata.value.ownerAccountID.None? {
      ko.metadata := Some(ko.metadata.value.(ownerAccountID := Some(account)));
    }
    if ko.conditions.NilSlice? {
      ko.conditions := Elems([]);
    }
  }

  function WithDefaults(m: Option<Metadata>, region: string, account: string): Metadata {
    var m' := if m.Some? then m.value else Metadata(None, None, None);
    Metadata(m'.arn,
             if m'.region.Some? then m'.region else Some(region),
             if m'.ownerAccountID.Some? then m'.ownerAccountID else Some(account))
  }

  /** The last condition of the type, as a pointer. */
  method Find(cs: seq<Condition>, kind: ConditionType) returns (c: Condition?)
    ensures c == null <==> Last(Views(cs), kind) < 0
    ensures c != null ==> c == cs[Last(Views(cs), kind)]
  {
    c := null;
    ghost var at := -1;
    for i := 0 to |cs|
      invariant at == Last(Views(cs[..i]), kind) < i
      invariant if at < 0 then c == null else c == cs[at]
    {
      assert Views(cs[..i + 1])[..i] == Views(cs[..i]);
      if cs[i].kind == kind {
        c, at := cs[i], i;
      }
    }
    assert cs[..|cs|] == cs;
  }

  /** Writes through the pointer, or appends a new condition and writes to that. */
  method Set(ko: AutoScalingGroup, kind: ConditionType, message: string)
    requires ko.DistinctConditions() && ko.conditions.Elems?
    modifies ko`conditions, ko.Pointers()
    ensures ko.DistinctConditions() && ko.conditions.Elems?
    ensures ko.ConditionViews() == Put(old(ko.ConditionViews()), kind, True, Some(message))
    ensures fresh(ko.Pointers() - old(ko.Pointers()))
  {
    hide Last;
    ghost var before := ko.ConditionViews();
    var c := Find(ko.conditions.elems, kind);
    ghost var at := Last(before, kind);
    if c == null {
      var added := new Condition(kind);
      added.status, added.message := True, Some(message);
      ko.conditions := Elems(ko.conditions.elems + [added]);
      assert ko.ConditionViews() == before + [ConditionView(kind, True, Some(message))];
    } else {
      c.status, c.message := True, Some(message);
      assert ko.ConditionViews() == before[at := ConditionView(kind, True, Some(message))];
    }
  }

  method Reset(ko: AutoScalingGroup, kind: ConditionType)
    requires ko.DistinctConditions() && ko.conditions.Elems?
    modifies ko.Pointers()
    ensures ko.ConditionViews() == Clear(old(ko.ConditionViews()), kind)
  {
    hide Last;
    ghost var before := ko.ConditionViews();
    var c := Find(ko.conditions.elems, kind);
    ghost var at := Last(before, kind);
    if c != null {
      c.status, c.message := False, None;
      assert ko.ConditionViews() == before[at := ConditionView(kind, False, None)];
    }
  }

  /** The branches over the error, on the copy. */
  method Record(ko: AutoScalingGroup, err: Option<Error>)
    requires ko.DistinctConditions() && ko.conditions.Elems?
    modifies ko`conditions, ko.Pointers()
    ensures ko.DistinctConditions() && ko.conditions.Elems?
    ensures ko.ConditionViews() == After(old(ko.ConditionViews()), err)
    ensures fresh(ko.Pointers() - old(ko.Pointers()))
  {
    if err.Some? && Classified(err.value) {
      Set(ko, Terminal, TerminalMessage(err.value));
    } else {
      Reset(ko, Terminal);
      if err.Some? {
        Set(ko, Recoverable, RecoverableMessage(err.value));
      } else {
        Reset(ko, Recoverable);
      }
    }
  }

  method IsTracked(ko: AutoScalingGroup) returns (tracked: bool)
    ensures tracked <==> Tracked(ko.ConditionViews())
  {
    var cs := ko.conditions.Items();
    var terminal := Find(cs, Terminal);
    var recoverable := Find(cs, Recoverable);
    var synced := Find(cs, ResourceSynced);
    tracked := terminal != null || recoverable != null || synced != null;
  }

  /** Defaults, branches and the final question, all on the copy. */
  method UpdateCopy(ko: AutoScalingGroup, err: Option<Error>, region: string, account: string,
                    ghost before: seq<ConditionView>)
    returns (tracked: bool)
    requires ko.DistinctConditions() && ko.ConditionViews() == before
    modifies ko`metadata, ko`conditions, ko.Pointers()
    ensures ko.DistinctConditions()
    ensures ko.ConditionViews() == After(before, err)
    ensures ko.metadata == Some(WithDefaults(old(ko.metadata), region, account))
    ensures tracked <==> Tracked(After(before, err))
    ensures fresh(ko.Pointers() - old(ko.Pointers()))
  {
    SetStatusDefaults(ko, region, account);
    assert ko.ConditionViews() == before;
    Record(ko, err);
    tracked := IsTracked(ko);
  }

  method UpdateADeepCopy(r: AutoScalingGroup, err: Option<Error>, region: string, account: string)
    returns (ko: AutoScalingGroup, tracked: bool)
    ensures tracked <==> Tracked(After(old(r.ConditionViews()), err))
    ensures fresh(ko) && fresh(ko.Pointers()) && ko.DistinctConditions()
    ensures ko.ConditionViews() == After(old(r.ConditionViews()), err)
    ensures ko.spec == r.spec && ko.namespace == r.namespace
    ensures ko.metadata == Some(WithDefaults(r.metadata, region, account))
  {
    hide After, Tracked, WithDefaults;
    ghost var before := r.ConditionViews();
    ko := r.DeepCopy();
    tracked := UpdateCopy(ko, err, region, account, before);
  }

  /** Everything happens on a deep copy; without any tracked condition there is no result. */
  method UpdateConditions(r: AutoScalingGroup, err: Option<Error>, region: string, account: string)
    returns (updated: AutoScalingGroup?)
    ensures updated != null <==> Tracked(After(old(r.ConditionViews()), err))
    ensures updated != null ==>
              && fresh(updated) && fresh(updated.Pointers()) && updated.DistinctConditions()
              && updated.ConditionViews() == After(old(r.ConditionViews()), err)
              && updated.spec == r.spec && updated.namespace == r.namespace
              && updated.metadata == Some(WithDefaults(r.metadata, region, account))
  {
    var ko, tracked := UpdateADeepCopy(r, err, region, account);
    updated := if tracked then ko else null;
  }

  /** Some condition says that the resource is terminal. */
  predicate SaysTerminal(cs: seq<ConditionView>) {
    exists i | 0 <= i < |cs| :: cs[i].kind == Terminal && cs[i].status == True
  }

  method OnError(r: AutoScalingGroup?, err: Error, region: string, account: string)
    returns (r1: AutoScalingGroup?, returned: Returned)
    ensures r == null ==> r1 == null && returned == Same(err)
    ensures r != null ==>
              && r1 != null && fresh(r1) && fresh(r1.Pointers())
              && r1.spec == r.spec
              && r1.ConditionViews() == After(old(r.ConditionViews()), Some(err))
              && returned
                 == if SaysTerminal(After(old(r.ConditionViews()), Some(err))) then TerminalError else Same(err)
  {
    hide After, SaysTerminal, Tracked, WithDefaults;
    if r == null {
      return null, Same(err);
    }
    ghost var before := r.ConditionViews();
    ErrorsAreTracked(before, err);
    r1 := UpdateConditions(r, Some(err), region, account);
    var terminal := IsTerminal(r1, After(before, Some(err)));
    returned := if terminal then TerminalError else Same(err);
  }

  method IsTerminal(r: AutoScalingGroup, ghost views: seq<ConditionView>) returns (terminal: bool)
    requires r.ConditionViews() == views
    ensures terminal <==> SaysTerminal(views)
  {
    var cs := r.conditions.Items();
    for i := 0 to |cs|
      invariant forall j | 0 <= j < i :: !(views[j].kind == Terminal && views[j].status == True)
    {
      assert views[i] == cs[i].View();
      if cs[i].kind == Terminal && cs[i].status == True {
        return true;
      }
    }
    terminal := false;
  }

  /** Without a tracked condition the very resource passed in is returned. */
  method OnSuccess(r: AutoScalingGroup?, region: string, account: string) returns (r1: AutoScalingGroup?)
    ensures r == null ==> r1 == null
    ensures r != null ==>
              && r1 != null && r1.spec == r.spec
              && r1.ConditionViews() == After(r.ConditionViews(), None)
              && (r1 == r || (fresh(r1) && fresh(r1.Pointers())))
  {
    if r == null {
      return null;
    }
    r1 := UpdateConditions(r, None, region, account);
    if r1 == null {
      r1 := r;
    }
  }

  // ---- one call -----------------------------------------------------------------------------

  /** At most one condition of the type. */
  predicate AtMostOne(cs: seq<ConditionView>, kind: ConditionType) {
    forall i, j | 0 <= i < j < |cs| :: !(cs[i].kind == kind && cs[j].kind == kind)
  }

  predicate Orderly(cs: seq<ConditionView>) {
    AtMostOne(cs, Terminal) && AtMostOne(cs, Recoverable)
  }

  function Kinds(cs: seq<ConditionView>): seq<ConditionType> {
    seq(|cs|, i requires 0 <= i < |cs| => cs[i].kind)
  }

  lemma ErrorsAreTracked(cs: seq<ConditionView>, e: Error)
    ensures Tracked(After(cs, Some(e)))
  {
    if Classified(e) {
      PutIsThere(cs, Terminal, True, Some(TerminalMessage(e)));
    } else {
      PutIsThere(Clear(cs, Terminal), Recoverable, True, Some(RecoverableMessage(e)));
    }
  }

  lemma PutIsThere(cs: seq<ConditionView>, kind: ConditionType, status: ConditionStatus, message: Option<string>)
    ensures var r := Put(cs, kind, status, message);
            var i := if Last(cs, kind) >= 0 then Last(cs, kind) else |cs|;
            Last(r, kind) == i && r[i] == ConditionView(kind, status, message)
  {
    var r := Put(cs, kind, status, message);
    var i := if Last(cs, kind) >= 0 then Last(cs, kind) else |cs|;
    assert forall j | i < j < |r| :: r[j] == cs[j];
    assert r[i].kind == kind;
  }

  /** What a write does to the list: at most one condition more, nothing moved or removed, every other
      condition as it was. */
  lemma PutFrame(cs: seq<ConditionView>, kind: ConditionType, status: ConditionStatus, message: Option<string>)
    ensures var r := Put(cs, kind, status, message);
            && Kinds(cs) <= Kinds(r) && |r| <= |cs| + 1
            && (Last(cs, kind) >= 0 ==> |r| == |cs|)
            && (forall j | 0 <= j < |cs| && j != Last(cs, kind) :: r[j] == cs[j])
            && (AtMostOne(cs, kind) ==> AtMostOne(r, kind))
            && (forall k | k != kind :: Last(r, k) == Last(cs, k) && (AtMostOne(cs, k) ==> AtMostOne(r, k)))
  {
    var r := Put(cs, kind, status, message);
    forall k | k != kind
      ensures Last(r, k) == Last(cs, k)
    {
      var i := Last(cs, k);
      assert forall j | i < j < |cs| :: r[j].kind == cs[j].kind;
      if i >= 0 {
        assert r[i] == cs[i];
      }
    }
  }

  /** An unclassified error leaves every Terminal condition but the last as it was. */
  lemma TerminalsAfterUnclassified(cs: seq<ConditionView>, e: Error)
    requires !Classified(e)
    ensures var r := After(cs, Some(e));
            && |cs| <= |r|
            && (forall i | 0 <= i < |r| && r[i].kind == Terminal :: i < |cs| && cs[i].kind == Terminal)
            && (forall i | 0 <= i < |cs| && cs[i].kind == Terminal && i != Last(cs, Terminal) :: r[i] == cs[i])
            && (Last(cs, Terminal) >= 0 ==> r[Last(cs, Terminal)] == ConditionView(Terminal, False, None))
  {
    hide Last, Put, Classified, RecoverableMessage;
    var cleared, m := Clear(cs, Terminal), Some(RecoverableMessage(e));
    PutFrame(cs, Terminal, False, None);
    PutIsThere(cs, Terminal, False, None);
    PutFrame(cleared, Recoverable, True, m);
    PutIsThere(cleared, Recoverable, True, m);
    assert forall i | 0 <= i < |cs| :: Kinds(cs)[i] == Kinds(cleared)[i] == Kinds(After(cs, Some(e)))[i];
  }

  /** The error comes back as the terminal one exactly when it is classified terminal, or when a
      Terminal condition that is not the last of its type was True and stays so. */
  lemma TerminalIffClassified(cs: seq<ConditionView>, e: Error)
    ensures SaysTerminal(After(cs, Some(e))) <==>
              || Classified(e)
              || exists i | 0 <= i < Last(cs, Terminal) :: cs[i].kind == Terminal && cs[i].status == True
  {
    hide Last, Put, Classified, TerminalMessage, RecoverableMessage;
    if Classified(e) {
      PutIsThere(cs, Terminal, True, Some(TerminalMessage(e)));
      var r := After(cs, Some(e));
      assert r[Last(r, Terminal)].kind == Terminal;
    } else {
      hide After;
      TerminalsAfterUnclassified(cs, e);
    }
  }

  /** With at most one Terminal condition there is no such leftover. */
  lemma OnErrorReturnsTerminalIffClassified(cs: seq<ConditionView>, e: Error)
    requires Orderly(cs)
    ensures SaysTerminal(After(cs, Some(e))) <==> Classified(e)
  {
    TerminalIffClassified(cs, e);
    OnlyOne(cs, Terminal);
  }

  /** Without the invariant a recoverable error can come back as a terminal one. */
  lemma LeftoverTerminalMisleads()
    ensures exists cs, e :: !Classified(e) && SaysTerminal(After(cs, Some(e)))
  {
    var cs := [ConditionView(Terminal, True, None), ConditionView(Terminal, True, None)];
    var e := Error(NoSentinel, "throttled", None, false);
    assert Last(cs, Terminal) == 1;
    assert cs[0].kind == Terminal && cs[0].status == True;
    TerminalIffClassified(cs, e);
  }

  lemma ClearKeepsKinds(cs: seq<ConditionView>, kind: ConditionType)
    ensures |Clear(cs, kind)| == |cs| && forall i | 0 <= i < |cs| :: Clear(cs, kind)[i].kind == cs[i].kind
  {
  }

  /** There is something to report exactly after an error, or when a condition of one of the three types
      was there before. */
  lemma WhatIsTracked(cs: seq<ConditionView>, err: Option<Error>)
    ensures Tracked(After(cs, err)) <==>
              || err.Some?
              || exists i | 0 <= i < |cs| ::
                   cs[i].kind == Terminal || cs[i].kind == Recoverable || cs[i].kind == ResourceSynced
  {
    hide Classified, TerminalMessage, RecoverableMessage, Clear;
    var r := After(cs, err);
    ClearKeepsKinds(cs, Terminal);
    ClearKeepsKinds(Clear(cs, Terminal), Recoverable);
    if err.Some? {
      if Classified(err.value) {
        PutIsThere(cs, Terminal, True, Some(TerminalMessage(err.value)));
      } else {
        PutIsThere(Clear(cs, Terminal), Recoverable, True, Some(RecoverableMessage(err.value)));
      }
    }
    hide Put, After;
    assert Last(r, Terminal) >= 0 <==> exists i | 0 <= i < |r| :: r[i].kind == Terminal;
    assert Last(r, Recoverable) >= 0 <==> exists i | 0 <= i < |r| :: r[i].kind == Recoverable;
    assert Last(r, ResourceSynced) >= 0 <==> exists i | 0 <= i < |r| :: r[i].kind == ResourceSynced;
  }

  // ---- runs ---------------------------------------------------------------------------------

  /** The conditions after a run of operations, each a success or an error. */
  function AfterRun(cs: seq<ConditionView>, outcomes: seq<Option<Error>>): seq<ConditionView>
    decreases |outcomes|
  {
    if outcomes == [] then cs
    else After(AfterRun(cs, outcomes[..|outcomes| - 1]), outcomes[|outcomes| - 1])
  }

  /** A condition of the type is True. */
  predicate IsTrue(cs: seq<ConditionView>, kind: ConditionType) {
    exists i | 0 <= i < |cs| :: cs[i].kind == kind && cs[i].status == True
  }

  function Missing(cs: seq<ConditionView>): nat {
    (if Last(cs, Terminal) < 0 then 1 else 0) + (if Last(cs, Recoverable) < 0 then 1 else 0)
  }

  /** One operation keeps the list orderly, removes and moves nothing, adds only types that are
      missing, and leaves conditions of other types alone. */
  lemma StepKeepsOrder(cs: seq<ConditionView>, err: Option<Error>)
    requires Orderly(cs)
    ensures var r := After(cs, err);
            && Orderly(r) && Kinds(cs) <= Kinds(r)
            && |r| + Missing(r) == |cs| + Missing(cs)
            && forall i | 0 <= i < |cs| && cs[i].kind != Terminal && cs[i].kind != Recoverable :: r[i] == cs[i]
  {
    hide Last, Put, Classified, TerminalMessage, RecoverableMessage;
    if err.Some? && Classified(err.value) {
      PutFrame(cs, Terminal, True, Some(TerminalMessage(err.value)));
      PutIsThere(cs, Terminal, True, Some(TerminalMessage(err.value)));
    } else {
      var cleared := Clear(cs, Terminal);
      ClearKeepsOrder(cs, Terminal);
      if err.Some? {
        PutFrame(cleared, Recoverable, True, Some(RecoverableMessage(err.value)));
        PutIsThere(cleared, Recoverable, True, Some(RecoverableMessage(err.value)));
      } else {
        ClearKeepsOrder(cleared, Recoverable);
      }
    }
  }

  lemma ClearKeepsOrder(cs: seq<ConditionView>, kind: ConditionType)
    requires Orderly(cs)
    ensures var r := Clear(cs, kind);
            && Orderly(r) && Kinds(r) == Kinds(cs)
            && (forall k :: Last(r, k) == Last(cs, k))
            && forall i | 0 <= i < |cs| && cs[i].kind != kind :: r[i] == cs[i]
  {
    PutFrame(cs, kind, False, None);
    PutIsThere(cs, kind, False, None);
    assert Last(cs, kind) >= 0 ==> cs[Last(cs, kind)].kind == kind;
  }

  /** Over any run: the invariant holds, nothing is ever removed or reordered, the list grows by at
      most two, and conditions of other types are never touched. */
  lemma {:induction false} RunKeepsOrder(cs: seq<ConditionView>, outcomes: seq<Option<Error>>)
    requires Orderly(cs)
    ensures var r := AfterRun(cs, outcomes);
            && Orderly(r) && Kinds(cs) <= Kinds(r) && |r| <= |cs| + 2
            && |r| + Missing(r) == |cs| + Missing(cs)
            && forall i | 0 <= i < |cs| && cs[i].kind != Terminal && cs[i].kind != Recoverable :: r[i] == cs[i]
    decreases |outcomes|
  {
    if outcomes != [] {
      var init := outcomes[..|outcomes| - 1];
      RunKeepsOrder(cs, init);
      var mid := AfterRun(cs, init);
      StepKeepsOrder(mid, outcomes[|outcomes| - 1]);
      assert forall i | 0 <= i < |cs| :: Kinds(mid)[i] == cs[i].kind;
    }
  }

  /** How a run ends is decided by its last operation: after a success neither condition is True;
      after a terminal error the Terminal one is True and the Recoverable one is what it was; after
      any other error exactly the Recoverable one is True. The one set carries the message. */
  lemma LastOutcomeDecides(cs: seq<ConditionView>, outcomes: seq<Option<Error>>, last: Option<Error>)
    requires Orderly(cs)
    ensures var before, r := AfterRun(cs, outcomes), AfterRun(cs, outcomes + [last]);
            && (last.None? ==> !IsTrue(r, Terminal) && !IsTrue(r, Recoverable))
            && (last.Some? && Classified(last.value) ==>
                  && Last(r, Terminal) >= 0
                  && r[Last(r, Terminal)] == ConditionView(Terminal, True, Some(TerminalMessage(last.value)))
                  && Last(r, Recoverable) == Last(before, Recoverable)
                  && (Last(r, Recoverable) >= 0 ==> r[Last(r, Recoverable)] == before[Last(r, Recoverable)]))
            && (last.Some? && !Classified(last.value) ==>
                  && !IsTrue(r, Terminal) && Last(r, Recoverable) >= 0
                  && r[Last(r, Recoverable)] == ConditionView(Recoverable, True, Some(RecoverableMessage(last.value))))
  {
    var before := AfterRun(cs, outcomes);
    assert (outcomes + [last])[..|outcomes|] == outcomes;
    RunKeepsOrder(cs, outcomes);
    OneOutcomeDecides(before, last);
  }

  lemma OneOutcomeDecides(cs: seq<ConditionView>, last: Option<Error>)
    requires Orderly(cs)
    ensures var r := After(cs, last);
            && (last.None? ==> !IsTrue(r, Terminal) && !IsTrue(r, Recoverable))
            && (last.Some? && Classified(last.value) ==>
                  && Last(r, Terminal) >= 0
                  && r[Last(r, Terminal)] == ConditionView(Terminal, True, Some(TerminalMessage(last.value)))
                  && Last(r, Recoverable) == Last(cs, Recoverable)
                  && (Last(r, Recoverable) >= 0 ==> r[Last(r, Recoverable)] == cs[Last(r, Recoverable)]))
            && (last.Some? && !Classified(last.value) ==>
                  && !IsTrue(r, Terminal) && Last(r, Recoverable) >= 0
                  && r[Last(r, Recoverable)] == ConditionView(Recoverable, True, Some(RecoverableMessage(last.value))))
  {
    var r := After(cs, last);
    if last.Some? && Classified(last.value) {
      PutFrame(cs, Terminal, True, Some(TerminalMessage(last.value)));
      PutIsThere(cs, Terminal, True, Some(TerminalMessage(last.value)));
    } else if last.Some? {
      OnErrorReturnsTerminalIffClassified(cs, last.value);
      PutIsThere(Clear(cs, Terminal), Recoverable, True, Some(RecoverableMessage(last.value)));
    } else {
      var cleared := Clear(cs, Terminal);
      PutFrame(cs, Terminal, False, None);
      PutIsThere(cs, Terminal, False, None);
      PutFrame(cleared, Recoverable, False, None);
      PutIsThere(cleared, Recoverable, False, None);
      OnlyOne(r, Terminal);
      OnlyOne(r, Recoverable);
    }
  }

  /** The only condition of its type is the last one. */
  lemma OnlyOne(cs: seq<ConditionView>, kind: ConditionType)
    requires AtMostOne(cs, kind)
    ensures forall i | 0 <= i < |cs| && cs[i].kind == kind :: i == Last(cs, kind)
  {
    if Last(cs, kind) >= 0 {
      assert cs[Last(cs, kind)].kind == kind;
    }
  }
}
