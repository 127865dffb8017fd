/** `ResolveReferences` and `ClearResolvedReferences` (references.go). Resolution writes into the
    resource it is given, stage by stage, and stops at the first reference that cannot be resolved. */
module References {
  import opened Basics
  import opened Api
  import opened Resource

  // ---- the cluster as the controller reads it -----------------------------------------------

  datatype Kind = Instance | Role | ServiceLinkedRole | TargetGroup

  datatype Referenced = Referenced(conditions: seq<ConditionView>, instanceID: Option<string>,
                                   metadata: Option<Metadata>)

  datatype Fetch = Missing(error: string) | Object(found: Referenced)

  /** One read of the cluster: what `Get` answers for a kind, a namespace and a name. */
  type Reader = (Kind, string, string) -> Fetch

  datatype RefError =
    | NilOrEmptyName(kind: Kind)
    | ReadFailed(error: string)
    | ReferencedTerminal(kind: Kind, namespace: string, name: string)
    | ReferencedNotSynced(kind: Kind, namespace: string, name: string)
    | MissingTargetField(kind: Kind, namespace: string, name: string)
    | ReferenceAndID(field: RefField)

  datatype RefField = InstanceIDField | HookRoleARNField | ServiceLinkedRoleARNField | TargetGroupARNsField

  predicate Holds(conditions: seq<ConditionView>, kind: ConditionType) {
    exists i | 0 <= i < |conditions| :: conditions[i].kind == kind && conditions[i].status == True
  }

  /** The field that the reference stands for. */
  function TargetField(kind: Kind, o: Referenced): Option<string> {
    if kind.Instance? then o.instanceID
    else if o.metadata.Some? then o.metadata.value.arn else None
  }

  /** A fetched object can be used: it is not terminal, it is synced, and it has the target field. */
  predicate Usable(kind: Kind, f: Fetch) {
    && f.Object?
    && !Holds(f.found.conditions, Terminal)
    && Holds(f.found.conditions, ResourceSynced)
    && TargetField(kind, f.found).Some?
  }

  /** The complaint about a fetched object; a terminal one is not asked whether it is synced. */
  function FetchError(kind: Kind, namespace: string, name: string, f: Fetch): (e: Option<RefError>)
    ensures e.None? <==> Usable(kind, f)
  {
    if f.Missing? then Some(ReadFailed(f.error))
    else if Holds(f.found.conditions, Terminal) then Some(ReferencedTerminal(kind, namespace, name))
    else if !Holds(f.found.conditions, ResourceSynced) then Some(ReferencedNotSynced(kind, namespace, name))
    else if TargetField(kind, f.found).None? then Some(MissingTargetField(kind, namespace, name))
    else None
  }

  /** What makes an object usable, what is taken from it, and which complaint comes first. */
  lemma WhatIsUsable(kind: Kind, namespace: string, name: string, o: Referenced)
    ensures TargetField(kind, o) ==
            match kind
            case Instance => o.instanceID
            case _ => if o.metadata.Some? then o.metadata.value.arn else None
    ensures Usable(kind, Object(o)) <==>
              && (forall i | 0 <= i < |o.conditions| ::
                    !(o.conditions[i].kind == Terminal && o.conditions[i].status == True))
              && (exists i | 0 <= i < |o.conditions| ::
                    o.conditions[i].kind == ResourceSynced && o.conditions[i].status == True)
              && TargetField(kind, o).Some?
    ensures FetchError(kind, namespace, name, Object(o))
            == if exists i | 0 <= i < |o.conditions| ::
                    o.conditions[i].kind == Terminal && o.conditions[i].status == True
               then Some(ReferencedTerminal(kind, namespace, name))
               else if forall i | 0 <= i < |o.conditions| ::
                         !(o.conditions[i].kind == ResourceSynced && o.conditions[i].status == True)
               then Some(ReferencedNotSynced(kind, namespace, name))
               else if TargetField(kind, o).None? then Some(MissingTargetField(kind, namespace, name))
               else None
    ensures forall error :: FetchError(kind, namespace, name, Missing(error)) == Some(ReadFailed(error))
  {
  }

  /** `getReferencedResourceState_*`: the four functions differ in the kind alone. */
  method GetReferencedResourceState(reader: Reader, kind: Kind, name: string, namespace: string)
    returns (obj: Referenced, err: Option<RefError>)
    ensures err == FetchError(kind, namespace, name, reader(kind, namespace, name))
    ensures err.None? ==> obj == reader(kind, namespace, name).found
  {
    var got := reader(kind, namespace, name);
    if got.Missing? {
      return Referenced([], None, None), Some(ReadFailed(got.error));
    }
    obj := got.found;
    for i := 0 to |obj.conditions|
      invariant forall j | 0 <= j < i :: !(obj.conditions[j].kind == Terminal && obj.conditions[j].status == True)
    {
      if obj.conditions[i].kind == Terminal && obj.conditions[i].status == True {
        return obj, Some(ReferencedTerminal(kind, namespace, name));
      }
    }
    var refResourceSynced := false;
    for i := 0 to |obj.conditions|
      invariant refResourceSynced <==> Holds(obj.conditions[..i], ResourceSynced)
    {
      var c := obj.conditions[i];
      assert obj.conditions[..i + 1] == obj.conditions[..i] + [c];
      if c.kind == ResourceSynced && c.status == True {
        refResourceSynced := true;
        assert obj.conditions[..i + 1][i] == c;
      }
      if Holds(obj.conditions[..i], ResourceSynced) {
        var j :| 0 <= j < i && obj.conditions[..i][j].kind == ResourceSynced && obj.conditions[..i][j].status == True;
        assert obj.conditions[..i + 1][j] == obj.conditions[..i][j];
      }
    }
    assert obj.conditions[..|obj.conditions|] == obj.conditions;
    if !refResourceSynced {
      return obj, Some(ReferencedNotSynced(kind, namespace, name));
    }
    if TargetField(kind, obj).None? {
      return obj, Some(MissingTargetField(kind, namespace, name));
    }
    err := None;
  }

  // ---- one reference ------------------------------------------------------------------------

  predicate HasFrom(r: Option<Reference>) {
    r.Some? && r.value.from.Some?
  }

  /** The reference's own namespace, or that of the resource when it is nil or "". */
  function NamespaceOf(r: NamespacedRef, namespace: string): string {
    if r.namespace.Some? && r.namespace.value != "" then r.namespace.value else namespace
  }

  /** What a reference resolves to; None when it cannot be resolved. */
  function Resolved(reader: Reader, kind: Kind, r: NamespacedRef, namespace: string): Option<string> {
    if r.name.None? || r.name.value == "" then None
    else
      var got := reader(kind, NamespaceOf(r, namespace), r.name.value);
      if Usable(kind, got) then TargetField(kind, got.found) else None
  }

  /** Why a reference cannot be resolved, if it cannot. */
  function ReferenceError(reader: Reader, kind: Kind, r: NamespacedRef, namespace: string): (e: Option<RefError>)
    ensures e.None? <==> Resolved(reader, kind, r, namespace).Some?
  {
    if r.name.None? || r.name.value == "" then Some(NilOrEmptyName(kind))
    else
      var from := NamespaceOf(r, namespace);
      FetchError(kind, from, r.name.value, reader(kind, from, r.name.value))
  }

  method ResolveOne(reader: Reader, kind: Kind, arr: NamespacedRef, ownNamespace: string)
    returns (target: Option<string>, err: Option<RefError>)
    ensures target == Resolved(reader, kind, arr, ownNamespace)
    ensures err == ReferenceError(reader, kind, arr, ownNamespace)
    ensures arr.name.None? || arr.name.value == "" ==> target == None && err == Some(NilOrEmptyName(kind))
    ensures arr.name.Some? && arr.name.value != "" && arr.namespace.Some? && arr.namespace.value != "" ==>
              var from, name := arr.namespace.value, arr.name.value;
              var got := reader(kind, from, name);
              && target == (if Usable(kind, got) then TargetField(kind, got.found) else None)
              && err == FetchError(kind, from, name, got)
    ensures arr.name.Some? && arr.name.value != "" && (arr.namespace.None? || arr.namespace.value == "") ==>
              var name := arr.name.value;
              var got := reader(kind, ownNamespace, name);
              && target == (if Usable(kind, got) then TargetField(kind, got.found) else None)
              && err == FetchError(kind, ownNamespace, name, got)
  {
    if arr.name.None? || arr.name.value == "" {
      return None, Some(NilOrEmptyName(kind));
    }
    var namespace := ownNamespace;
    if arr.namespace.Some? && arr.namespace.value != "" {
      namespace := arr.namespace.value;
    }
    var obj, failed := GetReferencedResourceState(reader, kind, arr.name.value, namespace);
    if failed.Some? {
      return None, failed;
    }
    return TargetField(kind, obj), None;
  }

  // ---- validation ---------------------------------------------------------------------------

  predicate HookConflict(h: LifecycleHookSpecification) {
    h.roleRef.Some? && h.roleARN.Some?
  }

  /** No field is given both as a reference and as a value. */
  predicate Valid(s: Spec) {
    && !(s.instanceRef.Some? && s.instanceID.Some?)
    && (forall i | 0 <= i < |s.lifecycleHooks.Items()| :: !HookConflict(s.lifecycleHooks.Items()[i]))
    && !(s.serviceLinkedRoleRef.Some? && s.serviceLinkedRoleARN.Some?)
    && !(|s.targetGroupRefs.Items()| > 0 && |s.targetGroupARNs.Items()| > 0)
  }

  /** The first field given both ways, in the order of the code. */
  function ValidationError(s: Spec): (e: Option<RefError>)
    ensures e.None? <==> Valid(s)
  {
    if s.instanceRef.Some? && s.instanceID.Some? then Some(ReferenceAndID(InstanceIDField))
    else if exists i | 0 <= i < |s.lifecycleHooks.Items()| :: HookConflict(s.lifecycleHooks.Items()[i])
    then Some(ReferenceAndID(HookRoleARNField))
    else if s.serviceLinkedRoleRef.Some? && s.serviceLinkedRoleARN.Some?
    then Some(ReferenceAndID(ServiceLinkedRoleARNField))
    else if |s.targetGroupRefs.Items()| > 0 && |s.targetGroupARNs.Items()| > 0
    then Some(ReferenceAndID(TargetGroupARNsField))
    else None
  }

  method ValidateReferenceFields(ko: AutoScalingGroup) returns (err: Option<RefError>)
    ensures err == ValidationError(ko.spec)
    ensures var s := ko.spec;
            err == if s.instanceRef.Some? && s.instanceID.Some? then Some(ReferenceAndID(InstanceIDField))
                   else if exists i | 0 <= i < |s.lifecycleHooks.Items()| ::
                             s.lifecycleHooks.Items()[i].roleRef.Some? && s.lifecycleHooks.Items()[i].roleARN.Some?
                   then Some(ReferenceAndID(HookRoleARNField))
                   else if s.serviceLinkedRoleRef.Some? && s.serviceLinkedRoleARN.Some?
                   then Some(ReferenceAndID(ServiceLinkedRoleARNField))
                   else if s.targetGroupRefs.Items() != [] && s.targetGroupARNs.Items() != []
                   then Some(ReferenceAndID(TargetGroupARNsField))
                   else None
  {
    var s := ko.spec;
    if s.instanceRef.Some? && s.instanceID.Some? {
      return Some(ReferenceAndID(InstanceIDField));
    }
    var hooks := s.lifecycleHooks.Items();
    for i := 0 to |hooks|
      invariant forall j | 0 <= j < i :: !HookConflict(hooks[j])
    {
      if hooks[i].roleRef.Some? && hooks[i].roleARN.Some? {
        assert HookConflict(s.lifecycleHooks.Items()[i]);
        return Some(ReferenceAndID(HookRoleARNField));
      }
    }
    if s.serviceLinkedRoleRef.Some? && s.serviceLinkedRoleARN.Some? {
      return Some(ReferenceAndID(ServiceLinkedRoleARNField));
    }
    if |s.targetGroupRefs.Items()| > 0 && |s.targetGroupARNs.Items()| > 0 {
      return Some(ReferenceAndID(TargetGroupARNsField));
    }
    err := None;
  }

  // ---- the four stages, as functions --------------------------------------------------------

  /** A stage's outcome: how far the spec got, whether a reference was met, and the error at which the
      stage stopped, if any. */
  datatype Stage = Stage(spec: Spec, met: bool, err: Option<RefError>)

  function InstanceStage(s: Spec, reader: Reader, namespace: string): Stage {
    if !HasFrom(s.instanceRef) then Stage(s, false, None)
    else
      var r := s.instanceRef.value.from.value;
      var id := Resolved(reader, Instance, r, namespace);
      if id.None? then Stage(s, true, ReferenceError(reader, Instance, r, namespace))
      else Stage(s.(instanceID := id), true, None)
  }

  function HookRole(h: LifecycleHookSpecification, reader: Reader, namespace: string): Option<string>
    requires HasFrom(h.roleRef)
  {
    Resolved(reader, Role, h.roleRef.value.from.value, namespace)
  }

  predicate HookFails(h: LifecycleHookSpecification, reader: Reader, namespace: string) {
    HasFrom(h.roleRef) && HookRole(h, reader, namespace).None?
  }

  function ResolvedHook(h: LifecycleHookSpecification, reader: Reader, namespace: string): LifecycleHookSpecification {
    if HasFrom(h.roleRef) && HookRole(h, reader, namespace).Some?
    then h.(roleARN := HookRole(h, reader, namespace))
    else h
  }

  /** The number of leading items before the first that fails. */
  function Reach<T>(l: seq<T>, fails: T -> bool): (n: nat)
    ensures n <= |l|
    ensures forall i | 0 <= i < n :: !fails(l[i])
    ensures n < |l| ==> fails(l[n])
  {
    if l == [] then 0
    else
      var init := l[..|l| - 1];
      var n := Reach(init, fails);
      assert forall i | 0 <= i < |init| :: init[i] == l[i];
      if n < |init| then n else if fails(l[|l| - 1]) then |l| - 1 else |l|
  }

  function FailingHook(reader: Reader, namespace: string): LifecycleHookSpecification -> bool {
    h => HookFails(h, reader, namespace)
  }

  function HooksResolved(l: seq<LifecycleHookSpecification>, n: nat, reader: Reader,
                         namespace: string): seq<LifecycleHookSpecification> {
    seq(|l|, i requires 0 <= i < |l| => if i < n then ResolvedHook(l[i], reader, namespace) else l[i])
  }

  function WithHooks(s: Spec, hooks: seq<LifecycleHookSpecification>): Spec {
    if s.lifecycleHooks.NilSlice? then s else s.(lifecycleHooks := Elems(hooks))
  }

  predicate AnyHookFrom(l: seq<LifecycleHookSpecification>) {
    exists i | 0 <= i < |l| :: HasFrom(l[i].roleRef)
  }

  function HooksStage(s: Spec, reader: Reader, namespace: string): Stage {
    var l := s.lifecycleHooks.Items();
    var n := Reach(l, FailingHook(reader, namespace));
    Stage(WithHooks(s, HooksResolved(l, n, reader, namespace)), AnyHookFrom(l),
          if n == |l| then None
          else
            assert FailingHook(reader, namespace)(l[n]);
            ReferenceError(reader, Role, l[n].roleRef.value.from.value, namespace))
  }

  function RoleStage(s: Spec, reader: Reader, namespace: string): Stage {
    if !HasFrom(s.serviceLinkedRoleRef) then Stage(s, false, None)
    else
      var r := s.serviceLinkedRoleRef.value.from.value;
      var arn := Resolved(reader, ServiceLinkedRole, r, namespace);
      if arn.None? then Stage(s, true, ReferenceError(reader, ServiceLinkedRole, r, namespace))
      else Stage(s.(serviceLinkedRoleARN := arn), true, None)
  }

  function GroupARN(r: Option<Reference>, reader: Reader, namespace: string): Option<string>
    requires HasFrom(r)
  {
    Resolved(reader, TargetGroup, r.value.from.value, namespace)
  }

  function FailingGroup(reader: Reader, namespace: string): Option<Reference> -> bool {
    r => HasFrom(r) && GroupARN(r, reader, namespace).None?
  }

  /** One ARN per reference that names an object, in the order of the references. */
  function GroupARNs(l: seq<Option<Reference>>, reader: Reader, namespace: string): seq<Option<string>> {
    if l == [] then []
    else
      var r := l[|l| - 1];
      var init := GroupARNs(l[..|l| - 1], reader, namespace);
      if HasFrom(r) then init + [GroupARN(r, reader, namespace)] else init
  }

  predicate AnyFrom(l: seq<Option<Reference>>) {
    exists i | 0 <= i < |l| :: HasFrom(l[i])
  }

  function Appended(arns: StringList, more: seq<Option<string>>): StringList {
    if more == [] then arns else Elems(arns.Items() + more)
  }

  lemma AppendOne(arns: StringList, more: seq<Option<string>>, arn: Option<string>)
    ensures Appended(arns, more + [arn]) == Elems(Appended(arns, more).Items() + [arn])
  {
    assert arns.Items() + (more + [arn]) == (arns.Items() + more) + [arn];
  }

  function GroupsStage(s: Spec, reader: Reader, namespace: string): Stage {
    var l := s.targetGroupRefs.Items();
    var n := Reach(l, FailingGroup(reader, namespace));
    Stage(s.(targetGroupARNs := Appended(s.targetGroupARNs, GroupARNs(l[..n], reader, namespace))), AnyFrom(l),
          if n == |l| then None
          else
            assert FailingGroup(reader, namespace)(l[n]);
            ReferenceError(reader, TargetGroup, l[n].value.from.value, namespace))
  }

  /** All four, each starting where the one before stopped. */
  function Resolution(s: Spec, reader: Reader, namespace: string): Stage {
    var a := InstanceStage(s, reader, namespace);
    if a.err.Some? then a
    else
      var b := HooksStage(a.spec, reader, namespace);
      if b.err.Some? then Stage(b.spec, a.met || b.met, b.err)
      else
        var c := RoleStage(b.spec, reader, namespace);
        if c.err.Some? then Stage(c.spec, a.met || b.met || c.met, c.err)
        else
          var d := GroupsStage(c.spec, reader, namespace);
          Stage(d.spec, a.met || b.met || c.met || d.met, d.err)
  }

  // ---- what a resolution that goes through means ---------------------------------------------

  /** The object that a reference names is looked up in the reference's own namespace when it gives one,
      and in that of the resource otherwise; it must be usable, and its field is what is taken. */
  predicate TakenFrom(target: Option<string>, reader: Reader, kind: Kind, r: NamespacedRef, namespace: string) {
    && r.name.Some? && r.name.value != ""
    && var got := reader(kind, if r.namespace.None? || r.namespace.value == "" then namespace else r.namespace.value,
                         r.name.value);
    Usable(kind, got) && target == TargetField(kind, got.found)
  }

  /** The references that name an object. */
  ghost function Naming(l: seq<Option<Reference>>): set<int> {
    set i | 0 <= i < |l| && l[i].Some? && l[i].value.from.Some?
  }

  /** Each of the four targets is the field of the object that its reference names; the ARN of a target
      group stands behind those that were there and those of the references before it. */
  ghost predicate AllTaken(s: Spec, t: Spec, reader: Reader, namespace: string) {
    && (HasFrom(s.instanceRef) ==>
          TakenFrom(t.instanceID, reader, Instance, s.instanceRef.value.from.value, namespace))
    && (HasFrom(s.serviceLinkedRoleRef) ==>
          TakenFrom(t.serviceLinkedRoleARN, reader, ServiceLinkedRole, s.serviceLinkedRoleRef.value.from.value,
                    namespace))
    && |t.lifecycleHooks.Items()| == |s.lifecycleHooks.Items()|
    && (forall i | 0 <= i < |s.lifecycleHooks.Items()| && HasFrom(s.lifecycleHooks.Items()[i].roleRef) ::
          TakenFrom(t.lifecycleHooks.Items()[i].roleARN, reader, Role,
                    s.lifecycleHooks.Items()[i].roleRef.value.from.value, namespace))
    && s.targetGroupARNs.Items() <= t.targetGroupARNs.Items()
    && |t.targetGroupARNs.Items()| == |s.targetGroupARNs.Items()| + |Naming(s.targetGroupRefs.Items())|
    && forall i | 0 <= i < |s.targetGroupRefs.Items()| && HasFrom(s.targetGroupRefs.Items()[i]) ::
         var k := |s.targetGroupARNs.Items()| + |Naming(s.targetGroupRefs.Items()[..i])|;
         && k < |t.targetGroupARNs.Items()|
         && TakenFrom(t.targetGroupARNs.Items()[k], reader, TargetGroup,
                      s.targetGroupRefs.Items()[i].value.from.value, namespace)
  }

  // ---- the four stages, as the code runs them -----------------------------------------------

  method ResolveReferenceForInstanceID(reader: Reader, ko: AutoScalingGroup)
    returns (hasReferences: bool, err: Option<RefError>)
    modifies ko`spec
    ensures Stage(ko.spec, hasReferences, err) == InstanceStage(old(ko.spec), reader, ko.namespace)
  {
    hasReferences := false;
    if ko.spec.instanceRef.Some? && ko.spec.instanceRef.value.from.Some? {
      hasReferences := true;
      var id, failed := ResolveOne(reader, Instance, ko.spec.instanceRef.value.from.value, ko.namespace);
      if failed.Some? {
        return hasReferences, failed;
      }
      ko.spec := ko.spec.(instanceID := id);
    }
    err := None;
  }

  method ResolveReferenceForHookRoleARNs(reader: Reader, ko: AutoScalingGroup)
    returns (hasReferences: bool, err: Option<RefError>)
    modifies ko`spec
    ensures Stage(ko.spec, hasReferences, err) == HooksStage(old(ko.spec), reader, ko.namespace)
  {
    hide Resolved, ReferenceError;
    hasReferences := false;
    ghost var before, ns := ko.spec, ko.namespace;
    var l := ko.spec.lifecycleHooks.Items();
    ghost var reach := Reach(l, FailingHook(reader, ns));
    if ko.spec.lifecycleHooks.NilSlice? {
      return false, None;
    }
    for i := 0 to |l|
      invariant i <= reach
      invariant hasReferences <==> AnyHookFrom(l[..i])
      invariant ko.spec == before.(lifecycleHooks := Elems(HooksResolved(l, i, reader, ns)))
    {
      var h := l[i];
      assert l[..i + 1] == l[..i] + [h];
      if AnyHookFrom(l[..i]) {
        var j :| 0 <= j < i && HasFrom(l[..i][j].roleRef);
        assert HasFrom(l[..i + 1][j].roleRef);
      }
      if h.roleRef.Some? && h.roleRef.value.from.Some? {
        hasReferences := true;
        assert HasFrom(l[..i + 1][i].roleRef) && HasFrom(l[i].roleRef);
        var arn, failed := ResolveOne(reader, Role, h.roleRef.value.from.value, ko.namespace);
        if failed.Some? {
          assert FailingHook(reader, ns)(h);
          return hasReferences, failed;
        }
        ko.spec := ko.spec.(lifecycleHooks := Elems(ko.spec.lifecycleHooks.elems[i := h.(roleARN := arn)]));
      }
      assert !FailingHook(reader, ns)(h);
      assert ko.spec.lifecycleHooks.elems == HooksResolved(l, i + 1, reader, ns);
    }
    assert l[..|l|] == l;
    err := None;
  }

  method ResolveReferenceForServiceLinkedRoleARN(reader: Reader, ko: AutoScalingGroup)
    returns (hasReferences: bool, err: Option<RefError>)
    modifies ko`spec
    ensures Stage(ko.spec, hasReferences, err) == RoleStage(old(ko.spec), reader, ko.namespace)
  {
    hasReferences := false;
    if ko.spec.serviceLinkedRoleRef.Some? && ko.spec.serviceLinkedRoleRef.value.from.Some? {
      hasReferences := true;
      var arn, failed := ResolveOne(reader, ServiceLinkedRole, ko.spec.serviceLinkedRoleRef.value.from.value,
                                    ko.namespace);
      if failed.Some? {
        return hasReferences, failed;
      }
      ko.spec := ko.spec.(serviceLinkedRoleARN := arn);
    }
    err := None;
  }

  method ResolveReferenceForTargetGroupARNs(reader: Reader, ko: AutoScalingGroup)
    returns (hasReferences: bool, err: Option<RefError>)
    modifies ko`spec
    ensures Stage(ko.spec, hasReferences, err) == GroupsStage(old(ko.spec), reader, ko.namespace)
  {
    hasReferences := false;
    ghost var before, ns := ko.spec, ko.namespace;
    var l := ko.spec.targetGroupRefs.Items();
    ghost var reach := Reach(l, FailingGroup(reader, ns));
    for i := 0 to |l|
      invariant i <= reach
      invariant hasReferences <==> AnyFrom(l[..i])
      invariant ko.spec == before.(targetGroupARNs := Appended(before.targetGroupARNs, GroupARNs(l[..i], reader, ns)))
    {
      assert l[..i + 1] == l[..i] + [l[i]];
      assert l[..i + 1][..i] == l[..i];
      if AnyFrom(l[..i]) {
        var j :| 0 <= j < i && HasFrom(l[..i][j]);
        assert HasFrom(l[..i + 1][j]);
      }
      if l[i].Some? && l[i].value.from.Some? {
        hasReferences := true;
        assert HasFrom(l[..i + 1][i]) && HasFrom(l[i]);
        var arn, failed := ResolveOne(reader, TargetGroup, l[i].value.from.value, ko.namespace);
        if failed.Some? {
          assert FailingGroup(reader, ns)(l[i]);
          return hasReferences, failed;
        }
        if ko.spec.targetGroupARNs.NilSlice? {
          ko.spec := ko.spec.(targetGroupARNs := Elems([]));
        }
        ko.spec := ko.spec.(targetGroupARNs := Elems(ko.spec.targetGroupARNs.elems + [arn]));
        AppendOne(before.targetGroupARNs, GroupARNs(l[..i], reader, ns), arn);
      }
      assert !FailingGroup(reader, ns)(l[i]);
    }
    assert l[..|l|] == l;
    err := None;
  }

  /** The resource passed in is the one that is changed and returned: despite its comment, the code
      makes no copy. A failed validation does not stop the resolution either; it is only reported when
      every stage went through, and an error of a stage hides it. */
  method ResolveReferences(reader: Reader, res: AutoScalingGroup)
    returns (ko: AutoScalingGroup, resourceHasReferences: bool, err: Option<RefError>)
    modifies res`spec
    ensures ko == res
    ensures var r := Resolution(old(res.spec), reader, res.namespace);
            && res.spec == r.spec && resourceHasReferences == r.met
            && err == (if r.err.Some? then r.err else ValidationError(old(res.spec)))
            && (err.None? <==> r.err.None? && Valid(old(res.spec)))
    ensures err.None? ==> AllTaken(old(res.spec), res.spec, reader, res.namespace)
  {
    hide AllTaken;
    ghost var before := res.spec;
    ko := res;
    resourceHasReferences := false;
    var invalid := ValidateReferenceFields(ko);
    var met, failed := ResolveReferenceForInstanceID(reader, ko);
    resourceHasReferences := resourceHasReferences || met;
    if failed.Some? {
      return ko, resourceHasReferences, failed;
    }
    met, failed := ResolveReferenceForHookRoleARNs(reader, ko);
    resourceHasReferences := resourceHasReferences || met;
    if failed.Some? {
      return ko, resourceHasReferences, failed;
    }
    met, failed := ResolveReferenceForServiceLinkedRoleARN(reader, ko);
    resourceHasReferences := resourceHasReferences || met;
    if failed.Some? {
      return ko, resourceHasReferences, failed;
    }
    met, failed := ResolveReferenceForTargetGroupARNs(reader, ko);
    resourceHasReferences := resourceHasReferences || met;
    if failed.Some? {
      return ko, resourceHasReferences, failed;
    }
    TargetsAreTaken(before, reader, res.namespace);
    err := invalid;
  }

  // ---- clearing -----------------------------------------------------------------------------

  function ClearedHook(h: LifecycleHookSpecification): LifecycleHookSpecification {
    if h.roleRef.Some? then h.(roleARN := None) else h
  }

  function ClearedHooks(l: seq<LifecycleHookSpecification>, n: nat): seq<LifecycleHookSpecification> {
    seq(|l|, i requires 0 <= i < |l| => if i < n then ClearedHook(l[i]) else l[i])
  }

  function Cleared(s: Spec): Spec {
    s.(instanceID := if s.instanceRef.Some? then None else s.instanceID,
       lifecycleHooks := if s.lifecycleHooks.NilSlice? then NilSlice
                         else Elems(ClearedHooks(s.lifecycleHooks.elems, |s.lifecycleHooks.elems|)),
       serviceLinkedRoleARN := if s.serviceLinkedRoleRef.Some? then None else s.serviceLinkedRoleARN,
       targetGroupARNs := if |s.targetGroupRefs.Items()| > 0 then NilSlice else s.targetGroupARNs)
  }

  /** Works on a deep copy: the resource it is given stays as it is. */
  method ClearResolvedReferences(res: AutoScalingGroup) returns (ko: AutoScalingGroup)
    ensures fresh(ko) && ko.spec == Cleared(res.spec) && ko.namespace == res.namespace
  {
    ko := res.DeepCopy();
    if ko.spec.instanceRef.Some? {
      ko.spec := ko.spec.(instanceID := None);
    }
    if ko.spec.lifecycleHooks.Elems? {
      ghost var before := ko.spec;
      var l := ko.spec.lifecycleHooks.elems;
      assert l == ClearedHooks(l, 0);
      for i := 0 to |l|
        invariant ko.spec == before.(lifecycleHooks := Elems(ClearedHooks(l, i)))
        invariant ko.namespace == res.namespace
      {
        if l[i].roleRef.Some? {
          ko.spec := ko.spec.(lifecycleHooks := Elems(ko.spec.lifecycleHooks.elems[i := l[i].(roleARN := None)]));
        }
        assert ko.spec.lifecycleHooks.elems == ClearedHooks(l, i + 1);
      }
    }
    if ko.spec.serviceLinkedRoleRef.Some? {
      ko.spec := ko.spec.(serviceLinkedRoleARN := None);
    }
    if |ko.spec.targetGroupRefs.Items()| > 0 {
      ko.spec := ko.spec.(targetGroupARNs := NilSlice);
    }
  }

  // ---- properties ---------------------------------------------------------------------------

  /** Equal up to nil and empty target group lists. */
  predicate SameButEmptyARNs(a: Spec, b: Spec) {
    a.(targetGroupARNs := NilSlice) == b.(targetGroupARNs := NilSlice)
    && a.targetGroupARNs.Items() == b.targetGroupARNs.Items()
  }

  /** What resolution may change, wherever it stops: nothing but the four target fields, and none of
      them without a reference beside it. */
  predicate OnlyTargetsDiffer(s: Spec, t: Spec) {
    && t == s.(instanceID := t.instanceID, lifecycleHooks := t.lifecycleHooks,
               serviceLinkedRoleARN := t.serviceLinkedRoleARN, targetGroupARNs := t.targetGroupARNs)
    && (s.instanceRef.None? ==> t.instanceID == s.instanceID)
    && (s.serviceLinkedRoleRef.None? ==> t.serviceLinkedRoleARN == s.serviceLinkedRoleARN)
    && (|s.targetGroupRefs.Items()| == 0 ==> t.targetGroupARNs == s.targetGroupARNs)
    && (t.lifecycleHooks.NilSlice? <==> s.lifecycleHooks.NilSlice?)
    && |t.lifecycleHooks.Items()| == |s.lifecycleHooks.Items()|
    && forall i | 0 <= i < |s.lifecycleHooks.Items()| ::
         var g, h := s.lifecycleHooks.Items()[i], t.lifecycleHooks.Items()[i];
         h == g.(roleARN := h.roleARN) && (g.roleRef.None? ==> h == g)
  }

  lemma ResolutionChangesTargetsOnly(s: Spec, reader: Reader, namespace: string)
    ensures OnlyTargetsDiffer(s, Resolution(s, reader, namespace).spec)
  {
    var a := InstanceStage(s, reader, namespace);
    var b := HooksStage(a.spec, reader, namespace);
    HooksStageChangesHooksOnly(a.spec, reader, namespace);
    assert OnlyTargetsDiffer(s, a.spec) && OnlyTargetsDiffer(s, b.spec);
    if a.err.None? && b.err.None? {
      LastStagesChangeTargetsOnly(s, b.spec, reader, namespace);
    }
  }

  lemma LastStagesChangeTargetsOnly(s: Spec, t: Spec, reader: Reader, namespace: string)
    requires OnlyTargetsDiffer(s, t)
    ensures OnlyTargetsDiffer(s, RoleStage(t, reader, namespace).spec)
    ensures OnlyTargetsDiffer(s, GroupsStage(RoleStage(t, reader, namespace).spec, reader, namespace).spec)
  {
  }

  lemma HooksStageChangesHooksOnly(s: Spec, reader: Reader, namespace: string)
    ensures OnlyTargetsDiffer(s, HooksStage(s, reader, namespace).spec)
    ensures HooksStage(s, reader, namespace).spec
            == s.(lifecycleHooks := HooksStage(s, reader, namespace).spec.lifecycleHooks)
  {
  }

  /** Clearing what resolution left behind gives the original back exactly when the original passes
      validation. It does not matter what the cluster answered or where the resolution stopped, midway
      through the target groups included. */
  lemma ClearUndoesResolution(s: Spec, reader: Reader, namespace: string)
    ensures SameButEmptyARNs(Cleared(Resolution(s, reader, namespace).spec), s) <==> Valid(s)
  {
    var t := Resolution(s, reader, namespace).spec;
    ResolutionChangesTargetsOnly(s, reader, namespace);
    ClearOfTargets(s, t);
  }

  lemma ClearOfTargets(s: Spec, t: Spec)
    requires OnlyTargetsDiffer(s, t)
    ensures SameButEmptyARNs(Cleared(t), s) <==> Valid(s)
  {
    var c := Cleared(t);
    forall i | 0 <= i < |s.lifecycleHooks.Items()|
      ensures c.lifecycleHooks.Items()[i] == s.lifecycleHooks.Items()[i] <==> !HookConflict(s.lifecycleHooks.Items()[i])
    {
    }
    if Valid(s) {
      assert c.lifecycleHooks.Items() == s.lifecycleHooks.Items();
    }
  }

  /** Some reference of the spec names an object. */
  predicate HasReferences(s: Spec) {
    || HasFrom(s.instanceRef)
    || AnyHookFrom(s.lifecycleHooks.Items())
    || HasFrom(s.serviceLinkedRoleRef)
    || AnyFrom(s.targetGroupRefs.Items())
  }

  /** Every reference of the spec that names an object resolves. */
  predicate AllResolve(s: Spec, reader: Reader, namespace: string) {
    && (HasFrom(s.instanceRef) ==> Resolved(reader, Instance, s.instanceRef.value.from.value, namespace).Some?)
    && (forall i | 0 <= i < |s.lifecycleHooks.Items()| :: !HookFails(s.lifecycleHooks.Items()[i], reader, namespace))
    && (HasFrom(s.serviceLinkedRoleRef) ==>
          Resolved(reader, ServiceLinkedRole, s.serviceLinkedRoleRef.value.from.value, namespace).Some?)
    && (forall i | 0 <= i < |s.targetGroupRefs.Items()| ::
          !FailingGroup(reader, namespace)(s.targetGroupRefs.Items()[i]))
  }

  /** The boolean result says whether the spec has references, on failing paths as on successful ones;
      the stages go through exactly when every reference resolves; and then the target groups are the
      original ones followed by one ARN per reference, in order. */
  lemma ResolutionReports(s: Spec, reader: Reader, namespace: string)
    ensures Resolution(s, reader, namespace).met <==> HasReferences(s)
    ensures Resolution(s, reader, namespace).err.None? <==> AllResolve(s, reader, namespace)
    ensures Resolution(s, reader, namespace).err.None? ==>
              Resolution(s, reader, namespace).spec.targetGroupARNs.Items()
              == s.targetGroupARNs.Items() + GroupARNs(s.targetGroupRefs.Items(), reader, namespace)
  {
    var a := InstanceStage(s, reader, namespace);
    HooksReport(a.spec, reader, namespace);
    HooksStageChangesHooksOnly(a.spec, reader, namespace);
    if a.err.None? && HooksStage(a.spec, reader, namespace).err.None? {
      var c := RoleStage(HooksStage(a.spec, reader, namespace).spec, reader, namespace);
      if c.err.None? {
        GroupsReport(c.spec, reader, namespace);
      }
    }
  }

  lemma HooksReport(s: Spec, reader: Reader, namespace: string)
    ensures HooksStage(s, reader, namespace).err.None? <==>
              forall i | 0 <= i < |s.lifecycleHooks.Items()| ::
                !HookFails(s.lifecycleHooks.Items()[i], reader, namespace)
    ensures HooksStage(s, reader, namespace).err.Some? ==> HooksStage(s, reader, namespace).met
  {
    var l := s.lifecycleHooks.Items();
    var n := Reach(l, FailingHook(reader, namespace));
    assert n < |l| ==> FailingHook(reader, namespace)(l[n]) && HasFrom(l[n].roleRef);
    assert forall i | 0 <= i < n :: !FailingHook(reader, namespace)(l[i]) && !HookFails(l[i], reader, namespace);
  }

  lemma GroupsReport(s: Spec, reader: Reader, namespace: string)
    ensures GroupsStage(s, reader, namespace).err.None? <==>
              forall i | 0 <= i < |s.targetGroupRefs.Items()| ::
                !FailingGroup(reader, namespace)(s.targetGroupRefs.Items()[i])
    ensures GroupsStage(s, reader, namespace).err.None? ==>
              GroupsStage(s, reader, namespace).spec.targetGroupARNs.Items()
              == s.targetGroupARNs.Items() + GroupARNs(s.targetGroupRefs.Items(), reader, namespace)
  {
    var l := s.targetGroupRefs.Items();
    if Reach(l, FailingGroup(reader, namespace)) == |l| {
      assert l[..|l|] == l;
    }
  }

  lemma ResolvedIsTaken(reader: Reader, kind: Kind, r: NamespacedRef, namespace: string)
    requires Resolved(reader, kind, r, namespace).Some?
    ensures TakenFrom(Resolved(reader, kind, r, namespace), reader, kind, r, namespace)
  {
  }

  lemma {:induction false} OneARNEach(l: seq<Option<Reference>>, reader: Reader, namespace: string)
    ensures |GroupARNs(l, reader, namespace)| == |Naming(l)|
  {
    if l == [] {
      assert Naming(l) == {};
    } else {
      var last := |l| - 1;
      OneARNEach(l[..last], reader, namespace);
      assert Naming(l) == if HasFrom(l[last]) then Naming(l[..last]) + {last} else Naming(l[..last]);
    }
  }

  lemma {:induction false} GroupARNAt(l: seq<Option<Reference>>, reader: Reader, namespace: string, i: nat)
    requires i < |l| && HasFrom(l[i])
    ensures |GroupARNs(l[..i], reader, namespace)| < |GroupARNs(l, reader, namespace)|
    ensures GroupARNs(l, reader, namespace)[|GroupARNs(l[..i], reader, namespace)|] == GroupARN(l[i], reader, namespace)
    decreases |l|
  {
    var init := l[..|l| - 1];
    if i < |l| - 1 {
      assert init[..i] == l[..i];
      GroupARNAt(init, reader, namespace, i);
    }
  }

  lemma GroupsAreTaken(l: seq<Option<Reference>>, reader: Reader, namespace: string, i: nat)
    requires i < |l| && HasFrom(l[i]) && !FailingGroup(reader, namespace)(l[i])
    ensures |Naming(l[..i])| < |GroupARNs(l, reader, namespace)|
    ensures TakenFrom(GroupARNs(l, reader, namespace)[|Naming(l[..i])|], reader, TargetGroup, l[i].value.from.value,
                      namespace)
  {
    hide TakenFrom, Naming, GroupARNs;
    OneARNEach(l[..i], reader, namespace);
    GroupARNAt(l, reader, namespace, i);
    ResolvedIsTaken(reader, TargetGroup, l[i].value.from.value, namespace);
  }

  lemma OthersAreTaken(s: Spec, reader: Reader, namespace: string)
    requires Resolution(s, reader, namespace).err.None?
    ensures var t := Resolution(s, reader, namespace).spec;
            && (HasFrom(s.instanceRef) ==>
                  TakenFrom(t.instanceID, reader, Instance, s.instanceRef.value.from.value, namespace))
            && (HasFrom(s.serviceLinkedRoleRef) ==>
                  TakenFrom(t.serviceLinkedRoleARN, reader, ServiceLinkedRole,
                            s.serviceLinkedRoleRef.value.from.value, namespace))
            && |t.lifecycleHooks.Items()| == |s.lifecycleHooks.Items()|
            && forall i | 0 <= i < |s.lifecycleHooks.Items()| && HasFrom(s.lifecycleHooks.Items()[i].roleRef) ::
                 TakenFrom(t.lifecycleHooks.Items()[i].roleARN, reader, Role,
                           s.lifecycleHooks.Items()[i].roleRef.value.from.value, namespace)
  {
    hide TakenFrom, GroupsStage;
    if HasFrom(s.instanceRef) {
      ResolvedIsTaken(reader, Instance, s.instanceRef.value.from.value, namespace);
    }
    if HasFrom(s.serviceLinkedRoleRef) {
      ResolvedIsTaken(reader, ServiceLinkedRole, s.serviceLinkedRoleRef.value.from.value, namespace);
    }
    forall i | 0 <= i < |s.lifecycleHooks.Items()| && HasFrom(s.lifecycleHooks.Items()[i].roleRef)
              && Resolved(reader, Role, s.lifecycleHooks.Items()[i].roleRef.value.from.value, namespace).Some?
      ensures TakenFrom(Resolved(reader, Role, s.lifecycleHooks.Items()[i].roleRef.value.from.value, namespace),
                        reader, Role, s.lifecycleHooks.Items()[i].roleRef.value.from.value, namespace)
    {
      ResolvedIsTaken(reader, Role, s.lifecycleHooks.Items()[i].roleRef.value.from.value, namespace);
    }
    var c := RoleStage(HooksStage(InstanceStage(s, reader, namespace).spec, reader, namespace).spec, reader, namespace);
    GroupsStageChangesARNsOnly(c.spec, reader, namespace);
  }

  lemma GroupsStageChangesARNsOnly(s: Spec, reader: Reader, namespace: string)
    ensures var t := GroupsStage(s, reader, namespace).spec;
            t.instanceID == s.instanceID && t.serviceLinkedRoleARN == s.serviceLinkedRoleARN
            && t.lifecycleHooks == s.lifecycleHooks
  {
  }

  /** A resolution that goes through takes every target from the object that its reference names. */
  lemma TargetsAreTaken(s: Spec, reader: Reader, namespace: string)
    requires Resolution(s, reader, namespace).err.None?
    ensures AllTaken(s, Resolution(s, reader, namespace).spec, reader, namespace)
  {
    hide TakenFrom, Naming, Resolution, FailingGroup, GroupARNs;
    ResolutionReports(s, reader, namespace);
    OthersAreTaken(s, reader, namespace);
    var refs := s.targetGroupRefs.Items();
    OneARNEach(refs, reader, namespace);
    forall i | 0 <= i < |refs| && HasFrom(refs[i])
      ensures |Naming(refs[..i])| < |GroupARNs(refs, reader, namespace)|
      ensures TakenFrom(GroupARNs(refs, reader, namespace)[|Naming(refs[..i])|], reader, TargetGroup,
                        refs[i].value.from.value, namespace)
    {
      GroupsAreTaken(refs, reader, namespace, i);
    }
  }

  /** Why the reference cannot be resolved, if it names an object and cannot be. */
  function Complaint(r: Option<Reference>, reader: Reader, kind: Kind, namespace: string): Option<RefError> {
    if r.None? || r.value.from.None? then None else ReferenceError(reader, kind, r.value.from.value, namespace)
  }

  lemma HookComplains(h: LifecycleHookSpecification, reader: Reader, namespace: string)
    ensures FailingHook(reader, namespace)(h) <==> Complaint(h.roleRef, reader, Role, namespace).Some?
  {
  }

  lemma GroupComplains(r: Option<Reference>, reader: Reader, namespace: string)
    ensures FailingGroup(reader, namespace)(r) <==> Complaint(r, reader, TargetGroup, namespace).Some?
  {
  }

  /** The instance comes first, then the hooks: whatever comes behind the first reference that cannot be
      resolved stays as it was, and that reference's complaint is the error. */
  lemma StopsAtInstanceOrHook(s: Spec, reader: Reader, namespace: string, n: nat)
    ensures var r, e := Resolution(s, reader, namespace), Complaint(s.instanceRef, reader, Instance, namespace);
            e.Some? ==> r == Stage(s, true, e)
    ensures var r, l := Resolution(s, reader, namespace), s.lifecycleHooks.Items();
            && Complaint(s.instanceRef, reader, Instance, namespace).None?
            && n < |l| && Complaint(l[n].roleRef, reader, Role, namespace).Some?
            && (forall i | 0 <= i < n :: Complaint(l[i].roleRef, reader, Role, namespace).None?) ==>
              && r.err == Complaint(l[n].roleRef, reader, Role, namespace)
              && r.spec == s.(instanceID := r.spec.instanceID, lifecycleHooks := r.spec.lifecycleHooks)
              && |r.spec.lifecycleHooks.Items()| == |l|
              && forall i | n <= i < |l| :: r.spec.lifecycleHooks.Items()[i] == l[i]
  {
    var l := s.lifecycleHooks.Items();
    if n < |l| && (forall i | 0 <= i < n :: Complaint(l[i].roleRef, reader, Role, namespace).None?) {
      forall i | 0 <= i <= n
        ensures FailingHook(reader, namespace)(l[i]) <==> Complaint(l[i].roleRef, reader, Role, namespace).Some?
      {
        HookComplains(l[i], reader, namespace);
      }
      if Complaint(l[n].roleRef, reader, Role, namespace).Some? {
        assert Reach(l, FailingHook(reader, namespace)) == n;
      }
    }
  }

  lemma GroupsStop(s: Spec, reader: Reader, namespace: string, n: nat)
    requires n < |s.targetGroupRefs.Items()|
    requires Complaint(s.targetGroupRefs.Items()[n], reader, TargetGroup, namespace).Some?
    requires forall i | 0 <= i < n :: Complaint(s.targetGroupRefs.Items()[i], reader, TargetGroup, namespace).None?
    ensures var r, l := GroupsStage(s, reader, namespace), s.targetGroupRefs.Items();
            && r.err == Complaint(l[n], reader, TargetGroup, namespace)
            && r.spec.targetGroupARNs.Items() == s.targetGroupARNs.Items() + GroupARNs(l[..n], reader, namespace)
  {
    var l := s.targetGroupRefs.Items();
    forall i | 0 <= i <= n
      ensures FailingGroup(reader, namespace)(l[i]) <==> Complaint(l[i], reader, TargetGroup, namespace).Some?
    {
      GroupComplains(l[i], reader, namespace);
    }
    assert Reach(l, FailingGroup(reader, namespace)) == n;
  }

  /** The stages before the service-linked role went through, and what that stage makes of its own. */
  lemma StagesBefore(s: Spec, reader: Reader, namespace: string)
    requires Complaint(s.instanceRef, reader, Instance, namespace).None?
    requires forall i | 0 <= i < |s.lifecycleHooks.Items()| ::
               Complaint(s.lifecycleHooks.Items()[i].roleRef, reader, Role, namespace).None?
    ensures var a := InstanceStage(s, reader, namespace);
            var b := HooksStage(a.spec, reader, namespace);
            var c := RoleStage(b.spec, reader, namespace);
            && a.err.None? && b.err.None?
            && c.err == Complaint(s.serviceLinkedRoleRef, reader, ServiceLinkedRole, namespace)
            && b.spec == s.(instanceID := b.spec.instanceID, lifecycleHooks := b.spec.lifecycleHooks)
            && (c.err.Some? ==> c.spec == b.spec)
            && c.spec.targetGroupARNs == s.targetGroupARNs && c.spec.targetGroupRefs == s.targetGroupRefs
  {
    var a := InstanceStage(s, reader, namespace);
    HooksReport(a.spec, reader, namespace);
    HooksStageChangesHooksOnly(a.spec, reader, namespace);
    forall i | 0 <= i < |s.lifecycleHooks.Items()|
      ensures !HookFails(s.lifecycleHooks.Items()[i], reader, namespace)
    {
      HookComplains(s.lifecycleHooks.Items()[i], reader, namespace);
    }
    hide HooksStage;
  }

  /** Then the service-linked role, and last the target groups. */
  lemma StopsAtRoleOrGroup(s: Spec, reader: Reader, namespace: string, n: nat)
    requires Complaint(s.instanceRef, reader, Instance, namespace).None?
    requires forall i | 0 <= i < |s.lifecycleHooks.Items()| ::
               Complaint(s.lifecycleHooks.Items()[i].roleRef, reader, Role, namespace).None?
    ensures var r := Resolution(s, reader, namespace);
            var e := Complaint(s.serviceLinkedRoleRef, reader, ServiceLinkedRole, namespace);
            e.Some? ==>
              && r.err == e
              && r.spec == s.(instanceID := r.spec.instanceID, lifecycleHooks := r.spec.lifecycleHooks)
    ensures var r, l := Resolution(s, reader, namespace), s.targetGroupRefs.Items();
            && Complaint(s.serviceLinkedRoleRef, reader, ServiceLinkedRole, namespace).None?
            && n < |l| && Complaint(l[n], reader, TargetGroup, namespace).Some?
            && (forall i | 0 <= i < n :: Complaint(l[i], reader, TargetGroup, namespace).None?) ==>
              && r.err == Complaint(l[n], reader, TargetGroup, namespace)
              && r.spec.targetGroupARNs.Items() == s.targetGroupARNs.Items() + GroupARNs(l[..n], reader, namespace)
  {
    hide Complaint, GroupsStage, HooksStage, GroupARNs;
    var l := s.targetGroupRefs.Items();
    StagesBefore(s, reader, namespace);
    if n < |l| && Complaint(l[n], reader, TargetGroup, namespace).Some?
       && (forall i | 0 <= i < n :: Complaint(l[i], reader, TargetGroup, namespace).None?)
    {
      var b := HooksStage(InstanceStage(s, reader, namespace).spec, reader, namespace);
      GroupsStop(RoleStage(b.spec, reader, namespace).spec, reader, namespace, n);
    }
  }
}
