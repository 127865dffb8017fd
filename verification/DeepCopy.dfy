/** The generated deep copies (zz_generated.deepcopy.go) on the heap.

    Every field of every struct of a spec is a pointer or a slice. So a spec in memory is a graph of
    objects: scalars, structs that hold one slot per field, and slices that hold one slot per element;
    a slot is nil or points to an object, and several slots may point to the same one. The generator
    writes one and the same block of code for every field of a kind; which blocks a type's `DeepCopyInto`
    consists of is its shape.

    Elsewhere in this project a spec is a value of type `Api.Spec`. A graph stands for one such value at
    most; a deep copy stands for the value of the original, shares no object with it, and is a tree even
    where the original shares objects between its own slots. */
module DeepCopy {
  import opened Basics
  import opened SpecValues
  import Api

  // ---- objects and what they stand for ------------------------------------------------------

  datatype Content = Scalar(plain: Plain) | Slots(slots: seq<Object?>)

  class Object {
    var content: Content

    constructor (content: Content)
      ensures this.content == content
    {
      this.content := content;
    }
  }

  /** `p` stands for `v`, and every object that can be reached from it is in `r`. */
  ghost predicate Is(p: Object?, v: Value, r: set<object>)
    reads r
    decreases v
  {
    match v
    case Nil => p == null
    case Leaf(x) => p != null && p in r && p.content == Scalar(x)
    case Node(kids) => p != null && p in r && p.content.Slots? && AllAre(p.content.slots, kids, r)
  }

  ghost predicate AllAre(ps: seq<Object?>, vs: seq<Value>, r: set<object>)
    reads r
    decreases vs
  {
    |ps| == |vs| && forall i | 0 <= i < |ps| :: Is(ps[i], vs[i], r)
  }

  lemma {:induction false} Widen(p: Object?, v: Value, s: set<object>, r: set<object>)
    requires Is(p, v, s) && s <= r
    ensures Is(p, v, r)
    decreases v
  {
    if v.Node? {
      forall i | 0 <= i < |v.kids|
        ensures Is(p.content.slots[i], v.kids[i], r)
      {
        Widen(p.content.slots[i], v.kids[i], s, r);
      }
    }
  }

  /** A graph stands for one value only. */
  lemma {:induction false} OneValue(p: Object?, v: Value, w: Value, s: set<object>, r: set<object>)
    requires Is(p, v, s) && Is(p, w, r)
    ensures v == w
    decreases v
  {
    if v.Node? {
      forall i | 0 <= i < |v.kids|
        ensures v.kids[i] == w.kids[i]
      {
        OneValue(p.content.slots[i], v.kids[i], w.kids[i], s, r);
      }
    }
  }

  // ---- graphs without sharing ---------------------------------------------------------------

  /** The objects that can be reached from `p`. */
  ghost function Objects(p: Object?, v: Value, r: set<object>): (objects: set<object>)
    requires Is(p, v, r)
    reads r
    ensures objects <= r
    decreases v
  {
    match v
    case Nil => {}
    case Leaf(_) => {p}
    case Node(kids) =>
      assert AllAre(p.content.slots, kids, r);
      {p} + set i, o | 0 <= i < |kids| && o in Objects(p.content.slots[i], kids[i], r) :: o
  }

  /** Every object is reached in one way only. */
  ghost predicate IsTree(p: Object?, v: Value, r: set<object>)
    requires Is(p, v, r)
    reads r
    decreases v
  {
    v.Node? ==>
      && AllAre(p.content.slots, v.kids, r)
      && (forall i | 0 <= i < |v.kids| :: p !in Objects(p.content.slots[i], v.kids[i], r))
      && AreTrees(p.content.slots, v.kids, r)
  }

  ghost predicate AreTrees(ps: seq<Object?>, vs: seq<Value>, r: set<object>)
    requires AllAre(ps, vs, r)
    reads r
    decreases vs
  {
    && (forall i | 0 <= i < |ps| :: IsTree(ps[i], vs[i], r))
    && forall i, j | 0 <= i < j < |ps| :: Objects(ps[i], vs[i], r) !! Objects(ps[j], vs[j], r)
  }

  /** It does not matter in which set of objects one looks. */
  lemma {:induction false} SameObjects(p: Object?, v: Value, s: set<object>, r: set<object>)
    requires Is(p, v, s) && Is(p, v, r)
    ensures Objects(p, v, s) == Objects(p, v, r)
    ensures IsTree(p, v, s) <==> IsTree(p, v, r)
    decreases v
  {
    if v.Node? {
      forall i | 0 <= i < |v.kids|
        ensures Objects(p.content.slots[i], v.kids[i], s) == Objects(p.content.slots[i], v.kids[i], r)
        ensures IsTree(p.content.slots[i], v.kids[i], s) <==> IsTree(p.content.slots[i], v.kids[i], r)
      {
        SameObjects(p.content.slots[i], v.kids[i], s, r);
      }
    }
  }

  lemma {:induction false} OwnObjects(p: Object?, v: Value, r: set<object>)
    requires Is(p, v, r)
    ensures Is(p, v, Objects(p, v, r))
    decreases v
  {
    if v.Node? {
      var own := Objects(p, v, r);
      forall i | 0 <= i < |v.kids|
        ensures Is(p.content.slots[i], v.kids[i], own)
      {
        var q, w := p.content.slots[i], v.kids[i];
        OwnObjects(q, w, r);
        assert forall o | o in Objects(q, w, r) :: o in own;
        Widen(q, w, Objects(q, w, r), own);
      }
    }
  }

  /** The objects of each slot; each slot can be told from its own alone. */
  ghost function Parts(ps: seq<Object?>, vs: seq<Value>, r: set<object>): (parts: seq<set<object>>)
    requires AllAre(ps, vs, r)
    reads r
    ensures |parts| == |ps|
    ensures forall i | 0 <= i < |ps| :: parts[i] == Objects(ps[i], vs[i], r) && Is(ps[i], vs[i], parts[i])
  {
    assert forall i | 0 <= i < |ps| :: Is(ps[i], vs[i], Objects(ps[i], vs[i], r)) by {
      forall i | 0 <= i < |ps|
        ensures Is(ps[i], vs[i], Objects(ps[i], vs[i], r))
      {
        OwnObjects(ps[i], vs[i], r);
      }
    }
    seq(|ps|, i requires 0 <= i < |ps| && AllAre(ps, vs, r) reads r => Objects(ps[i], vs[i], r))
  }

  lemma NoTrees()
    ensures AllAre([], [], {}) && AreTrees([], [], {})
  {
  }

  /** Another tree beside the ones there are. */
  lemma OneMoreTree(ps: seq<Object?>, vs: seq<Value>, s: set<object>, q: Object?, w: Value, t: set<object>)
    requires AllAre(ps, vs, s) && AreTrees(ps, vs, s)
    requires Is(q, w, t) && IsTree(q, w, t) && s !! t
    ensures AllAre(ps + [q], vs + [w], s + t) && AreTrees(ps + [q], vs + [w], s + t)
  {
    forall i | 0 <= i < |ps|
      ensures Is(ps[i], vs[i], s + t) && IsTree(ps[i], vs[i], s + t)
      ensures Objects(ps[i], vs[i], s + t) == Objects(ps[i], vs[i], s)
    {
      Widen(ps[i], vs[i], s, s + t);
      SameObjects(ps[i], vs[i], s, s + t);
    }
    Widen(q, w, t, s + t);
    SameObjects(q, w, t, s + t);
  }

  /** An object above trees. */
  lemma TreeAbove(p: Object, vs: seq<Value>, s: set<object>)
    requires p !in s && p.content.Slots? && AllAre(p.content.slots, vs, s) && AreTrees(p.content.slots, vs, s)
    ensures Is(p, Node(vs), s + {p}) && IsTree(p, Node(vs), s + {p})
  {
    var ps, r := p.content.slots, s + {p};
    forall i | 0 <= i < |ps|
      ensures Is(ps[i], vs[i], r) && IsTree(ps[i], vs[i], r)
      ensures Objects(ps[i], vs[i], r) == Objects(ps[i], vs[i], s)
    {
      Widen(ps[i], vs[i], s, r);
      SameObjects(ps[i], vs[i], s, r);
    }
  }

  // ---- the generated code -------------------------------------------------------------------

  /** The code for a pointer to a scalar, for a pointer to a struct (one block per field), and for a
      slice. */
  datatype Shape = Pointer | Struct(fields: seq<Shape>) | ListOf(element: Shape)

  /** The value has a scalar, a field or an element wherever the code expects one, and the code has a
      block for every field. */
  predicate HasShape(v: Value, shape: Shape)
    decreases shape, v
  {
    v.Nil? ||
    match shape
    case Pointer => v.Leaf?
    case Struct(fields) =>
      v.Node? && |v.kids| == |fields| && forall i | 0 <= i < |fields| :: HasShape(v.kids[i], fields[i])
    case ListOf(element) => v.Node? && forall i | 0 <= i < |v.kids| :: HasShape(v.kids[i], element)
  }

  /** The block for one slot: nothing for nil, else a new object of the kind, filled in. The original
      may share objects between its slots; the copy never does. */
  method Copy(p: Object?, shape: Shape, ghost v: Value, ghost r: set<object>)
    returns (q: Object?, ghost s: set<object>)
    requires Is(p, v, r) && HasShape(v, shape)
    ensures fresh(s) && Is(q, v, s) && IsTree(q, v, s)
    decreases shape, v
  {
    if p == null {
      return null, {};
    }
    match shape
    case Pointer =>
      q := new Object(p.content);
      s := {q};
    case Struct(fields) => q, s := CopyStruct(p, fields, v, r);
    case ListOf(element) => q, s := CopySlice(p, element, v, r);
  }

  /** `*out = *in` shares every slot with the original; then the blocks replace them one by one. */
  method CopyStruct(p: Object, fields: seq<Shape>, ghost v: Value, ghost r: set<object>)
    returns (out: Object, ghost s: set<object>)
    requires v.Node? && Is(p, v, r) && HasShape(v, Struct(fields))
    ensures fresh(s) && Is(out, v, s) && IsTree(out, v, s)
    decreases fields, v
  {
    hide AreTrees, IsTree, Objects;
    out := new Object(p.content);
    s := {};
    NoTrees();
    assert out.content.slots[..0] == [] && v.kids[..0] == [];
    for i := 0 to |fields|
      invariant fresh(out) && fresh(s) && out !in s
      invariant out.content.Slots? && |out.content.slots| == |fields|
      invariant AllAre(out.content.slots[..i], v.kids[..i], s) && AreTrees(out.content.slots[..i], v.kids[..i], s)
      invariant out.content.slots[i..] == p.content.slots[i..]
    {
      assert Is(p.content.slots[i], v.kids[i], r);
      ghost var done := out.content.slots[..i];
      var q, t := Copy(p.content.slots[i], fields[i], v.kids[i], r);
      OneMoreTree(done, v.kids[..i], s, q, v.kids[i], t);
      s := s + t;
      if out.content.slots[i] != null {
        out.content := Slots(out.content.slots[i := q]);
      }
      assert out.content.slots[..i + 1] == done + [q] && v.kids[..i + 1] == v.kids[..i] + [v.kids[i]];
    }
    assert out.content.slots[..|fields|] == out.content.slots && v.kids[..|fields|] == v.kids;
    TreeAbove(out, v.kids, s);
    s := s + {out};
  }

  /** `make` gives nil slots; the loop fills in those that are not nil in the original. */
  method CopySlice(p: Object, element: Shape, ghost v: Value, ghost r: set<object>)
    returns (out: Object, ghost s: set<object>)
    requires v.Node? && Is(p, v, r) && HasShape(v, ListOf(element))
    ensures fresh(s) && Is(out, v, s) && IsTree(out, v, s)
    decreases element, v, 1
  {
    hide AreTrees, IsTree, Objects;
    var n := |p.content.slots|;
    out := new Object(Slots(seq(n, i => null)));
    s := {};
    NoTrees();
    assert out.content.slots[..0] == [] && v.kids[..0] == [];
    for i := 0 to n
      invariant fresh(out) && fresh(s) && out !in s
      invariant out.content.Slots? && |out.content.slots| == n
      invariant AllAre(out.content.slots[..i], v.kids[..i], s) && AreTrees(out.content.slots[..i], v.kids[..i], s)
      invariant forall j | i <= j < n :: out.content.slots[j] == null
    {
      assert Is(p.content.slots[i], v.kids[i], r);
      ghost var done := out.content.slots[..i];
      var q, t := Copy(p.content.slots[i], element, v.kids[i], r);
      OneMoreTree(done, v.kids[..i], s, q, v.kids[i], t);
      s := s + t;
      if p.content.slots[i] != null {
        out.content := Slots(out.content.slots[i := q]);
      }
      assert out.content.slots[..i + 1] == done + [q] && v.kids[..i + 1] == v.kids[..i] + [v.kids[i]];
    }
    assert out.content.slots[..n] == out.content.slots && v.kids[..n] == v.kids;
    TreeAbove(out, v.kids, s);
    s := s + {out};
  }

  // ---- the shape of the generated code ------------------------------------------------------

  const TEXTS: Shape := ListOf(Pointer)
  const SINGLE: Shape := Struct([Pointer])
  const PAIR: Shape := Struct([Pointer, Pointer])
  const RESERVATION_TARGET: Shape := Struct([TEXTS, TEXTS])
  const RESERVATION: Shape := Struct([Pointer, RESERVATION_TARGET])
  const LIFECYCLE: Shape := Struct([SINGLE])
  const REFERENCE: Shape := Struct([PAIR])
  const HOOK: Shape := Struct([Pointer, Pointer, Pointer, Pointer, Pointer, Pointer, Pointer, REFERENCE])
  const DISTRIBUTION: Shape := Struct([Pointer, Pointer, Pointer, Pointer, Pointer, Pointer])
  const PROCESSOR: Shape := Struct([ListOf(SINGLE)])
  const FACTORS: Shape := Struct([PROCESSOR])
  const REQUIREMENTS_0: seq<Shape> := [PAIR, TEXTS, TEXTS, PAIR, TEXTS, TEXTS, Pointer]
  const REQUIREMENTS_1: seq<Shape> := [PAIR, FACTORS, Pointer, TEXTS, TEXTS, TEXTS, Pointer]
  const REQUIREMENTS_2: seq<Shape> := [TEXTS, Pointer, PAIR, PAIR, PAIR, PAIR, Pointer]
  const REQUIREMENTS_3: seq<Shape> := [Pointer, Pointer, PAIR, PAIR]
  const REQUIREMENTS: Shape := Struct(REQUIREMENTS_0 + REQUIREMENTS_1 + REQUIREMENTS_2 + REQUIREMENTS_3)
  const OVERRIDE: Shape := Struct([Pointer, REQUIREMENTS, Pointer, PAIR, Pointer])
  const LAUNCH_TEMPLATE: Shape := Struct([PAIR, ListOf(OVERRIDE)])
  const MIXED: Shape := Struct([DISTRIBUTION, LAUNCH_TEMPLATE])
  const SPEC_0: seq<Shape> := [SINGLE, PAIR, TEXTS, Pointer, RESERVATION, Pointer, Pointer]
  const SPEC_1: seq<Shape> := [Pointer, Pointer, Pointer, Pointer, Pointer, LIFECYCLE, PAIR]
  const SPEC_2: seq<Shape> := [REFERENCE, Pointer, PAIR, ListOf(HOOK), TEXTS, Pointer, Pointer]
  const SPEC_3: seq<Shape> := [Pointer, MIXED, Pointer, Pointer, Pointer, Pointer, REFERENCE]
  const SPEC_4: seq<Shape> := [Pointer, ListOf(PAIR), TEXTS, ListOf(REFERENCE), TEXTS, ListOf(PAIR), Pointer]
  const SPEC: Shape := Struct(SPEC_0 + SPEC_1 + SPEC_2 + SPEC_3 + SPEC_4)

  // ---- the code has a block for every field -------------------------------------------------

  predicate AllHave(vs: seq<Value>, fs: seq<Shape>) {
    |vs| == |fs| && forall i | 0 <= i < |vs| :: HasShape(vs[i], fs[i])
  }

  lemma JoinFits(vs: seq<Value>, ws: seq<Value>, fs: seq<Shape>, gs: seq<Shape>)
    requires AllHave(vs, fs) && AllHave(ws, gs)
    ensures AllHave(vs + ws, fs + gs)
  {
  }

  lemma ListFits<T>(l: Slice<T>, element: T -> Value, shape: Shape)
    requires forall i | 0 <= i < |l.Items()| :: HasShape(element(l.Items()[i]), shape)
    ensures HasShape(ListValue(l, element), ListOf(shape))
  {
    var v := ListValue(l, element);
    if v.Node? {
      forall i | 0 <= i < |v.kids|
        ensures HasShape(v.kids[i], shape)
      {
        assert v.kids[i] == element(l.Items()[i]);
      }
    }
  }

  lemma TextsFit(l: Api.StringList)
    ensures HasShape(ListValue(l, TextValue), TEXTS)
  {
    ListFits(l, TextValue, Pointer);
  }

  lemma ReservationTargetFits(o: Option<Api.CapacityReservationTarget>)
    ensures HasShape(StructValue(o, ReservationTargetFields), RESERVATION_TARGET)
  {
    if o.Some? {
      var v := o.value;
      TextsFit(v.capacityReservationIDs);
      TextsFit(v.capacityReservationResourceGroupARNs);
    }
  }

  lemma ReservationFits(o: Option<Api.CapacityReservationSpecification>)
    ensures HasShape(StructValue(o, ReservationFields), RESERVATION)
  {
    if o.Some? {
      var v := o.value;
      ReservationTargetFits(v.capacityReservationTarget);
    }
  }

  lemma LifecycleFits(o: Option<Api.InstanceLifecyclePolicy>)
    ensures HasShape(StructValue(o, LifecycleFields), LIFECYCLE)
  {
    if o.Some? {
      var v := o.value;
    }
  }

  lemma ReferenceFits(o: Option<Api.Reference>)
    ensures HasShape(StructValue(o, ReferenceFields), REFERENCE)
  {
    if o.Some? {
      var v := o.value;
    }
  }

  lemma HookFits(o: Option<Api.LifecycleHookSpecification>)
    ensures HasShape(StructValue(o, HookFields), HOOK)
  {
    if o.Some? {
      var v := o.value;
      ReferenceFits(v.roleRef);
    }
  }

  lemma ProcessorFits(o: Option<Api.CPUPerformanceFactor>)
    ensures HasShape(StructValue(o, ProcessorFields), PROCESSOR)
  {
    if o.Some? {
      var v := o.value;
      ListFits(v.references, FactorReferenceValue, SINGLE);
    }
  }

  lemma FactorsFits(o: Option<Api.BaselinePerformanceFactors>)
    ensures HasShape(StructValue(o, FactorsFields), FACTORS)
  {
    if o.Some? {
      var v := o.value;
      ProcessorFits(v.cpu);
    }
  }

  lemma RequirementsFits0(v: Api.InstanceRequirements)
    ensures AllHave(RequirementsFields0(v), REQUIREMENTS_0)
  {
    TextsFit(v.acceleratorManufacturers);
    TextsFit(v.acceleratorNames);
    TextsFit(v.acceleratorTypes);
    TextsFit(v.allowedInstanceTypes);
  }

  lemma RequirementsFits1(v: Api.InstanceRequirements)
    ensures AllHave(RequirementsFields1(v), REQUIREMENTS_1)
  {
    FactorsFits(v.baselinePerformanceFactors);
    TextsFit(v.cpuManufacturers);
    TextsFit(v.excludedInstanceTypes);
    TextsFit(v.instanceGenerations);
  }

  lemma RequirementsFits2(v: Api.InstanceRequirements)
    ensures AllHave(RequirementsFields2(v), REQUIREMENTS_2)
  {
    TextsFit(v.localStorageTypes);
  }

  lemma RequirementsFits3(v: Api.InstanceRequirements)
    ensures AllHave(RequirementsFields3(v), REQUIREMENTS_3)
  {
  }

  lemma RequirementsFits(o: Option<Api.InstanceRequirements>)
    ensures HasShape(StructValue(o, RequirementsFields), REQUIREMENTS)
  {
    hide RequirementsFields0, RequirementsFields1, RequirementsFields2, RequirementsFields3;
    if o.Some? {
      var v := o.value;
      RequirementsFits0(v);
      RequirementsFits1(v);
      RequirementsFits2(v);
      RequirementsFits3(v);
      JoinFits(RequirementsFields0(v), RequirementsFields1(v), REQUIREMENTS_0, REQUIREMENTS_1);
      JoinFits(RequirementsFields0(v) + RequirementsFields1(v), RequirementsFields2(v),
               REQUIREMENTS_0 + REQUIREMENTS_1, REQUIREMENTS_2);
      JoinFits(RequirementsFields0(v) + RequirementsFields1(v) + RequirementsFields2(v), RequirementsFields3(v),
               REQUIREMENTS_0 + REQUIREMENTS_1 + REQUIREMENTS_2, REQUIREMENTS_3);
    }
  }

  lemma OverrideFits(o: Option<Api.LaunchTemplateOverrides>)
    ensures HasShape(StructValue(o, OverrideFields), OVERRIDE)
  {
    if o.Some? {
      var v := o.value;
      RequirementsFits(v.instanceRequirements);
    }
  }

  lemma LaunchTemplateFits(o: Option<Api.LaunchTemplate>)
    ensures HasShape(StructValue(o, LaunchTemplateFields), LAUNCH_TEMPLATE)
  {
    if o.Some? {
      var v := o.value;
      forall i | 0 <= i < |v.overrides.Items()|
        ensures HasShape(OverrideValue(v.overrides.Items()[i]), OVERRIDE)
      {
        OverrideFits(v.overrides.Items()[i]);
      }
      ListFits(v.overrides, OverrideValue, OVERRIDE);
    }
  }

  lemma MixedFits(o: Option<Api.MixedInstancesPolicy>)
    ensures HasShape(StructValue(o, MixedFields), MIXED)
  {
    if o.Some? {
      var v := o.value;
      LaunchTemplateFits(v.launchTemplate);
    }
  }

  lemma SpecFits0(v: Api.Spec)
    ensures AllHave(SpecFields0(v), SPEC_0)
  {
    TextsFit(v.availabilityZones);
    ReservationFits(v.capacityReservationSpecification);
  }

  lemma SpecFits1(v: Api.Spec)
    ensures AllHave(SpecFields1(v), SPEC_1)
  {
    LifecycleFits(v.instanceLifecyclePolicy);
  }

  lemma SpecFits2(v: Api.Spec)
    ensures AllHave(SpecFields2(v), SPEC_2)
  {
    ReferenceFits(v.instanceRef);
    forall i | 0 <= i < |v.lifecycleHooks.Items()|
      ensures HasShape(HookValue(v.lifecycleHooks.Items()[i]), HOOK)
    {
      HookFits(Some(v.lifecycleHooks.Items()[i]));
    }
    ListFits(v.lifecycleHooks, HookValue, HOOK);
    TextsFit(v.loadBalancerNames);
  }

  lemma SpecFits3(v: Api.Spec)
    ensures AllHave(SpecFields3(v), SPEC_3)
  {
    MixedFits(v.mixedInstancesPolicy);
    ReferenceFits(v.serviceLinkedRoleRef);
  }

  lemma SpecFits4(v: Api.Spec)
    ensures AllHave(SpecFields4(v), SPEC_4)
  {
    ListFits(v.tags, TagValue, PAIR);
    TextsFit(v.targetGroupARNs);
    forall i | 0 <= i < |v.targetGroupRefs.Items()|
      ensures HasShape(ReferenceValue(v.targetGroupRefs.Items()[i]), REFERENCE)
    {
      ReferenceFits(v.targetGroupRefs.Items()[i]);
    }
    ListFits(v.targetGroupRefs, ReferenceValue, REFERENCE);
    TextsFit(v.terminationPolicies);
    ListFits(v.trafficSources, SourceValue, PAIR);
  }

  lemma SpecFits(o: Option<Api.Spec>)
    ensures HasShape(StructValue(o, SpecFields), SPEC)
  {
    hide SpecFields0, SpecFields1, SpecFields2, SpecFields3, SpecFields4;
    if o.Some? {
      var v := o.value;
      SpecFits0(v);
      SpecFits1(v);
      SpecFits2(v);
      SpecFits3(v);
      SpecFits4(v);
      JoinFits(SpecFields0(v), SpecFields1(v), SPEC_0, SPEC_1);
      JoinFits(SpecFields0(v) + SpecFields1(v), SpecFields2(v), SPEC_0 + SPEC_1, SPEC_2);
      JoinFits(SpecFields0(v) + SpecFields1(v) + SpecFields2(v), SpecFields3(v),
               SPEC_0 + SPEC_1 + SPEC_2, SPEC_3);
      JoinFits(SpecFields0(v) + SpecFields1(v) + SpecFields2(v) + SpecFields3(v), SpecFields4(v),
               SPEC_0 + SPEC_1 + SPEC_2 + SPEC_3, SPEC_4);
    }
  }

  // ---- a spec -------------------------------------------------------------------------------

  /** The graph stands for the spec. */
  ghost predicate SpecIs(p: Object?, v: Option<Api.Spec>, r: set<object>)
    reads r
  {
    Is(p, SpecValue(v), r)
  }

  /** A graph stands for one spec only, so a copy that stands for the spec of the original stands for
      no other. */
  lemma OneSpec(p: Object?, v: Option<Api.Spec>, w: Option<Api.Spec>, r: set<object>, s: set<object>)
    requires SpecIs(p, v, r) && SpecIs(p, w, s)
    ensures v == w
  {
    SpecTells();
    StructTells(SpecFields);
    hide SpecFields;
    OneValue(p, SpecValue(v), SpecValue(w), r, s);
  }

  /** `DeepCopy` of a spec: every object that can be reached from the copy is new and is reached in one
      way only, and the copy stands for the same spec, nil where the original is nil, at every depth and
      in every slot. */
  method CopySpec(p: Object?, ghost v: Option<Api.Spec>, ghost r: set<object>)
    returns (q: Object?, ghost s: set<object>)
    requires SpecIs(p, v, r)
    ensures fresh(s) && r !! s && SpecIs(q, v, s) && IsTree(q, SpecValue(v), s)
  {
    SpecFits(v);
    hide HasShape;
    q, s := Copy(p, SPEC, SpecValue(v), r);
  }

  // ---- isolation ----------------------------------------------------------------------------

  /** The path of slots ends at a scalar. */
  predicate LeadsToScalar(v: Value, path: seq<nat>)
    decreases |path|
  {
    match v
    case Nil => false
    case Leaf(_) => path == []
    case Node(kids) => path != [] && path[0] < |kids| && LeadsToScalar(kids[path[0]], path[1..])
  }

  /** The value with another scalar at the end of the path. */
  function Replaced(v: Value, path: seq<nat>, x: Plain): Value
    decreases |path|
  {
    if !LeadsToScalar(v, path) then v
    else if v.Leaf? then Leaf(x)
    else Node(v.kids[path[0] := Replaced(v.kids[path[0]], path[1..], x)])
  }

  /** Follows a path of slots and overwrites the scalar it ends at, if it ends at one. Without sharing,
      what the graph stands for changes there and nowhere else. */
  method WriteAt(p: Object?, ghost v: Value, ghost r: set<object>, path: seq<nat>, x: Plain)
    requires Is(p, v, r) && IsTree(p, v, r)
    modifies Objects(p, v, r)
    ensures Is(p, Replaced(v, path, x), r)
    decreases |path|
  {
    if p == null {
      return;
    }
    if path == [] {
      if p.content.Scalar? {
        p.content := Scalar(x);
      }
      return;
    }
    if p.content.Scalar? || path[0] >= |p.content.slots| {
      return;
    }
    ghost var slots := p.content.slots;
    ghost var parts := Parts(slots, v.kids, r);
    WriteAt(p.content.slots[path[0]], v.kids[path[0]], r, path[1..], x);
    forall i | 0 <= i < |slots| && i != path[0]
      ensures Is(slots[i], v.kids[i], r)
    {
      assert Is(slots[i], v.kids[i], parts[i]);
      Widen(slots[i], v.kids[i], parts[i], r);
    }
  }

  /** Whatever is written to whatever can be reached from a graph, a disjoint one stands for what it
      stood for. */
  method OverwriteOther(p: Object?, ghost v: Value, ghost r: set<object>,
                        q: Object?, ghost w: Value, ghost s: set<object>)
    requires Is(p, v, r) && Is(q, w, s) && r !! s
    modifies s
    ensures Is(p, v, r)
  {
    modify s;
  }

  /** Copy, then write through the copy at any path: the copy changes there and nowhere else, and the
      original stands for the same spec as before. */
  method OverwriteCopy(p: Object?, ghost v: Option<Api.Spec>, ghost r: set<object>, path: seq<nat>, x: Plain)
    returns (q: Object?, ghost s: set<object>)
    requires SpecIs(p, v, r)
    ensures fresh(s) && SpecIs(p, v, r)
    ensures Is(q, Replaced(SpecValue(v), path, x), s)
  {
    hide SpecValue;
    q, s := CopySpec(p, v, r);
    WriteAt(q, SpecValue(v), s, path, x);
  }

  /** However the original is overwritten afterwards, the copy still stands for what the original
      stood for. */
  method OverwriteOriginal(p: Object?, ghost v: Option<Api.Spec>, ghost r: set<object>)
    returns (q: Object?, ghost s: set<object>)
    requires SpecIs(p, v, r)
    modifies r
    ensures fresh(s) && SpecIs(q, v, s)
  {
    hide SpecValue;
    q, s := CopySpec(p, v, r);
    modify r;
  }
}
