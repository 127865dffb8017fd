/** The custom resource as an object: the code assigns its spec fields and its status in place. */
module Resource {
  import opened Basics
  import Api

  datatype ConditionType = Terminal | Recoverable | ResourceSynced | OtherType(name: string)

  /** "" is the status of a condition that was just allocated. */
  datatype ConditionStatus = Unset | True | False | Unknown

  datatype ConditionView = ConditionView(kind: ConditionType, status: ConditionStatus, message: Option<string>)

  /** A condition is reached through pointers and written through them. */
  class Condition {
    var kind: ConditionType
    var status: ConditionStatus
    var message: Option<string>

    constructor (kind: ConditionType)
      ensures this.kind == kind && status == Unset && message == None
    {
      this.kind, status, message := kind, Unset, None;
    }

    function View(): ConditionView
      reads this
    {
      ConditionView(kind, status, message)
    }
  }

  datatype Metadata = Metadata(arn: Option<string>, region: Option<string>, ownerAccountID: Option<string>)

  class AutoScalingGroup {
    var namespace: string
    var spec: Api.Spec
    var metadata: Option<Metadata>
    var conditions: Slice<Condition>
    var groupStatus: Option<string>
    var predictedCapacity: Option<int64>

    /** Everything but the conditions is copied by value. */
    constructor Copy(namespace: string, spec: Api.Spec, metadata: Option<Metadata>, conditions: Slice<Condition>,
                     groupStatus: Option<string>, predictedCapacity: Option<int64>)
      ensures this.namespace == namespace && this.spec == spec && this.metadata == metadata
      ensures this.conditions == conditions && this.groupStatus == groupStatus
      ensures this.predictedCapacity == predictedCapacity
    {
      this.namespace, this.spec, this.metadata := namespace, spec, metadata;
      this.conditions, this.groupStatus, this.predictedCapacity := conditions, groupStatus, predictedCapacity;
    }

    /** No condition is listed twice: the list holds distinct pointers, as it does when it comes out
        of a deep copy or was read from the cluster. */
    ghost predicate DistinctConditions()
      reads this
    {
      forall i, j | 0 <= i < j < |conditions.Items()| :: conditions.Items()[i] != conditions.Items()[j]
    }

    /** The objects behind the list. */
    ghost function Pointers(): set<Condition>
      reads this
    {
      set c | c in conditions.Items()
    }

    ghost function ConditionViews(): seq<ConditionView>
      reads this, conditions.Items()
    {
      Views(conditions.Items())
    }

    /** Takes over the status as it is: the conditions are shared from then on. */
    method SetStatus(desired: AutoScalingGroup)
      modifies this`metadata, this`conditions, this`groupStatus, this`predictedCapacity
      ensures metadata == old(desired.metadata) && conditions == old(desired.conditions)
      ensures groupStatus == old(desired.groupStatus) && predictedCapacity == old(desired.predictedCapacity)
    {
      metadata, conditions := desired.metadata, desired.conditions;
      groupStatus, predictedCapacity := desired.groupStatus, desired.predictedCapacity;
    }

    /** The generated deep copy: a new object with new conditions; nothing is shared. */
    method DeepCopy() returns (out: AutoScalingGroup)
      ensures fresh(out) && fresh(out.Pointers()) && out.DistinctConditions()
      ensures out.namespace == namespace && out.spec == spec && out.metadata == metadata
      ensures out.groupStatus == groupStatus && out.predictedCapacity == predictedCapacity
      ensures out.conditions.NilSlice? <==> conditions.NilSlice?
      ensures out.ConditionViews() == ConditionViews()
    {
      if conditions.NilSlice? {
        out := new AutoScalingGroup.Copy(namespace, spec, metadata, NilSlice, groupStatus, predictedCapacity);
        return;
      }
      var copies: seq<Condition> := [];
      for i := 0 to |conditions.elems|
        invariant |copies| == i && fresh(copies)
        invariant forall k | 0 <= k < i :: copies[k].View() == conditions.elems[k].View()
        invariant forall j, k | 0 <= j < k < i :: copies[j] != copies[k]
      {
        var c := conditions.elems[i];
        var copy := new Condition(c.kind);
        copy.status, copy.message := c.status, c.message;
        copies := copies + [copy];
      }
      out := new AutoScalingGroup.Copy(namespace, spec, metadata, Elems(copies), groupStatus, predictedCapacity);
    }
  }

  ghost function Views(cs: seq<Condition>): seq<ConditionView>
    reads cs
  {
    seq(|cs|, i requires 0 <= i < |cs| reads cs => cs[i].View())
  }
}
