/** The Auto Scaling service, as far as the controller sees it: one stored group and its tags. It is
    an assumption, not part of the repository: calls either succeed as written here, or fail, and a
    failed call may still have done part of its work. */
module Service {
  import opened Basics
  import opened TagLists
  import Api
  import GroupShapes
  import Wire

  /** How a tag call ends; a failing one still reached the keys in `applied`. */
  datatype TagOutcome = Succeeds | Fails(error: string, applied: set<string>)

  function TagError(o: TagOutcome): Option<string> {
    if o.Succeeds? then None else Some(o.error)
  }

  /** How an update ends; the answer of a failing one may be all that was lost. */
  datatype UpdateOutcome = Accepted | Rejected(error: string, applied: bool)

  const GROUP_NOT_FOUND: string := "group not found"

  function RequestError(nameKnown: bool, o: UpdateOutcome): Option<string> {
    if !nameKnown then Some(GROUP_NOT_FOUND) else if o.Accepted? then None else Some(o.error)
  }

  function AfterAdd(tags: map<string, string>, sent: map<string, string>, o: TagOutcome): map<string, string> {
    tags + if o.Succeeds? then sent else map k | k in sent && k in o.applied :: sent[k]
  }

  function AfterDelete(tags: map<string, string>, sent: set<string>, o: TagOutcome): map<string, string> {
    tags - if o.Succeeds? then sent else sent * o.applied
  }

  class AutoScalingService {
    var group: Wire.Group
    var tags: map<string, string>
    var tagCalls: nat
    var updateCalls: nat

    constructor (group: Wire.Group, tags: map<string, string>)
      ensures this.group == group && this.tags == tags && tagCalls == 0 && updateCalls == 0
    {
      this.group, this.tags, tagCalls, updateCalls := group, tags, 0, 0;
    }

    method CreateOrUpdateTags(sent: seq<Api.Tag>, o: TagOutcome) returns (err: Option<string>)
      modifies this`tags, this`tagCalls
      ensures tags == AfterAdd(old(tags), TagMap(sent), o) && tagCalls == old(tagCalls) + 1
      ensures err == TagError(o)
    {
      tags := AfterAdd(tags, TagMap(sent), o);
      tagCalls := tagCalls + 1;
      err := TagError(o);
    }

    method DeleteTags(sent: seq<string>, o: TagOutcome) returns (err: Option<string>)
      modifies this`tags, this`tagCalls
      ensures tags == AfterDelete(old(tags), Members(sent), o) && tagCalls == old(tagCalls) + 1
      ensures err == TagError(o)
    {
      tags := AfterDelete(tags, Members(sent), o);
      tagCalls := tagCalls + 1;
      err := TagError(o);
    }

    /** The update request selects the group by name. */
    method UpdateAutoScalingGroup(input: Wire.UpdateInput, o: UpdateOutcome) returns (err: Option<string>)
      modifies this`group, this`updateCalls
      ensures updateCalls == old(updateCalls) + 1
      ensures err == RequestError(input.settings.name == old(group.settings.name), o)
      ensures group == if input.settings.name == old(group.settings.name) && (o.Accepted? || o.applied)
                       then GroupShapes.Updated(old(group), input) else old(group)
    {
      updateCalls := updateCalls + 1;
      if input.settings.name != group.settings.name {
        return Some(GROUP_NOT_FOUND);
      }
      if o.Accepted? || o.applied {
        group := GroupShapes.Updated(group, input);
      }
      err := if o.Accepted? then None else Some(o.error);
    }
  }
}
