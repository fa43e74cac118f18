/** Choosing the worker instance a command is sent to
    (`facades/Ec2Facade.java`, `getInstanceId`). The EC2 describe call is
    answered by its reservations; the random draw is a parameter. */
module Ec2Facade {
  import opened Outcomes
  import opened Strings
  import opened EnvConfig

  datatype Filter = Filter(name: string, values: seq<string>)

  /** An instance as the describe call sees it. */
  datatype Instance = Instance(instanceId: string, state: string, tags: map<string, string>)

  datatype Reservation = Reservation(instances: seq<Instance>)

  const RunningInstanceFilter: Filter := Filter("instance-state-name", ["running"])

  /** The two filters of the describe request. */
  function DescribeFilters(instanceTag: Tag): (filters: seq<Filter>)
    ensures |filters| == 2 && filters[1] == RunningInstanceFilter
    ensures filters[0].name == "tag:" + instanceTag.key && filters[0].values == [instanceTag.value]
  {
    [Filter("tag:" + instanceTag.key, [instanceTag.value]), RunningInstanceFilter]
  }

  /** EC2's reading of one filter. */
  predicate FilterSelects(f: Filter, inst: Instance) {
    if f.name == "instance-state-name" then inst.state in f.values
    else if StartsWith(f.name, "tag:") then
      var key := f.name[4..];
      key in inst.tags && inst.tags[key] in f.values
    else false
  }

  /** The request selects exactly the running instances carrying the tag. */
  lemma DescribeFiltersSelect(instanceTag: Tag, inst: Instance)
    ensures (forall f :: f in DescribeFilters(instanceTag) ==> FilterSelects(f, inst)) <==>
      (inst.state == "running" && instanceTag.key in inst.tags && inst.tags[instanceTag.key] == instanceTag.value)
  {
    var filters := DescribeFilters(instanceTag);
    assert ("tag:" + instanceTag.key)[..4] == "tag:";
    assert ("tag:" + instanceTag.key)[4..] == instanceTag.key;
    assert filters[0].name != "instance-state-name" by {
      assert filters[0].name[3] == ':';
      assert "instance-state-name"[3] == 't';
    }
    assert filters[0] in filters && filters[1] in filters;
  }

  /** Some reservation holds an instance with this id. */
  predicate Holds(reservations: seq<Reservation>, id: string) {
    exists r, i :: 0 <= r < |reservations| && 0 <= i < |reservations[r].instances|
      && reservations[r].instances[i].instanceId == id
  }

  /** The instance ids of all reservations, in order. */
  function Flatten(reservations: seq<Reservation>): (ids: seq<string>)
    ensures forall id :: id in ids <==> Holds(reservations, id)
  {
    if |reservations| == 0 then []
    else
      var first := Ids(reservations[0].instances);
      var rest := Flatten(reservations[1..]);
      assert forall id :: id in first ==> Holds(reservations, id) by {
        forall id | id in first ensures Holds(reservations, id) {
          var i :| 0 <= i < |first| && first[i] == id;
          assert reservations[0].instances[i].instanceId == id;
        }
      }
      assert forall id :: Holds(reservations[1..], id) ==> Holds(reservations, id) by {
        forall id | Holds(reservations[1..], id) ensures Holds(reservations, id) {
          var r, i :| 0 <= r < |reservations[1..]| && 0 <= i < |reservations[1..][r].instances|
            && reservations[1..][r].instances[i].instanceId == id;
          assert reservations[r + 1] == reservations[1..][r];
        }
      }
      assert forall id :: Holds(reservations, id) ==> id in first || Holds(reservations[1..], id) by {
        forall id | Holds(reservations, id) ensures id in first || Holds(reservations[1..], id) {
          var r, i :| 0 <= r < |reservations| && 0 <= i < |reservations[r].instances|
            && reservations[r].instances[i].instanceId == id;
          if r == 0 { assert first[i] == id; }
          else { assert reservations[1..][r - 1] == reservations[r]; }
        }
      }
      first + rest
  }

  function Ids(instances: seq<Instance>): (ids: seq<string>)
    ensures |ids| == |instances| && forall i :: 0 <= i < |instances| ==> ids[i] == instances[i].instanceId
  {
    if |instances| == 0 then [] else [instances[0].instanceId] + Ids(instances[1..])
  }

  /** The candidates; a null reservation list gives none. */
  function CandidateIds(reservations: Option<seq<Reservation>>): seq<string> {
    if reservations.None? then [] else Flatten(reservations.value)
  }

  function NoInstanceMessage(instanceTag: Tag): string {
    "Invalid FulfillmentConfig. No instances found with TagKey: " + instanceTag.key
    + " and TagValue: " + instanceTag.value
  }

  /** A candidate drawn by `Random.nextInt(size)`, modelled as `draw % size`;
      no candidate at all is an error naming the tag. */
  function GetInstanceId(instanceTag: Tag, reservations: Option<seq<Reservation>>, draw: nat): (r: Result<string>)
    ensures r.Ok? <==> |CandidateIds(reservations)| > 0
    ensures r.Ok? ==> r.value in CandidateIds(reservations)
    ensures r.Ok? ==> r.value == CandidateIds(reservations)[draw % |CandidateIds(reservations)|]
    ensures r.Err? ==> r.error == Runtime(NoInstanceMessage(instanceTag))
  {
    var ids := CandidateIds(reservations);
    if |ids| == 0 then Err(Runtime(NoInstanceMessage(instanceTag)))
    else Ok(ids[draw % |ids|])
  }
}
