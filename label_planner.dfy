/**
 * The label planner, the body of main.py: it looks up the labels of every
 * VM that owns a correctly attached disk, plans the new labels of each such
 * disk and, only after the operator confirms with "y", sends one update per
 * planned disk.
 */
module LabelPlanner {
  import opened Wrappers
  import opened DiskClassifier
  import opened LabelMerge

  /** The instance lookup raised: the compute API does not know the VM. */
  datatype LookupError = InstanceLookupFailed(instanceId: string)

  /** The instance ids of the correct records. */
  function CorrectInstanceIds(recs: seq<Record>): set<string> {
    set i | 0 <= i < |recs| && recs[i].Correct? :: recs[i].instanceId
  }

  /** The disk ids of the correct records. */
  function CorrectDiskIds(recs: seq<Record>): set<string> {
    set i | 0 <= i < |recs| && recs[i].Correct? :: recs[i].diskId
  }

  /** The instance ids that are keys of `m`, keeping their labels. */
  function Restrict(m: map<string, Labels>, ids: set<string>): map<string, Labels> {
    map id | id in ids && id in m :: m[id]
  }

  /** Every correct record's VM has its labels in the cache. */
  predicate CachedFor(recs: seq<Record>, cache: map<string, Labels>) {
    forall i :: 0 <= i < |recs| && recs[i].Correct? ==> recs[i].instanceId in cache
  }

  lemma CorrectIdsStep(recs: seq<Record>, i: nat)
    requires i < |recs|
    ensures CorrectInstanceIds(recs[..i + 1]) ==
              CorrectInstanceIds(recs[..i]) + (if recs[i].Correct? then {recs[i].instanceId} else {})
    ensures CorrectDiskIds(recs[..i + 1]) ==
              CorrectDiskIds(recs[..i]) + (if recs[i].Correct? then {recs[i].diskId} else {})
  {
    var p, q := recs[..i], recs[..i + 1];
    assert forall j :: 0 <= j < i ==> q[j] == p[j];
    assert q[i] == recs[i];
  }

  /**
   * The cache loop: for every correct record, look its VM up and store the
   * VM's labels under its id. A VM that cannot be looked up aborts the run.
   */
  method BuildInstanceLabels(recs: seq<Record>, instances: map<string, Labels>)
    returns (r: Result<map<string, Labels>, LookupError>)
    ensures r.Success? <==> CorrectInstanceIds(recs) <= instances.Keys
    ensures r.Success? ==> r.value.Keys == CorrectInstanceIds(recs)
    ensures r.Success? ==> forall id :: id in r.value ==> r.value[id] == instances[id]
    ensures r.Success? ==> CachedFor(recs, r.value)
    ensures r.Failure? ==>
              exists i :: 0 <= i < |recs| && recs[i].Correct?
                && r.error == InstanceLookupFailed(recs[i].instanceId)
                && recs[i].instanceId !in instances
                && forall j :: 0 <= j < i && recs[j].Correct? ==> recs[j].instanceId in instances
  {
    var cache: map<string, Labels> := map[];
    for i := 0 to |recs|
      invariant CorrectInstanceIds(recs[..i]) <= instances.Keys
      invariant cache == Restrict(instances, CorrectInstanceIds(recs[..i]))
    {
      CorrectIdsStep(recs, i);
      if !recs[i].Correct? {
        continue;
      }
      var id := recs[i].instanceId;
      if id !in instances {
        r := Failure(InstanceLookupFailed(id));
        assert id in CorrectInstanceIds(recs);
        assert forall j :: 0 <= j < i && recs[j].Correct? ==> recs[j].instanceId in instances by {
          forall j | 0 <= j < i && recs[j].Correct?
            ensures recs[j].instanceId in instances
          {
            assert recs[..i][j] == recs[j];
          }
        }
        return;
      }
      cache := cache[id := instances[id]];
    }
    assert recs[..|recs|] == recs;
    r := Success(cache);
  }

  /** The filter loop: keep the allow-listed VM labels whose value is present and non-empty. */
  method FilterVmLabels(vmLabels: Labels, targetKeys: seq<string>) returns (filtered: Labels)
    ensures filtered == FilteredLabels(vmLabels, targetKeys)
    ensures forall k :: k in filtered <==> IsTarget(k, targetKeys) && k in vmLabels && vmLabels[k] != ""
    ensures forall k :: k in filtered ==> filtered[k] == vmLabels[k]
  {
    filtered := map[];
    for i := 0 to |targetKeys|
      invariant filtered == FilteredLabels(vmLabels, targetKeys[..i])
    {
      var key := targetKeys[i];
      assert targetKeys[..i + 1] == targetKeys[..i] + [key];
      if key in vmLabels && vmLabels[key] != "" {
        filtered := filtered[key := vmLabels[key]];
      }
    }
    assert targetKeys[..|targetKeys|] == targetKeys;
  }

  /** One value of `disk_labels_dict`. */
  datatype Plan = Plan(newLabels: Labels, changedKeys: set<string>)

  /** A dictionary that remembers the order in which its keys were first inserted. */
  datatype PlanDict = PlanDict(order: seq<string>, entries: map<string, Plan>)

  /** The order lists every key exactly once. */
  predicate ValidDict(d: PlanDict) {
    && (forall i, j :: 0 <= i < j < |d.order| ==> d.order[i] != d.order[j])
    && (forall k :: k in d.entries ==> k in d.order)
    && (forall i :: 0 <= i < |d.order| ==> d.order[i] in d.entries)
  }

  /** `d.update({k: p})`: a new key goes last, an existing key keeps its place. */
  function Put(d: PlanDict, k: string, p: Plan): (r: PlanDict)
    requires ValidDict(d)
    ensures ValidDict(r)
  {
    PlanDict(if k in d.entries then d.order else d.order + [k], d.entries[k := p])
  }

  /** The plan of one correct disk whose VM carries `vmLabels`. */
  function PlanFor(rec: Record, vmLabels: Labels, targetKeys: seq<string>): (p: Plan)
    requires rec.Correct?
    ensures forall k :: k in rec.oldLabels ==> k in p.newLabels && p.newLabels[k] == rec.oldLabels[k]
    ensures forall k :: k in p.changedKeys ==> IsTarget(k, targetKeys)
  {
    var newLabels := NewLabels(vmLabels, rec.oldLabels, targetKeys);
    Plan(newLabels, ChangedKeys(newLabels, rec.oldLabels))
  }

  /** `disk_labels_dict` after the planning loop has seen all of `recs`. */
  function PlannedLabels(recs: seq<Record>, cache: map<string, Labels>, targetKeys: seq<string>): (d: PlanDict)
    requires CachedFor(recs, cache)
    ensures ValidDict(d)
  {
    if recs == [] then PlanDict([], map[])
    else
      var prefix := PlannedLabels(recs[..|recs| - 1], cache, targetKeys);
      var last := recs[|recs| - 1];
      if last.Correct? then Put(prefix, last.diskId, PlanFor(last, cache[last.instanceId], targetKeys))
      else prefix
  }

  /** Exactly the correct disks are planned; an incorrect disk never appears. */
  lemma {:induction false} PlannedKeys(recs: seq<Record>, cache: map<string, Labels>, targetKeys: seq<string>)
    requires CachedFor(recs, cache)
    ensures PlannedLabels(recs, cache, targetKeys).entries.Keys == CorrectDiskIds(recs)
  {
    if recs != [] {
      PlannedKeys(recs[..|recs| - 1], cache, targetKeys);
      CorrectIdsStep(recs, |recs| - 1);
      assert recs[..|recs|] == recs;
    }
  }

  /** Every planned entry is the plan of some correct record with that disk id. */
  lemma {:induction false} PlannedEntryOrigin(recs: seq<Record>, cache: map<string, Labels>, targetKeys: seq<string>)
    requires CachedFor(recs, cache)
    ensures forall k :: k in PlannedLabels(recs, cache, targetKeys).entries ==>
              exists i :: 0 <= i < |recs| && recs[i].Correct? && recs[i].diskId == k
                && PlannedLabels(recs, cache, targetKeys).entries[k]
                     == PlanFor(recs[i], cache[recs[i].instanceId], targetKeys)
  {
    if recs != [] {
      var prefix := recs[..|recs| - 1];
      PlannedEntryOrigin(prefix, cache, targetKeys);
      assert forall j :: 0 <= j < |prefix| ==> prefix[j] == recs[j];
    }
  }

  /**
   * When a disk id repeats, the last correct record with that id decides
   * its plan, as a later `update` overwrites an earlier one.
   */
  lemma {:induction false} PlannedLastWins(recs: seq<Record>, cache: map<string, Labels>, targetKeys: seq<string>)
    requires CachedFor(recs, cache)
    ensures forall i ::
              (0 <= i < |recs| && recs[i].Correct?
               && forall j :: i < j < |recs| && recs[j].Correct? ==> recs[j].diskId != recs[i].diskId)
              ==>
              recs[i].diskId in PlannedLabels(recs, cache, targetKeys).entries
              && PlannedLabels(recs, cache, targetKeys).entries[recs[i].diskId]
                   == PlanFor(recs[i], cache[recs[i].instanceId], targetKeys)
  {
    if recs != [] {
      var prefix := recs[..|recs| - 1];
      PlannedLastWins(prefix, cache, targetKeys);
      assert forall j :: 0 <= j < |prefix| ==> prefix[j] == recs[j];
    }
  }

  /** Every planned change is an allow-listed key. */
  lemma PlannedChangesAllowed(recs: seq<Record>, cache: map<string, Labels>, targetKeys: seq<string>)
    requires CachedFor(recs, cache)
    ensures forall k, c ::
              (k in PlannedLabels(recs, cache, targetKeys).entries
               && c in PlannedLabels(recs, cache, targetKeys).entries[k].changedKeys)
              ==> IsTarget(c, targetKeys)
  {
    var d := PlannedLabels(recs, cache, targetKeys);
    PlannedEntryOrigin(recs, cache, targetKeys);
    forall k, c | k in d.entries && c in d.entries[k].changedKeys
      ensures IsTarget(c, targetKeys)
    {
      var i :| 0 <= i < |recs| && recs[i].Correct? && recs[i].diskId == k
                && d.entries[k] == PlanFor(recs[i], cache[recs[i].instanceId], targetKeys);
      ChangedKeysAreTargets(cache[recs[i].instanceId], recs[i].oldLabels, targetKeys);
    }
  }

  /** The planning loop over the classified disks. */
  method PlanDiskLabels(recs: seq<Record>, cache: map<string, Labels>, targetKeys: seq<string>)
    returns (d: PlanDict)
    requires CachedFor(recs, cache)
    ensures d == PlannedLabels(recs, cache, targetKeys)
    ensures ValidDict(d)
    ensures d.entries.Keys == CorrectDiskIds(recs)
    ensures forall k, c :: k in d.entries && c in d.entries[k].changedKeys ==> IsTarget(c, targetKeys)
  {
    d := PlanDict([], map[]);
    for i := 0 to |recs|
      invariant d == PlannedLabels(recs[..i], cache, targetKeys)
    {
      assert recs[..i + 1][..i] == recs[..i];
      var disk := recs[i];
      if !disk.Correct? {
        continue;
      }
      var filtered := FilterVmLabels(cache[disk.instanceId], targetKeys);
      var newLabels := Merge(filtered, disk.oldLabels);
      var changed := ChangedKeys(newLabels, disk.oldLabels);
      d := Put(d, disk.diskId, Plan(newLabels, changed));
    }
    assert recs[..|recs|] == recs;
    PlannedKeys(recs, cache, targetKeys);
    PlannedChangesAllowed(recs, cache, targetKeys);
  }

  /** The only answer that lets the updates go out. */
  const Affirmative: string := "y"

  /** One disk update request: the disk and the full label set it is given. */
  datatype UpdateRequest = UpdateRequest(diskId: string, labels: Labels)

  /**
   * The confirmation gate and the update loop: unless the answer is exactly
   * "y", nothing is sent; otherwise one request per planned disk, in the
   * dictionary's order.
   */
  method ConfirmAndUpdate(answer: string, d: PlanDict) returns (sent: seq<UpdateRequest>)
    requires ValidDict(d)
    ensures answer != Affirmative ==> sent == []
    ensures answer == Affirmative ==> |sent| == |d.order|
    ensures forall i :: 0 <= i < |sent| ==>
              sent[i] == UpdateRequest(d.order[i], d.entries[d.order[i]].newLabels)
    ensures forall i, j :: 0 <= i < j < |sent| ==> sent[i].diskId != sent[j].diskId
  {
    if answer != Affirmative {
      return [];
    }
    sent := [];
    for i := 0 to |d.order|
      invariant |sent| == i
      invariant forall j :: 0 <= j < i ==> sent[j] == UpdateRequest(d.order[j], d.entries[d.order[j]].newLabels)
    {
      var diskKey := d.order[i];
      sent := sent + [UpdateRequest(diskKey, d.entries[diskKey].newLabels)];
    }
  }

  /** Why a run stopped before the confirmation prompt. */
  datatype RunError = ParseFailed(parse: ParseError) | LookupFailed(lookup: LookupError)

  /** No disk has a present but empty `instanceIds`. */
  predicate NoEmptyInstanceIds(disks: seq<Disk>) {
    forall i :: 0 <= i < |disks| ==> !HasEmptyInstanceIds(disks[i])
  }

  /** Every VM that owns a singly attached disk can be looked up. */
  predicate OwnersKnown(disks: seq<Disk>, instances: map<string, Labels>) {
    forall i :: 0 <= i < |disks| && AttachedToOne(disks[i]) ==> disks[i].instanceIds.value[0] in instances
  }

  /** The ids of the disks attached to exactly one VM. */
  function AttachedDiskIds(disks: seq<Disk>): set<string> {
    set i | 0 <= i < |disks| && AttachedToOne(disks[i]) :: disks[i].id
  }

  /** The disks that receive an update request. */
  function UpdatedDiskIds(sent: seq<UpdateRequest>): set<string> {
    set i | 0 <= i < |sent| :: sent[i].diskId
  }

  /** The records of a successful parse say, disk by disk, what the disks say. */
  lemma RecordsOfDisks(disks: seq<Disk>, recs: seq<Record>, instances: map<string, Labels>)
    requires |recs| == |disks|
    requires forall i :: 0 <= i < |disks| ==> ClassifyDisk(disks[i]) == Success(recs[i])
    ensures CorrectInstanceIds(recs) <= instances.Keys <==> OwnersKnown(disks, instances)
    ensures CorrectDiskIds(recs) == AttachedDiskIds(disks)
  {
    if CorrectInstanceIds(recs) <= instances.Keys {
      forall i | 0 <= i < |disks| && AttachedToOne(disks[i])
        ensures disks[i].instanceIds.value[0] in instances
      {
        assert recs[i].instanceId in CorrectInstanceIds(recs);
      }
    }
  }

  /**
   * The request `u` is the one planned for the disk `d`: the disk is attached
   * to exactly one known VM and `u` carries the disk's old labels merged
   * over that VM's eligible labels.
   */
  predicate PlannedRequestFor(u: UpdateRequest, d: Disk, instances: map<string, Labels>, targetKeys: seq<string>) {
    && AttachedToOne(d)
    && d.id == u.diskId
    && d.instanceIds.value[0] in instances
    && u.labels == NewLabels(instances[d.instanceIds.value[0]], d.labels.GetOr(map[]), targetKeys)
  }

  /** Sending one request per key of the dictionary's order reaches every planned disk. */
  lemma RequestsCoverPlan(d: PlanDict, sent: seq<UpdateRequest>)
    requires ValidDict(d)
    requires |sent| == |d.order|
    requires forall i :: 0 <= i < |sent| ==> sent[i] == UpdateRequest(d.order[i], d.entries[d.order[i]].newLabels)
    ensures UpdatedDiskIds(sent) == d.entries.Keys
  {
    forall k | k in d.entries ensures k in UpdatedDiskIds(sent) {
      var i :| 0 <= i < |d.order| && d.order[i] == k;
      assert sent[i].diskId == k;
    }
  }

  /** Every request sent carries the plan of a singly attached disk of the input. */
  lemma RequestsArePlanned(disks: seq<Disk>, recs: seq<Record>, instances: map<string, Labels>,
                           cache: map<string, Labels>, targetKeys: seq<string>,
                           d: PlanDict, sent: seq<UpdateRequest>)
    requires |recs| == |disks|
    requires forall i :: 0 <= i < |disks| ==> ClassifyDisk(disks[i]) == Success(recs[i])
    requires CachedFor(recs, cache)
    requires forall id :: id in cache ==> id in instances && cache[id] == instances[id]
    requires d == PlannedLabels(recs, cache, targetKeys)
    requires |sent| <= |d.order|
    requires forall i :: 0 <= i < |sent| ==> sent[i] == UpdateRequest(d.order[i], d.entries[d.order[i]].newLabels)
    ensures forall j :: 0 <= j < |sent| ==>
              exists i :: 0 <= i < |disks| && PlannedRequestFor(sent[j], disks[i], instances, targetKeys)
  {
    PlannedEntryOrigin(recs, cache, targetKeys);
    forall j | 0 <= j < |sent|
      ensures exists i :: 0 <= i < |disks| && PlannedRequestFor(sent[j], disks[i], instances, targetKeys)
    {
      var k := d.order[j];
      var i :| 0 <= i < |recs| && recs[i].Correct? && recs[i].diskId == k
                && d.entries[k] == PlanFor(recs[i], cache[recs[i].instanceId], targetKeys);
      assert ClassifyDisk(disks[i]) == Success(recs[i]);
      assert recs[i].oldLabels == disks[i].labels.GetOr(map[]);
      assert PlannedRequestFor(sent[j], disks[i], instances, targetKeys);
    }
  }

  /**
   * The whole run after the disk list has been fetched: classify, look up
   * the owning VMs, plan, ask, update. `instances` stands for the instance
   * lookups and `answer` for what the operator types.
   */
  method Run(disks: seq<Disk>, instances: map<string, Labels>, targetKeys: seq<string>, answer: string)
    returns (r: Result<seq<UpdateRequest>, RunError>)
    ensures r.Success? <==> NoEmptyInstanceIds(disks) && OwnersKnown(disks, instances)
    ensures !NoEmptyInstanceIds(disks) ==> r.Failure? && r.error.ParseFailed?
    ensures NoEmptyInstanceIds(disks) && !OwnersKnown(disks, instances) ==> r.Failure? && r.error.LookupFailed?
    ensures r.Success? && answer != Affirmative ==> r.value == []
    ensures r.Success? && answer == Affirmative ==> UpdatedDiskIds(r.value) == AttachedDiskIds(disks)
    ensures r.Success? ==> forall i, j :: 0 <= i < j < |r.value| ==> r.value[i].diskId != r.value[j].diskId
    ensures r.Success? ==>
              forall j :: 0 <= j < |r.value| ==>
                exists i :: 0 <= i < |disks| && PlannedRequestFor(r.value[j], disks[i], instances, targetKeys)
  {
    var parsed := ParseDiskDict(disks);
    if parsed.Failure? {
      return Failure(ParseFailed(parsed.error));
    }
    var recs := parsed.value;
    RecordsOfDisks(disks, recs, instances);
    var cached := BuildInstanceLabels(recs, instances);
    if cached.Failure? {
      return Failure(LookupFailed(cached.error));
    }
    var cache := cached.value;
    var plans := PlanDiskLabels(recs, cache, targetKeys);
    var sent := ConfirmAndUpdate(answer, plans);
    if answer == Affirmative {
      RequestsCoverPlan(plans, sent);
    }
    RequestsArePlanned(disks, recs, instances, cache, targetKeys, plans, sent);
    r := Success(sent);
  }
}
