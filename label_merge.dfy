/**
 * The pure steps of the label planner in main.py: which VM labels are
 * eligible, how they are merged under a disk's labels, and which keys the
 * merge adds.
 */
module LabelMerge {
  import opened DiskClassifier

  /** The key is one of the allow-listed target keys. */
  predicate IsTarget(k: string, targetKeys: seq<string>) {
    k in targetKeys
  }

  /**
   * The VM labels worth copying: the allow-listed keys whose value on the VM
   * is present and non-empty (an empty string is falsy for `.get(key)`).
   */
  function FilteredLabels(vmLabels: Labels, targetKeys: seq<string>): (f: Labels)
    ensures forall k :: k in f ==> IsTarget(k, targetKeys) && k in vmLabels && f[k] == vmLabels[k]
    ensures forall k :: k in f ==> f[k] != ""
  {
    map k | k in targetKeys && k in vmLabels && vmLabels[k] != "" :: vmLabels[k]
  }

  /** `filtered_vm_labels | old_labels`: the disk's own labels win on every shared key. */
  function Merge(filtered: Labels, oldLabels: Labels): (r: Labels)
    ensures r.Keys == filtered.Keys + oldLabels.Keys
    ensures forall k :: k in oldLabels ==> r[k] == oldLabels[k]
    ensures forall k :: k in filtered && k !in oldLabels ==> r[k] == filtered[k]
  {
    filtered + oldLabels
  }

  /** `set(new_labels) - set(old_labels)`: the keys the merge adds. */
  function ChangedKeys(newLabels: Labels, oldLabels: Labels): (c: set<string>)
    ensures c <= newLabels.Keys
    ensures c !! oldLabels.Keys
  {
    newLabels.Keys - oldLabels.Keys
  }

  /** The labels the planner proposes for a disk, given its old labels and its VM's labels. */
  function NewLabels(vmLabels: Labels, oldLabels: Labels, targetKeys: seq<string>): (r: Labels)
    ensures oldLabels.Keys <= r.Keys
    ensures forall k :: k in oldLabels ==> r[k] == oldLabels[k]
    ensures forall k :: k in r && k !in oldLabels ==> IsTarget(k, targetKeys)
  {
    Merge(FilteredLabels(vmLabels, targetKeys), oldLabels)
  }

  /** The new labels keep every old label and add only non-empty allow-listed VM labels. */
  lemma NewLabelsShape(vmLabels: Labels, oldLabels: Labels, targetKeys: seq<string>)
    ensures forall k :: k in oldLabels ==>
              k in NewLabels(vmLabels, oldLabels, targetKeys)
              && NewLabels(vmLabels, oldLabels, targetKeys)[k] == oldLabels[k]
    ensures forall k :: k in NewLabels(vmLabels, oldLabels, targetKeys) && k !in oldLabels ==>
              IsTarget(k, targetKeys) && k in vmLabels && vmLabels[k] != ""
              && NewLabels(vmLabels, oldLabels, targetKeys)[k] == vmLabels[k]
    ensures forall k :: IsTarget(k, targetKeys) && k in vmLabels && vmLabels[k] != "" ==>
              k in NewLabels(vmLabels, oldLabels, targetKeys)
  {
  }

  /**
   * The changed keys are exactly the eligible VM keys the disk did not yet
   * have; in particular they all come from the allow-list.
   */
  lemma ChangedKeysAreTargets(vmLabels: Labels, oldLabels: Labels, targetKeys: seq<string>)
    ensures ChangedKeys(NewLabels(vmLabels, oldLabels, targetKeys), oldLabels)
              == FilteredLabels(vmLabels, targetKeys).Keys - oldLabels.Keys
    ensures forall k :: k in ChangedKeys(NewLabels(vmLabels, oldLabels, targetKeys), oldLabels) ==>
              IsTarget(k, targetKeys)
  {
  }

  /**
   * Planning again with the same VM labels, starting from the labels the
   * first plan produced, changes nothing and adds no key.
   */
  lemma MergeIdempotent(vmLabels: Labels, oldLabels: Labels, targetKeys: seq<string>)
    ensures NewLabels(vmLabels, NewLabels(vmLabels, oldLabels, targetKeys), targetKeys)
              == NewLabels(vmLabels, oldLabels, targetKeys)
    ensures ChangedKeys(NewLabels(vmLabels, NewLabels(vmLabels, oldLabels, targetKeys), targetKeys),
                        NewLabels(vmLabels, oldLabels, targetKeys)) == {}
  {
    var once := NewLabels(vmLabels, oldLabels, targetKeys);
    var twice := NewLabels(vmLabels, once, targetKeys);
    assert twice.Keys == once.Keys;
  }

  /**
   * The worked example: a disk labelled env=prod on a VM labelled
   * department=infra, unrelated=x, with allow-list department, product,
   * location, gets department=infra added and keeps env=prod.
   */
  lemma ExampleScenario()
    ensures NewLabels(map["department" := "infra", "unrelated" := "x"],
                      map["env" := "prod"],
                      ["department", "product", "location"])
              == map["department" := "infra", "env" := "prod"]
    ensures ChangedKeys(map["department" := "infra", "env" := "prod"], map["env" := "prod"])
              == {"department"}
  {
    var vm := map["department" := "infra", "unrelated" := "x"];
    var keys := ["department", "product", "location"];
    var f := FilteredLabels(vm, keys);
    assert "department" in f;
    assert f.Keys == {"department"};
  }
}
