# Disk auto-tagging: classifier and label planner

This project models the data-shaping core of a script that copies
organisational labels from virtual machines (VMs) onto the disks attached
to them, in a cloud provider's compute API. It proves properties of that
model.

- **Disk classifier** (`DiskClassifier`, `parse_disk_dict` in
  `functions.py`). Each raw disk record becomes one record. A disk attached
  to exactly one VM is `Correct`, carrying the VM id and the disk's current
  labels (an empty map when the disk has none). A disk with no
  `instanceIds` field, or with two or more ids, is `Incorrect`, carrying the
  original comment. A disk whose `instanceIds` field is present but empty
  makes `instanceIds[0]` raise, which stops the whole pass. The model
  returns that as `Failure(EmptyInstanceIds(id))` for the first such disk.
- **Label merge** (`LabelMerge`, the expressions at `main.py:46-54`). The
  eligible VM labels are the allow-listed keys with a present, non-empty
  value. The new labels are `filtered | old`, so the disk's own labels win
  on every shared key. The changed keys are the new keys minus the old keys.
- **Label planner** (`LabelPlanner`, the body of `main.py`). It has four
  loops: the instance-label cache, the allow-list filter, the planning loop
  that fills `disk_labels_dict`, and the update loop behind the `"y"`
  confirmation. `Run` connects the classifier, the cache, the planner and
  the gate. Its guarantees are stated in terms of the raw disks.

Inputs that the script reads over the network or from the console are
parameters here:
- the disk list is a `seq<Disk>`;
- the instance lookups are a `map<string, Labels>` from VM id to that VM's
  labels, and a VM missing from the map is a lookup that raised;
- `TARGET_KEYS_LIST` is a `seq<string>`;
- the operator's answer is a `string`;
- the updates sent are the `seq<UpdateRequest>` that `Run` returns.

`disk_labels_dict` is a Python dict, and the update loop iterates it in
insertion order. So it is modelled as `PlanDict`: the keys in the order they
were first inserted, plus the entries. Updating an existing key keeps its
place.

A present but empty `instanceIds` is not guarded: `disk["instanceIds"][0]`
at `functions.py:85` raises IndexError, and nothing catches it
(`main.py:26`), so the run stops there.

## Model

| member | source | states |
|---|---|---|
| DiskClassifier.ClassifyDisk | functions.py:77-88 | one disk's classification: no `instanceIds` gives Incorrect with the "not attached" comment; two or more ids give Incorrect with the "more than one VM" comment; exactly one id gives Correct with that id and the disk's labels, or the empty map when absent; an empty present list is the IndexError; the record's disk id is the disk's id; Correct exactly when there is exactly one id |
| DiskClassifier.ParseDisks | functions.py:75-89 | the whole pass as a value; on success there is one record per disk |
| DiskClassifier.PrefixFailurePropagates | functions.py:85 | once a disk raises, the pass produces that error, whatever follows |
| DiskClassifier.ParseDisksSucceeds | functions.py:78-85 | the pass succeeds exactly when no disk has a present but empty `instanceIds` |
| DiskClassifier.ParseDisksRecords | functions.py:75-89 | on success, record i is the classification of disk i, in input order |
| DiskClassifier.ParseDisksFailure | functions.py:78-85 | on failure, the error names the first disk with an empty `instanceIds` |
| DiskClassifier.ParseDiskDict | functions.py:69-89 | the loop appending one record per disk computes exactly ParseDisks, and so has the success condition and the per-disk records above |
| LabelMerge.FilteredLabels | main.py:46-49 | every kept key is allow-listed and present on the VM with a non-empty value, which it keeps; FilterVmLabels and NewLabelsShape show that every such key is kept |
| LabelMerge.ChangedKeys | main.py:54 | the changed keys are keys of the new labels and none of them is an old key; ChangedKeysAreTargets shows they are exactly the eligible VM keys the disk lacked |
| LabelMerge.NewLabels | main.py:46-52 | the planned labels keep every old label with its old value, and every key they add is allow-listed; NewLabelsShape adds that added values are the VM's non-empty values |
| LabelMerge.Merge | main.py:52 | the merged key set is the union of filtered and old keys; every old key keeps its old value; other keys take the VM's value |
| LabelMerge.NewLabelsShape | main.py:46-52 | the new labels keep every old label; every added key is allow-listed, present and non-empty on the VM, with the VM's value; every such VM key is present |
| LabelMerge.ChangedKeysAreTargets | main.py:54 | the changed keys are exactly the eligible VM keys the disk lacked, so each one comes from the allow-list |
| LabelMerge.MergeIdempotent | main.py:52-54 | planning again from the new labels with the same VM labels gives the same labels and no changed key |
| LabelMerge.ExampleScenario | main.py:46-54 | a disk with env=prod on a VM with department=infra and unrelated=x, under the allow-list department, product, location, gets department=infra and env=prod, and the only changed key is department |
| LabelPlanner.BuildInstanceLabels | main.py:30-36 | the cache loop succeeds exactly when every correct disk's VM can be looked up; the cache then has one entry per distinct VM id of a correct disk, holding that VM's labels, and incorrect disks cause no lookup; on failure it names the first correct disk's VM that could not be looked up |
| LabelPlanner.FilterVmLabels | main.py:46-49 | the filter loop keeps a key exactly when it is allow-listed and its VM value is present and non-empty, with the VM's value |
| LabelPlanner.Put | main.py:55-58 | `dict.update` keeps the order listing every key exactly once |
| LabelPlanner.PlanFor | main.py:46-58 | one planned entry keeps every old label of the disk and its changed keys are all allow-listed; PlannedEntryOrigin ties every entry of the dictionary to one such plan |
| LabelPlanner.PlannedLabels | main.py:40-58 | the planning loop's dictionary as a value keeps each key exactly once in its order |
| LabelPlanner.PlannedKeys | main.py:41-43 | the planned disk ids are exactly the ids of correct records, so incorrect disks never appear |
| LabelPlanner.PlannedEntryOrigin | main.py:41-58 | every planned entry is the merge plan of some correct record with that disk id |
| LabelPlanner.PlannedLastWins | main.py:55-58 | when a disk id repeats, the last correct record with that id decides the entry |
| LabelPlanner.PlannedChangesAllowed | main.py:47-54 | every changed key of every planned entry is allow-listed |
| LabelPlanner.PlanDiskLabels | main.py:40-58 | the planning loop computes PlannedLabels; its keys are the correct disk ids; all changed keys are allow-listed |
| LabelPlanner.ConfirmAndUpdate | main.py:68-77 | any answer other than exactly "y" sends nothing; "y" sends one request per planned disk, in insertion order, with its new labels, and no disk twice |
| LabelPlanner.RecordsOfDisks | functions.py:78-88 | on the parsed records, "every correct VM can be looked up" is "every singly attached disk's VM can be looked up", and the correct disk ids are the singly attached disk ids |
| LabelPlanner.RequestsCoverPlan | main.py:76-77 | each planned disk receives a request |
| LabelPlanner.RequestsArePlanned | main.py:41-58 | each request carries the merge of a singly attached input disk's old labels over its VM's eligible labels |
| LabelPlanner.Run | main.py:26-77 | the run succeeds exactly when no disk has an empty `instanceIds` and every singly attached disk's VM is known, an empty `instanceIds` fails in the classifier, and otherwise an unknown VM fails in the instance lookup; without "y" nothing is sent; with "y" exactly the singly attached disks are updated, each once; every request keeps the disk's labels and adds the VM's eligible labels |

## Left out

- The HTTP wrappers `get_iam_token`, `get_instance_list`, `get_disk_list`, `get_instance_by_id` and `update_disk_labels` (`functions.py:6-66`, `functions.py:92-107`). They are network calls. Their results are parameters of `Run`, and a failing instance lookup is a VM id missing from `instances`.
- The id returned by `get_instance_by_id` is taken to equal the id it was asked for. The cache is keyed by the requested id.
- A missing `labels` field in an instance response defaults to `{}` (`functions.py:59-62`). This is folded into the `instances` input.
- Reading the OAuth token and folder id from the environment (`main.py:18-23`).
- The console output and the prompt text (`main.py:60-68`, `main.py:71`, `main.py:74`, `main.py:78-81`). Only the `answer == "y"` decision is modelled.
- `ConfirmAndUpdate`: does not model an update call that raises mid-loop and leaves the later disks untouched. It also ignores the `done` flag of each response, which only changes what is printed.
- `changed_labels_keys` is a set: `list(set(...))` has no defined order, and only its length and its contents are ever used.
- Label values are strings, so the truthiness test `.get(key)` is modelled as "present and not the empty string".
