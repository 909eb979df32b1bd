/**
 * The disk classifier: `parse_disk_dict` turns the raw disk records of the
 * compute API into one record per disk, saying whether the disk is attached
 * to exactly one virtual machine.
 */
module DiskClassifier {
  import opened Wrappers

  /** Labels of a disk or a virtual machine: key to value. */
  type Labels = map<string, string>

  /** A disk as the disk list returns it; `instanceIds` and `labels` may be absent. */
  datatype Disk = Disk(id: string, instanceIds: Option<seq<string>>, labels: Option<Labels>)

  /** The comment of a disk attached to two or more virtual machines. */
  const MultipleVmsComment: string := "Диск привязан более чем к 1 ВМ"

  /** The comment of a disk attached to no virtual machine. */
  const NotAttachedComment: string := "Диск НЕ привязан к ВМ"

  /**
   * One entry of the classifier's output. `Correct` is an entry whose
   * "correct" key is true; `Incorrect` one whose "correct" key is false.
   */
  datatype Record =
    | Correct(diskId: string, instanceId: string, oldLabels: Labels)
    | Incorrect(diskId: string, comment: string)

  /** The IndexError raised by `instanceIds[0]` when the field is present but empty. */
  datatype ParseError = EmptyInstanceIds(diskId: string)

  /** The disk has an `instanceIds` field holding no id at all. */
  predicate HasEmptyInstanceIds(d: Disk) {
    d.instanceIds == Some([])
  }

  /** The disk has an `instanceIds` field holding exactly one id. */
  predicate AttachedToOne(d: Disk) {
    d.instanceIds.Some? && |d.instanceIds.value| == 1
  }

  /** The classification of one disk: one iteration of the loop of `parse_disk_dict`. */
  function ClassifyDisk(d: Disk): (r: Result<Record, ParseError>)
    ensures r.Failure? <==> HasEmptyInstanceIds(d)
    ensures r.Failure? ==> r.error == EmptyInstanceIds(d.id)
    ensures r.Success? ==> r.value.diskId == d.id
    ensures r.Success? ==> (r.value.Correct? <==> AttachedToOne(d))
    ensures d.instanceIds.None? ==> r == Success(Incorrect(d.id, NotAttachedComment))
    ensures d.instanceIds.Some? && |d.instanceIds.value| >= 2 ==>
              r == Success(Incorrect(d.id, MultipleVmsComment))
    ensures AttachedToOne(d) ==> r.Success? && r.value.instanceId == d.instanceIds.value[0]
    ensures AttachedToOne(d) && d.labels.Some? ==> r.Success? && r.value.oldLabels == d.labels.value
    ensures AttachedToOne(d) && d.labels.None? ==> r.Success? && r.value.oldLabels == map[]
  {
    match d.instanceIds
    case None => Success(Incorrect(d.id, NotAttachedComment))
    case Some(ids) =>
      if |ids| >= 2 then Success(Incorrect(d.id, MultipleVmsComment))
      else if |ids| == 0 then Failure(EmptyInstanceIds(d.id))
      else Success(Correct(d.id, ids[0], d.labels.GetOr(map[])))
  }

  /**
   * The whole of `parse_disk_dict` as a value: the records of all disks in
   * order, or the error of the first disk whose `instanceIds` is empty.
   * Defined on the last disk so that it follows the loop step by step.
   */
  function ParseDisks(disks: seq<Disk>): (r: Result<seq<Record>, ParseError>)
    ensures r.Success? ==> |r.value| == |disks|
  {
    if disks == [] then Success([])
    else
      match ParseDisks(disks[..|disks| - 1])
      case Failure(e) => Failure(e)
      case Success(prefix) =>
        match ClassifyDisk(disks[|disks| - 1])
        case Failure(e) => Failure(e)
        case Success(rec) => Success(prefix + [rec])
  }

  /** Once a prefix of the disks fails, the whole list fails with the same error. */
  lemma {:induction false} PrefixFailurePropagates(disks: seq<Disk>, i: nat)
    requires i <= |disks|
    requires ParseDisks(disks[..i]).Failure?
    ensures ParseDisks(disks) == ParseDisks(disks[..i])
    decreases |disks| - i
  {
    if i < |disks| {
      assert disks[..i + 1][..i] == disks[..i];
      PrefixFailurePropagates(disks, i + 1);
    } else {
      assert disks[..i] == disks;
    }
  }

  /** Parsing succeeds exactly when no disk has a present but empty `instanceIds`. */
  lemma {:induction false} ParseDisksSucceeds(disks: seq<Disk>)
    ensures ParseDisks(disks).Success? <==>
              forall i :: 0 <= i < |disks| ==> !HasEmptyInstanceIds(disks[i])
  {
    if disks != [] {
      var prefix := disks[..|disks| - 1];
      ParseDisksSucceeds(prefix);
      assert forall i :: 0 <= i < |prefix| ==> prefix[i] == disks[i];
    }
  }

  /** On success there is one record per disk, in order, and it is that disk's classification. */
  lemma {:induction false} ParseDisksRecords(disks: seq<Disk>)
    requires ParseDisks(disks).Success?
    ensures |ParseDisks(disks).value| == |disks|
    ensures forall i :: 0 <= i < |disks| ==>
              ClassifyDisk(disks[i]) == Success(ParseDisks(disks).value[i])
  {
    if disks != [] {
      var prefix := disks[..|disks| - 1];
      ParseDisksRecords(prefix);
      assert forall i :: 0 <= i < |prefix| ==> prefix[i] == disks[i];
    }
  }

  /** On failure, the error names the first disk whose `instanceIds` is empty. */
  lemma {:induction false} ParseDisksFailure(disks: seq<Disk>)
    requires ParseDisks(disks).Failure?
    ensures exists i :: 0 <= i < |disks| && HasEmptyInstanceIds(disks[i])
              && ParseDisks(disks).error == EmptyInstanceIds(disks[i].id)
              && forall j :: 0 <= j < i ==> !HasEmptyInstanceIds(disks[j])
  {
    var prefix := disks[..|disks| - 1];
    assert forall i :: 0 <= i < |prefix| ==> prefix[i] == disks[i];
    if ParseDisks(prefix).Failure? {
      ParseDisksFailure(prefix);
    } else {
      ParseDisksSucceeds(prefix);
      assert HasEmptyInstanceIds(disks[|disks| - 1]);
    }
  }

  /**
   * `parse_disk_dict`: one pass over the disks, appending one record per
   * disk; a present but empty `instanceIds` aborts the pass.
   */
  method ParseDiskDict(disks: seq<Disk>) returns (r: Result<seq<Record>, ParseError>)
    ensures r == ParseDisks(disks)
    ensures r.Success? <==> forall i :: 0 <= i < |disks| ==> !HasEmptyInstanceIds(disks[i])
    ensures r.Success? ==> |r.value| == |disks|
    ensures r.Success? ==> forall i :: 0 <= i < |disks| ==> ClassifyDisk(disks[i]) == Success(r.value[i])
  {
    var resultArr: seq<Record> := [];
    for i := 0 to |disks|
      invariant ParseDisks(disks[..i]) == Success(resultArr)
    {
      var disk := disks[i];
      assert disks[..i + 1][..i] == disks[..i];
      var diskId := disk.id;
      if disk.instanceIds.Some? {
        if |disk.instanceIds.value| >= 2 {
          resultArr := resultArr + [Incorrect(diskId, MultipleVmsComment)];
        } else {
          var diskLabels: Labels := map[];
          if disk.labels.Some? {
            diskLabels := disk.labels.value;
          }
          if |disk.instanceIds.value| == 0 {
            r := Failure(EmptyInstanceIds(diskId));
            PrefixFailurePropagates(disks, i + 1);
            ParseDisksSucceeds(disks);
            return;
          }
          resultArr := resultArr + [Correct(diskId, disk.instanceIds.value[0], diskLabels)];
        }
      } else {
        resultArr := resultArr + [Incorrect(diskId, NotAttachedComment)];
      }
    }
    assert disks[..|disks|] == disks;
    r := Success(resultArr);
    ParseDisksSucceeds(disks);
    ParseDisksRecords(disks);
  }
}
