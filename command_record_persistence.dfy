/** The command ledger (`facades/CommandRecordPersistence.java`): one S3
    object per physical resource id, holding the SSM command id and the
    instance id of the last command sent for that resource. */
module CommandRecordPersistence {
  import opened Outcomes
  import opened Strings

  datatype TerraformCommandRecord = TerraformCommandRecord(commandId: string, instanceId: string)

  /** An object in the ledger bucket: a record this class wrote, or any other
      text, which does not decode as a record. */
  datatype StoredObject = Written(record: TerraformCommandRecord) | Foreign(text: string)

  type Objects = map<string, StoredObject>

  const KeySuffix: string := "/tf-command-record"

  /** `S3_KEY_FORMAT` applied to a physical resource id. */
  function Key(physicalResourceId: string): (k: string)
    ensures EndsWith(k, KeySuffix) && k[..|k| - |KeySuffix|] == physicalResourceId
  {
    assert (physicalResourceId + KeySuffix)[|physicalResourceId|..] == KeySuffix;
    physicalResourceId + KeySuffix
  }

  function UnreadableMessage(text: string): string {
    "Exception while serializing SSM command record for " + text
  }

  /** `getCommandRecord` on a bucket holding `objects`: `None` (Java null)
      when nothing is stored at the key; an error for an undecodable object. */
  function RecordAt(objects: Objects, physicalResourceId: string): (r: Result<Option<TerraformCommandRecord>>)
    ensures Key(physicalResourceId) !in objects ==> r == Ok(None)
    ensures Key(physicalResourceId) in objects && objects[Key(physicalResourceId)].Written? ==>
      r == Ok(Some(objects[Key(physicalResourceId)].record))
    ensures Key(physicalResourceId) in objects && objects[Key(physicalResourceId)].Foreign? ==>
      r == Err(Runtime(UnreadableMessage(objects[Key(physicalResourceId)].text)))
  {
    var key := Key(physicalResourceId);
    if key !in objects then Ok(None)
    else match objects[key]
      case Written(record) => Ok(Some(record))
      case Foreign(text) => Err(Runtime(UnreadableMessage(text)))
  }

  /** The key format is injective: distinct resources never share a record. */
  lemma KeyInjective(a: string, b: string)
    requires Key(a) == Key(b)
    ensures a == b
  {
    SuffixCancel(a, b, KeySuffix);
  }

  /** A put followed by a get for the same id returns what was put. */
  lemma GetAfterPut(objects: Objects, physicalResourceId: string, commandId: string, instanceId: string)
    ensures RecordAt(objects[Key(physicalResourceId) := Written(TerraformCommandRecord(commandId, instanceId))],
                     physicalResourceId)
      == Ok(Some(TerraformCommandRecord(commandId, instanceId)))
  {
  }

  /** A put for one id leaves every other id's record as it was. */
  lemma PutLeavesOthers(objects: Objects, p: string, q: string, record: TerraformCommandRecord)
    requires p != q
    ensures RecordAt(objects[Key(p) := Written(record)], q) == RecordAt(objects, q)
  {
    if Key(p) == Key(q) { KeyInjective(p, q); }
  }

  /** Two puts for the same id leave only the second. */
  lemma LastWriteWins(objects: Objects, p: string, first: TerraformCommandRecord, second: TerraformCommandRecord)
    ensures objects[Key(p) := Written(first)][Key(p) := Written(second)] == objects[Key(p) := Written(second)]
  {
  }

  class CommandRecordPersistence {
    const bucketName: string
    /** S3's answer to the n-th `putObject`. */
    const putAnswer: nat -> Outcome
    var objects: Objects
    /** How many `putObject` calls were made. */
    var writes: nat

    constructor (bucketName: string, objects: Objects, putAnswer: nat -> Outcome)
      ensures this.bucketName == bucketName && this.objects == objects && this.putAnswer == putAnswer
      ensures writes == 0
    {
      this.bucketName := bucketName;
      this.objects := objects;
      this.putAnswer := putAnswer;
      writes := 0;
    }

    method GetCommandRecord(physicalResourceId: string) returns (r: Result<Option<TerraformCommandRecord>>)
      ensures r == RecordAt(objects, physicalResourceId)
    {
      var key := Key(physicalResourceId);
      if key !in objects {
        return Ok(None);
      }
      match objects[key]
      case Written(record) => r := Ok(Some(record));
      case Foreign(text) => r := Err(Runtime(UnreadableMessage(text)));
    }

    /** Overwrites whatever was stored for the id; when S3 refuses the put,
        its exception escapes and the bucket is as it was. */
    method PutCommandRecord(physicalResourceId: string, commandId: string, instanceId: string) returns (o: Outcome)
      modifies this
      ensures writes == old(writes) + 1 && o == putAnswer(old(writes))
      ensures objects == if o.Pass? then old(objects)[Key(physicalResourceId) := Written(TerraformCommandRecord(commandId, instanceId))]
                         else old(objects)
    {
      o := putAnswer(writes);
      writes := writes + 1;
      if o.Pass? {
        objects := objects[Key(physicalResourceId) := Written(TerraformCommandRecord(commandId, instanceId))];
      }
    }
  }
}
