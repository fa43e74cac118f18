/** The hub account's ARN field accessors (`util/ArnParser.java`).

    An ARN is split on every ':' keeping empty fields, and a field is read by
    its position; a position past the end raises Java's index error. */
module ArnParser {
  import opened Outcomes
  import opened Strings

  /** The error `List.get(index)` raises on a list of `size` elements. */
  function IndexError(index: nat, size: nat): Error {
    Error("IndexOutOfBoundsException", "Index: " + NatToString(index) + ", Size: " + NatToString(size))
  }

  /** Field `index` of the ':'-split of `arn`. */
  function Field(arn: string, index: nat): (r: Result<string>)
    ensures r.Ok? <==> index <= Count(arn, ':')
    ensures r.Ok? ==> ':' !in r.value
    ensures r.Err? ==> r.error == IndexError(index, Count(arn, ':') + 1)
  {
    SplitLength(arn, ':');
    var fields := Split(arn, ':');
    if index < |fields| then Ok(fields[index]) else Err(IndexError(index, |fields|))
  }

  function GetRegion(arn: string): (r: Result<string>)
    ensures r.Ok? <==> Count(arn, ':') >= 3
    ensures r.Ok? ==> ':' !in r.value
  {
    Field(arn, 3)
  }

  function GetAccountId(arn: string): (r: Result<string>)
    ensures r.Ok? <==> Count(arn, ':') >= 4
    ensures r.Ok? ==> ':' !in r.value
  {
    Field(arn, 4)
  }

  /** Only field 5: whatever follows a further ':' is dropped. */
  function GetRelativeId(arn: string): (r: Result<string>)
    ensures r.Ok? <==> Count(arn, ':') >= 5
    ensures r.Ok? ==> ':' !in r.value
  {
    Field(arn, 5)
  }

  /** Reading a field of ARN text assembled from colon-free fields gives that
      field, whatever the other fields hold (empty ones included). */
  lemma FieldOfJoin(fields: seq<string>, index: nat)
    requires |fields| >= 1
    requires forall i :: 0 <= i < |fields| ==> ':' !in fields[i]
    ensures index < |fields| ==> Field(Join(fields, ':'), index) == Ok(fields[index])
    ensures index >= |fields| ==> Field(Join(fields, ':'), index) == Err(IndexError(index, |fields|))
  {
    SplitJoin(fields, ':');
  }

  /** Empty fields are kept: an ARN with no region and no account, such as
      an S3 ARN, has region "" and account "". */
  lemma EmptyFieldsPreserved(partition: string, service: string, id: string)
    requires ':' !in partition && ':' !in service && ':' !in id
    ensures var arn := "arn:" + partition + ":" + service + ":::" + id;
      GetRegion(arn) == Ok("") && GetAccountId(arn) == Ok("") && GetRelativeId(arn) == Ok(id)
  {
    var fields := ["arn", partition, service, "", "", id];
    JoinCons("", [id], ':');
    JoinCons("", ["", id], ':');
    JoinCons(service, ["", "", id], ':');
    JoinCons(partition, [service, "", "", id], ':');
    JoinCons("arn", [partition, service, "", "", id], ':');
    assert Join(fields, ':') == "arn:" + partition + ":" + service + ":::" + id;
    FieldOfJoin(fields, 3);
    FieldOfJoin(fields, 4);
    FieldOfJoin(fields, 5);
  }

  /** A role ARN whose name part holds a further ':' loses everything after it. */
  lemma RelativeIdDropsFurtherFields(head: seq<string>, relative: string, tail: string)
    requires |head| == 5
    requires forall i :: 0 <= i < |head| ==> ':' !in head[i]
    requires ':' !in relative && ':' !in tail
    ensures GetRelativeId(Join(head + [relative, tail], ':')) == Ok(relative)
  {
    var fields := head + [relative, tail];
    assert forall i :: 0 <= i < |fields| ==> ':' !in fields[i] by {
      forall i | 0 <= i < |fields| ensures ':' !in fields[i] {
        if i < 5 { assert fields[i] == head[i]; }
      }
    }
    FieldOfJoin(fields, 5);
  }
}
