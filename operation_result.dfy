/**
 * HealthAndAuditShared/OperationResult.cs: the older event entity. Its result has
 * only Success (the enum's default) and Failure, and its parameterless
 * constructor leaves the application and both keys unset.
 */
module OperationResultEntity {
  import opened Common
  import opened Text
  import opened Codec

  datatype OpResult = Success | Failure

  /** ID of the keys: Base64 of the UTF-8 bytes of "pk;rk", a null key reading as "". */
  function EncodeKeys(pk: NString, rk: NString): (id: string)
    ensures ';' !in NullToEmpty(pk) && ';' !in NullToEmpty(rk) ==>
      DecodeIDToPartitionAndRowKey(id) == Ok((NullToEmpty(pk), NullToEmpty(rk)))
  {
    var text := NullToEmpty(pk) + ";" + NullToEmpty(rk);
    Base64RoundTrip(Utf8Encode(text));
    Utf8RoundTrip(text);
    assert ';' !in NullToEmpty(pk) && ';' !in NullToEmpty(rk) ==> SplitKeyPair(text) == Ok((NullToEmpty(pk), NullToEmpty(rk))) by {
      if ';' !in NullToEmpty(pk) && ';' !in NullToEmpty(rk) { KeyPairRoundTrip(NullToEmpty(pk), NullToEmpty(rk)); }
    }
    Base64Encode(Utf8Encode(text))
  }

  /** OperationResult.DecodeIDToPartitionAndRowKey. */
  function DecodeIDToPartitionAndRowKey(id: string): (r: Result<(string, string)>)
    ensures r.Ok? ==> ';' !in r.value.0 && ';' !in r.value.1
  {
    match Base64Decode(id)
    case Err(e) => Err(e)
    case Ok(bytes) => SplitKeyPair(Utf8Decode(bytes))
  }

  class OperationResult {
    var partitionKey: NString
    var rowKey: NString
    var timeStampUtc: int
    var result: OpResult
    var operationName: NString
    var caughtException: Option<string>
    var appInfo: Option<ApplicationInfo>
    var otherInfo: NString

    /** new OperationResult(): nothing but the time stamp is set; Result is the enum default, Success. */
    constructor (now: int)
      ensures partitionKey == None && rowKey == None && appInfo == None
      ensures result == OpResult.Success && timeStampUtc == now
      ensures operationName == None && caughtException == None && otherInfo == None
    {
      partitionKey, rowKey, appInfo := None, None, None;
      result, timeStampUtc := OpResult.Success, now;
      operationName, caughtException, otherInfo := None, None, None;
    }

    /** new OperationResult(result): the running application, a fresh RowKey and its PartitionKey. */
    constructor WithResult(r: OpResult, hostName: NString, guid: nat, now: int)
      ensures result == r && appInfo == Some(ApplicationInfo(hostName))
      ensures rowKey == Some(GuidText(guid)) && ';' !in rowKey.value
      ensures partitionKey.Some? && !IsNullOrWhiteSpace(partitionKey)
      ensures partitionKey == if IsNullOrWhiteSpace(hostName) then Some(UnknownApplication) else hostName
      ensures timeStampUtc == now
      ensures operationName == None && caughtException == None && otherInfo == None
    {
      result := r;
      appInfo := Some(ApplicationInfo(hostName));
      rowKey := Some(GuidText(guid));
      assert !IsWhiteSpace(UnknownApplication[0]);
      partitionKey := if IsNullOrWhiteSpace(hostName) then Some(UnknownApplication) else hostName;
      timeStampUtc := now;
      operationName, caughtException, otherInfo := None, None, None;
    }

    /** OperationResult.ID: decodes back to the keys whenever neither holds a ';' (a null key comes back as ""). */
    function ID(): (id: string)
      reads this
      ensures ';' !in NullToEmpty(partitionKey) && ';' !in NullToEmpty(rowKey) ==>
        DecodeIDToPartitionAndRowKey(id) == Ok((NullToEmpty(partitionKey), NullToEmpty(rowKey)))
    {
      EncodeKeys(partitionKey, rowKey)
    }
  }

  /** The ID of a default-constructed entity is that of ";" and decodes to two empty keys, not to the unset ones. */
  lemma UnsetKeysDecodeEmpty()
    ensures EncodeKeys(None, None) == "Ow=="
    ensures DecodeIDToPartitionAndRowKey(EncodeKeys(None, None)) == Ok(("", ""))
  {
    UnsetKeysEncoding();
  }

  /** The Base64 text of ";" is "Ow==". */
  lemma UnsetKeysEncoding()
    ensures Base64Encode(Utf8Encode(";")) == "Ow=="
  {
    assert Utf8Encode(";") == [59];
    assert EncodeBody([59]) == Quad(59, 0, 0)[..2];
  }
}
