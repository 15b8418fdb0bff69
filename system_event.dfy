/**
 * SystemHealthExternalInterface/SystemEvent.cs: the event an application reports.
 * Its table keys are the application name and a fresh Guid; its ID is the
 * standard Base64 (section 4 of RFC 4648) of the UTF-8 bytes of "PartitionKey;RowKey".
 */
module ExternalInterface {
  import opened Common
  import opened Text
  import opened Codec

  /** The PartitionKey both constructors assign. */
  function PartitionKeyFor(info: ApplicationInfo): (pk: string)
    ensures !IsNullOrWhiteSpace(Some(pk))
    ensures !IsNullOrWhiteSpace(info.applicationName) ==> pk == info.applicationName.value
    ensures IsNullOrWhiteSpace(info.applicationName) ==> pk == UnknownApplication
  {
    assert !IsWhiteSpace(UnknownApplication[0]);
    if IsNullOrWhiteSpace(info.applicationName) then UnknownApplication else info.applicationName.value
  }

  /** ID of the keys `pk`, `rk`: the Base64 of the UTF-8 bytes of "pk;rk". */
  function EncodeKeys(pk: string, rk: string): (id: string)
    ensures ';' !in pk && ';' !in rk ==> DecodeIDToPartitionAndRowKey(id) == Ok((pk, rk))
  {
    DecodeOfEncoded(pk + ";" + rk);
    assert ';' !in pk && ';' !in rk ==> SplitKeyPair(pk + ";" + rk) == Ok((pk, rk)) by {
      if ';' !in pk && ';' !in rk { KeyPairRoundTrip(pk, rk); }
    }
    Base64Encode(Utf8Encode(pk + ";" + rk))
  }

  /** SystemEvent.DecodeIDToPartitionAndRowKey: Base64, then UTF-8, then the first two ';'-separated pieces. */
  function DecodeIDToPartitionAndRowKey(id: string): (r: Result<(string, string)>)
    ensures r.Ok? ==> ';' !in r.value.0 && ';' !in r.value.1
  {
    match Base64Decode(id)
    case Err(e) => Err(e)
    case Ok(bytes) => SplitKeyPair(Utf8Decode(bytes))
  }

  /** Decoding an ID splits the text it was made from. */
  lemma DecodeOfEncoded(text: string)
    ensures DecodeIDToPartitionAndRowKey(Base64Encode(Utf8Encode(text))) == SplitKeyPair(text)
  {
    Base64RoundTrip(Utf8Encode(text));
    Utf8RoundTrip(text);
  }

  /** An ID whose text has no ';' fails on the second index. */
  lemma DecodeWithoutSeparatorFails(text: string)
    requires ';' !in text
    ensures DecodeIDToPartitionAndRowKey(Base64Encode(Utf8Encode(text))) == Err(IndexOutOfRange)
  {
    DecodeOfEncoded(text);
  }

  /** Pieces after the second are dropped. */
  lemma DecodeDropsExtraPieces(pk: string, rk: string, extra: string)
    requires ';' !in pk && ';' !in rk
    ensures DecodeIDToPartitionAndRowKey(Base64Encode(Utf8Encode(pk + ";" + rk + ";" + extra))) == Ok((pk, rk))
  {
    DecodeOfEncoded(pk + ";" + rk + ";" + extra);
    KeyPairDropsRest(pk, rk, extra);
  }

  class SystemEvent {
    var partitionKey: NString
    var rowKey: NString
    var timeStampUtc: int
    var result: OperationResult
    var operationName: NString
    var caughtException: Option<string>
    var appInfo: ApplicationInfo
    var otherInfo: NString

    /**
     * new SystemEvent(): a Neutral event of the running application. `hostName` is the
     * host's friendly name, `guid` the fresh Guid and `now` the clock, all supplied by the caller.
     */
    constructor (hostName: NString, guid: nat, now: int)
      ensures result == Neutral
      ensures appInfo == ApplicationInfo(hostName)
      ensures rowKey == Some(GuidText(guid)) && ';' !in rowKey.value
      ensures partitionKey == Some(PartitionKeyFor(appInfo))
      ensures timeStampUtc == now
      ensures operationName == None && caughtException == None && otherInfo == None
    {
      result := Neutral;
      appInfo := ApplicationInfo(hostName);
      rowKey := Some(GuidText(guid));
      partitionKey := Some(PartitionKeyFor(ApplicationInfo(hostName)));
      timeStampUtc := now;
      operationName, caughtException, otherInfo := None, None, None;
    }

    /** new SystemEvent(result). */
    constructor WithResult(r: OperationResult, hostName: NString, guid: nat, now: int)
      ensures result == r
      ensures appInfo == ApplicationInfo(hostName)
      ensures rowKey == Some(GuidText(guid)) && ';' !in rowKey.value
      ensures partitionKey == Some(PartitionKeyFor(appInfo))
      ensures timeStampUtc == now
      ensures operationName == None && caughtException == None && otherInfo == None
    {
      result := r;
      appInfo := ApplicationInfo(hostName);
      rowKey := Some(GuidText(guid));
      partitionKey := Some(PartitionKeyFor(ApplicationInfo(hostName)));
      timeStampUtc := now;
      operationName, caughtException, otherInfo := None, None, None;
    }

    /** SystemEvent.ID: decodes back to the two keys whenever neither holds a ';'. */
    function ID(): (id: string)
      reads this
      ensures ';' !in NullToEmpty(partitionKey) && ';' !in NullToEmpty(rowKey) ==>
        DecodeIDToPartitionAndRowKey(id) == Ok((NullToEmpty(partitionKey), NullToEmpty(rowKey)))
    {
      EncodeKeys(NullToEmpty(partitionKey), NullToEmpty(rowKey))
    }

    /** What the analyzer engine reads from the event. */
    function AsRuleInput(): Event
      reads this
    {
      Event(operationName, result, caughtException, appInfo.applicationName, Some(ID()))
    }
  }
}
