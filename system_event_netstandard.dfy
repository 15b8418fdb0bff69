/**
 * SystemHealthExternalInterfaceNetStandard/SystemEvent.cs: the same event for
 * .NET Standard callers. Its PartitionKey is sanitised for the table service and
 * its ID uses the unpadded base64url alphabet (section 5 of RFC 4648).
 */
module ExternalInterfaceNetStandard {
  import opened Common
  import opened Text
  import opened Codec

  /** The characters the table service refuses in a key. */
  predicate IsKeyForbidden(c: char)
  {
    c == '\\' || c == '/' || c == '#' || c == '?'
  }

  /** Replaces each of '\', '/', '#' and '?' by '_'. */
  function Sanitise(name: string): string
  {
    ReplaceChar(ReplaceChar(ReplaceChar(ReplaceChar(name, '\\', '_'), '/', '_'), '#', '_'), '?', '_')
  }

  lemma SanitiseAt(name: string, i: nat)
    requires i < |name|
    ensures |Sanitise(name)| == |name|
    ensures Sanitise(name)[i] == if IsKeyForbidden(name[i]) then '_' else name[i]
  {
  }

  /** GeneratePartitionKey: "Unkown application" for a blank name, otherwise the name with the forbidden characters replaced. */
  function GeneratePartitionKey(info: ApplicationInfo): (pk: string)
    ensures IsNullOrWhiteSpace(info.applicationName) ==> pk == UnknownApplication
    ensures !IsNullOrWhiteSpace(info.applicationName) ==>
      |pk| == |info.applicationName.value| &&
      forall i :: 0 <= i < |pk| ==> pk[i] == if IsKeyForbidden(info.applicationName.value[i]) then '_' else info.applicationName.value[i]
  {
    if IsNullOrWhiteSpace(info.applicationName) then UnknownApplication
    else
      var name := info.applicationName.value;
      assert forall i :: 0 <= i < |name| ==> Sanitise(name)[i] == if IsKeyForbidden(name[i]) then '_' else name[i] by {
        forall i | 0 <= i < |name| { SanitiseAt(name, i); }
      }
      Sanitise(name)
  }

  /** A generated key is never blank and holds none of the forbidden characters. */
  lemma PartitionKeyIsClean(info: ApplicationInfo)
    ensures var pk := GeneratePartitionKey(info);
      !IsNullOrWhiteSpace(Some(pk)) && forall i :: 0 <= i < |pk| ==> !IsKeyForbidden(pk[i])
  {
    var pk := GeneratePartitionKey(info);
    if IsNullOrWhiteSpace(info.applicationName) {
      assert !IsWhiteSpace(pk[0]);
    } else {
      var name := info.applicationName.value;
      var k :| 0 <= k < |name| && !IsWhiteSpace(name[k]);
      assert !IsWhiteSpace(pk[k]);
    }
  }

  lemma SanitiseKeepsClean(name: string)
    requires forall i :: 0 <= i < |name| ==> !IsKeyForbidden(name[i])
    ensures Sanitise(name) == name
  {
    forall i | 0 <= i < |name| ensures Sanitise(name)[i] == name[i] {
      SanitiseAt(name, i);
    }
  }

  /** Generating a key from a generated key changes nothing. */
  lemma PartitionKeyIdempotent(info: ApplicationInfo)
    ensures var pk := GeneratePartitionKey(info);
      GeneratePartitionKey(ApplicationInfo(Some(pk))) == pk
  {
    var pk := GeneratePartitionKey(info);
    PartitionKeyIsClean(info);
    SanitiseKeepsClean(pk);
  }

  /** ID of the keys `pk`, `rk`: Base64UrlEncoder.Encode("pk;rk"). */
  function EncodeKeys(pk: string, rk: string): (id: string)
    ensures ';' !in pk && ';' !in rk ==> DecodeIDToPartitionAndRowKey(id) == Ok((pk, rk))
  {
    Base64UrlRoundTrip(pk + ";" + rk);
    assert ';' !in pk && ';' !in rk ==> SplitKeyPair(pk + ";" + rk) == Ok((pk, rk)) by {
      if ';' !in pk && ';' !in rk { KeyPairRoundTrip(pk, rk); }
    }
    Base64UrlEncode(pk + ";" + rk)
  }

  /** SystemEvent.DecodeIDToPartitionAndRowKey: base64url, then the first two ';'-separated pieces. */
  function DecodeIDToPartitionAndRowKey(id: string): (r: Result<(string, string)>)
    ensures r.Ok? ==> ';' !in r.value.0 && ';' !in r.value.1
  {
    match Base64UrlDecode(id)
    case Err(e) => Err(e)
    case Ok(text) => SplitKeyPair(text)
  }

  /**
   * An ID of a single character is refused: here by the base64url length
   * check. In .NET a character outside the Basic Multilingual Plane is two
   * UTF-16 code units, so that ID passes the length check and is refused as
   * an invalid Base64 character instead; either way decoding fails.
   */
  lemma DecodeRejectsLengthOne(c: char)
    ensures DecodeIDToPartitionAndRowKey([c]).Err?
  {
    assert |FromUrlAlphabet([c])| % 4 == 1;
    assert Base64UrlDecode([c]) == Err(Format(UrlLengthText([c])));
  }

  class SystemEvent {
    var partitionKey: NString
    var rowKey: NString
    var timeStampUtc: int
    var result: OperationResult
    var operationName: NString
    var uniqueOperationID: NString
    var caughtException: Option<string>
    var appInfo: ApplicationInfo
    var otherInfo: NString

    /** new SystemEvent(): a Neutral event with a fresh, non-empty RowKey. */
    constructor (hostName: NString, guid: nat, now: int)
      ensures result == Neutral
      ensures appInfo == ApplicationInfo(hostName)
      ensures rowKey == Some(GuidText(guid)) && |rowKey.value| == 36 && ';' !in rowKey.value
      ensures partitionKey == Some(GeneratePartitionKey(appInfo))
      ensures timeStampUtc == now
      ensures operationName == None && uniqueOperationID == None && caughtException == None && otherInfo == None
    {
      result := Neutral;
      appInfo := ApplicationInfo(hostName);
      rowKey := Some(GuidText(guid));
      partitionKey := Some(GeneratePartitionKey(ApplicationInfo(hostName)));
      timeStampUtc := now;
      operationName, uniqueOperationID, caughtException, otherInfo := None, None, None, None;
    }

    /** new SystemEvent(result). */
    constructor WithResult(r: OperationResult, hostName: NString, guid: nat, now: int)
      ensures result == r
      ensures appInfo == ApplicationInfo(hostName)
      ensures rowKey == Some(GuidText(guid)) && |rowKey.value| == 36 && ';' !in rowKey.value
      ensures partitionKey == Some(GeneratePartitionKey(appInfo))
      ensures timeStampUtc == now
      ensures operationName == None && uniqueOperationID == None && caughtException == None && otherInfo == None
    {
      result := r;
      appInfo := ApplicationInfo(hostName);
      rowKey := Some(GuidText(guid));
      partitionKey := Some(GeneratePartitionKey(ApplicationInfo(hostName)));
      timeStampUtc := now;
      operationName, uniqueOperationID, caughtException, otherInfo := None, None, None, None;
    }

    /** SystemEvent.ID: decodes back to the two keys whenever neither holds a ';'. */
    function ID(): (id: string)
      reads this
      ensures ';' !in NullToEmpty(partitionKey) && ';' !in NullToEmpty(rowKey) ==>
        DecodeIDToPartitionAndRowKey(id) == Ok((NullToEmpty(partitionKey), NullToEmpty(rowKey)))
    {
      EncodeKeys(NullToEmpty(partitionKey), NullToEmpty(rowKey))
    }

    /** What the analyzer engine reads from the event. */
    function AsRuleInput(): Event
      reads this
    {
      Event(operationName, result, caughtException, appInfo.applicationName, Some(ID()))
    }
  }
}
