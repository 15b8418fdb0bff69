/**
 * The Slack channel's payloads: what SendAlarm, SendAggregatedAlarm and
 * PostMessage(text, username, channel) hand to the web hook.  The HTTP post
 * itself is not modelled; strings the payload leaves null are None.
 */
module SlackClient {
  import opened Common
  import MessageAggregator

  /** Payload.AttachmentField; Short defaults to false. */
  datatype Field = Field(title: NString, value: NString, short: bool)

  /** Payload.Attachment; the string properties default to null, Fields to an empty list. */
  datatype Attachment = Attachment(fallback: NString, color: NString, pretext: NString, title: NString,
                                   titleLink: NString, fields: seq<Field>)

  /** Payload (channel, username, text, attachments). */
  datatype Payload = Payload(channel: NString, username: NString, text: NString, attachments: seq<Attachment>)

  const BlankPayload: Payload := Payload(None, None, None, [])
  const HighColour: string := "#c90906"
  const MediumColour: string := "#ff9e0c"
  const LowColour: string := "#07b220"

  /** GetAlarmColour: one colour per named level, ArgumentOutOfRangeException for any other value. */
  function GetAlarmColour(level: AlarmLevel): (r: Result<string>)
    ensures r.Ok? <==> level == High || level == Medium || level == Low
    ensures r.Err? ==> r.error == ArgumentOutOfRange
  {
    if level == High then Ok(HighColour)
    else if level == Medium then Ok(MediumColour)
    else if level == Low then Ok(LowColour)
    else Err(ArgumentOutOfRange)
  }

  /** Distinct levels get distinct colours. */
  lemma ColoursDistinct(l1: AlarmLevel, l2: AlarmLevel)
    requires GetAlarmColour(l1).Ok? && GetAlarmColour(l2).Ok?
    ensures GetAlarmColour(l1) == GetAlarmColour(l2) <==> l1 == l2
  {
    assert HighColour[1] != MediumColour[1] && HighColour[1] != LowColour[1] && MediumColour[1] != LowColour[1];
  }

  /** "{Level} level alarm raised by {Origin}": a null origin interpolates as nothing. */
  function RaisedText(m: AlarmMessage): string
  {
    LevelName(m.level) + " level alarm raised by " + NullToEmpty(m.origin)
  }

  /** The fields SendAlarm attaches: StorageID when it is set, then the caught exception when it is set. */
  function AlarmFields(m: AlarmMessage): seq<Field>
  {
    var fields := [];
    var fields := if m.storageID.Some? then fields + [Field(Some("StorageID"), m.storageID, true)] else fields;
    if m.exceptionMessage.Some? then fields + [Field(Some("Caught Exception"), m.exceptionMessage, true)] else fields
  }

  /** SendAlarm's payload; the colour is looked up first, so an unnamed level fails before anything is built. */
  function AlarmPayload(m: AlarmMessage): Result<Payload>
  {
    match GetAlarmColour(m.level)
    case Err(x) => Err(x)
    case Ok(colour) =>
      var msgText := RaisedText(m);
      var att := Attachment(Some(msgText), Some(colour), Some(msgText), Some(NullToEmpty(m.message)), Some(""),
                            AlarmFields(m));
      Ok(BlankPayload.(attachments := [att], username := m.origin))
  }

  /**
   * SendAlarm's payload has one attachment, posted under the origin's name,
   * with the text as title and the raised-by line as both fallback and
   * pretext; it carries a StorageID field exactly when the alarm has one,
   * and a "Caught Exception" field exactly when it has an exception text,
   * in that order, both short.  An unnamed level fails with
   * ArgumentOutOfRange before anything is posted.
   */
  lemma AlarmPayloadShape(m: AlarmMessage)
    ensures GetAlarmColour(m.level).Err? ==> AlarmPayload(m) == Err(ArgumentOutOfRange)
    ensures GetAlarmColour(m.level).Ok? ==> var r := AlarmPayload(m);
      && r.Ok? && |r.value.attachments| == 1 && r.value.username == m.origin
      && r.value.channel.None? && r.value.text.None?
      && var a := r.value.attachments[0];
         && a.fallback == a.pretext == Some(RaisedText(m))
         && a.title == Some(NullToEmpty(m.message)) && a.color == Some(GetAlarmColour(m.level).value)
         && |a.fields| == (if m.storageID.Some? then 1 else 0) + (if m.exceptionMessage.Some? then 1 else 0)
         && (forall f :: f in a.fields ==> f.short && f.value.Some?)
         && (m.storageID.Some? <==> exists f :: f in a.fields && f == Field(Some("StorageID"), m.storageID, true))
         && (m.exceptionMessage.Some? <==>
               exists f :: f in a.fields && f == Field(Some("Caught Exception"), m.exceptionMessage, true))
         && (m.storageID.Some? ==> a.fields[0].title == Some("StorageID"))
  {
    var sf, ef := Field(Some("StorageID"), m.storageID, true), Field(Some("Caught Exception"), m.exceptionMessage, true);
    assert sf.title != ef.title by { assert "StorageID"[0] != "Caught Exception"[0]; }
    var fs := AlarmFields(m);
    if m.storageID.Some? && m.exceptionMessage.Some? {
      assert fs == [sf, ef] && sf in fs && ef in fs;
    } else if m.storageID.Some? {
      assert fs == [sf] && sf in fs && ef !in fs;
    } else if m.exceptionMessage.Some? {
      assert fs == [ef] && ef in fs && sf !in fs;
    } else {
      assert fs == [];
    }
  }

  /**
   * SendAggregatedAlarm's payload for an aggregated entry; `dateText` renders
   * a DateTime the way string interpolation does.
   */
  function AggregatedPayload(a: MessageAggregator.Aggregated<AlarmMessage>, dateText: int -> string): Result<Payload>
  {
    match GetAlarmColour(a.message.level)
    case Err(x) => Err(x)
    case Ok(colour) =>
      var msgText := NullToEmpty(a.message.origin) + " caused an alarm flood.";
      var amountField := Field(Some("Number of occurrences: " + NatToString(a.amountCounter)), None, false);
      var firstField := Field(Some("First occurrence"), Some(dateText(a.firstOccurrence) + " UTC"), true);
      var lastField := Field(Some("Last occurrence"), Some(dateText(a.lastOccurrence) + " UTC"), true);
      var att := Attachment(Some(msgText), Some(colour), Some(msgText), Some(NullToEmpty(a.message.message)), Some(""),
                            [amountField, firstField, lastField]);
      Ok(BlankPayload.(username := a.message.origin, attachments := [att]))
  }

  /**
   * The aggregated payload: one attachment under the origin's name, titled
   * with the stored text, announcing the flood, with exactly three fields —
   * the count (no value, not short), then the first and the last occurrence
   * (short) — and it fails exactly when the stored level has no colour.
   */
  lemma AggregatedPayloadShape(a: MessageAggregator.Aggregated<AlarmMessage>, dateText: int -> string)
    ensures var r := AggregatedPayload(a, dateText);
      && (r.Err? <==> GetAlarmColour(a.message.level).Err?)
      && (r.Ok? ==>
            && |r.value.attachments| == 1 && r.value.username == a.message.origin
            && var att := r.value.attachments[0];
               && att.pretext == att.fallback == Some(NullToEmpty(a.message.origin) + " caused an alarm flood.")
               && att.title == Some(NullToEmpty(a.message.message))
               && |att.fields| == 3
               && att.fields[0] == Field(Some("Number of occurrences: " + NatToString(a.amountCounter)), None, false)
               && att.fields[1].title == Some("First occurrence") && att.fields[1].short
               && att.fields[2].title == Some("Last occurrence") && att.fields[2].short)
  {
  }

  /** PostMessage(text, username, channel): the three strings and no attachment. */
  function TextPayload(text: NString, username: NString, channel: NString): (p: Payload)
    ensures p.text == text && p.username == username && p.channel == channel && p.attachments == []
  {
    Payload(channel, username, text, [])
  }
}
