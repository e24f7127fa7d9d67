/** The flat key/value message the watch sends to the phone. */
module Wire {
  import opened Wrappers
  import opened Domain

  /** The scalars a message carries (Swift `[String: Any]` holding String, Int, Double). */
  datatype Value = Text(text: string) | Integer(number: int) | Instant(seconds: Seconds)

  type Message = map<string, Value>

  const LogCravingAction := "logCraving"
  const ActionKey := "action"
  const DescriptionKey := "description"
  const IntensityKey := "intensity"
  const TimestampKey := "timestamp"

  /** The keys of a "logCraving" message, and no others. */
  const LogCravingKeys: set<string> := {ActionKey, DescriptionKey, IntensityKey, TimestampKey}

  /** The "logCraving" message, as both the view model and the service build it. */
  function LogCravingMessage(description: string, intensity: int, timestamp: Seconds): (m: Message)
    ensures m.Keys == LogCravingKeys
    ensures m[ActionKey] == Text(LogCravingAction)
  {
    map[ActionKey := Text(LogCravingAction),
        DescriptionKey := Text(description),
        IntensityKey := Integer(intensity),
        TimestampKey := Instant(timestamp)]
  }

  /** The receiving side's reading of a "logCraving" message: the tag must be
      "logCraving" and each field must be present with the right kind of value. */
  function DecodeCraving(m: Message): (r: Option<WatchCravingEntity>)
    ensures r.Some? ==> ActionKey in m && m[ActionKey] == Text(LogCravingAction)
  {
    if ActionKey in m && m[ActionKey] == Text(LogCravingAction)
       && DescriptionKey in m && m[DescriptionKey].Text?
       && IntensityKey in m && m[IntensityKey].Integer?
       && TimestampKey in m && m[TimestampKey].Instant?
    then Some(WatchCravingEntity(m[DescriptionKey].text, m[IntensityKey].number, m[TimestampKey].seconds))
    else None
  }

  /** Decoding a built message gives back the three fields it was built from. */
  lemma DecodeLogCravingMessage(description: string, intensity: int, timestamp: Seconds)
    ensures DecodeCraving(LogCravingMessage(description, intensity, timestamp))
            == Some(WatchCravingEntity(description, intensity, timestamp))
  {
  }

  /** Conversely, a decodable message with exactly the four keys is the message
      built from what it decodes to: nothing else can be on the wire. */
  lemma LogCravingMessageOfDecoded(m: Message)
    requires m.Keys == LogCravingKeys
    requires DecodeCraving(m).Some?
    ensures var c := DecodeCraving(m).value;
            LogCravingMessage(c.text, c.intensity, c.timestamp) == m
  {
  }
}
