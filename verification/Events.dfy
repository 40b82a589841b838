/** The parts of a security event that the buffering and admission code looks at. */
module Events {
  datatype Severity = Critical | High | Medium | Low | Info

  /** Log sources and event types are enumerations; their members are represented by numbers. */
  type Source = nat
  type EventType = nat

  datatype Event = Event(id: string, source: Source, eventType: EventType, severity: Severity, message: string)

  /** The category of an event: the three fields its buffer key is rendered from. */
  datatype Key = Key(source: Source, eventType: EventType, severity: Severity)

  function KeyOf(e: Event): Key {
    Key(e.source, e.eventType, e.severity)
  }

  /** The priority queues: critical and high events share one, low and informational ones another. */
  datatype Level = HighLevel | MediumLevel | LowLevel

  function LevelOf(s: Severity): Level {
    match s
    case Critical => HighLevel
    case High => HighLevel
    case Medium => MediumLevel
    case Low => LowLevel
    case Info => LowLevel
  }
}
