/** The Connections panel: each connection's name and note with a status dot. */
module Connections {
  import Tones

  datatype Status = Connected | Degraded | Offline

  datatype Connection = Connection(name: string, status: Status, note: string)

  function Label(s: Status): string {
    match s
    case Connected => "connected"
    case Degraded => "degraded"
    case Offline => "offline"
  }

  /** The dot's tone: connected is good, degraded is warn, anything else is bad. */
  function ToneOf(s: Status): (t: Tones.Tone)
    ensures t == Tones.Classify(Label(s))
    ensures t != Tones.Neutral
  {
    if s == Connected then Tones.Good else if s == Degraded then Tones.Warn else Tones.Bad
  }

  /** Distinct statuses get distinct tones. */
  lemma ToneOfInjective(a: Status, b: Status)
    ensures ToneOf(a) == ToneOf(b) <==> a == b
  {
  }
}
