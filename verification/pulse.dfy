/** The API status grid of the System Pulse core: each upstream's name and a two-way tone. */
module Pulse {
  import Tones

  datatype ApiState = Ok | Warn

  datatype Api = Api(name: string, status: ApiState)

  function Label(s: ApiState): string {
    match s
    case Ok => "ok"
    case Warn => "warn"
  }

  /** The status text's tone: ok is good, anything else is warn. */
  function ToneOf(s: ApiState): (t: Tones.Tone)
    ensures t == Tones.Classify(Label(s))
    ensures t == Tones.Good || t == Tones.Warn
  {
    if s == Ok then Tones.Good else Tones.Warn
  }

  /** Distinct statuses get distinct tones. */
  lemma ToneOfInjective(a: ApiState, b: ApiState)
    ensures ToneOf(a) == ToneOf(b) <==> a == b
  {
  }
}
