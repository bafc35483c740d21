/** The projects list of the Work & Agents panel: each project's name and recency with a status dot. */
module Projects {
  import Tones

  datatype Status = InProgress | Done | Blocked

  datatype Project = Project(name: string, status: Status, updated: string)

  function Label(s: Status): string {
    match s
    case InProgress => "in-progress"
    case Done => "done"
    case Blocked => "blocked"
  }

  /** The dot's tone: done is good, blocked is bad, anything else is neutral. */
  function ToneOf(s: Status): (t: Tones.Tone)
    ensures t == Tones.Classify(Label(s))
    ensures t != Tones.Warn
  {
    if s == Done then Tones.Good else if s == Blocked then Tones.Bad else Tones.Neutral
  }

  /** Distinct statuses get distinct tones. */
  lemma ToneOfInjective(a: Status, b: Status)
    ensures ToneOf(a) == ToneOf(b) <==> a == b
  {
  }
}
