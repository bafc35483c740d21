/** The Skills panel: the first five skills with a status dot each, then a "+ N more" counter. */
module Skills {
  import opened Options
  import Tones

  datatype Status = Ok | Warn | Off

  datatype Skill = Skill(name: string, status: Status, version: Option<string>)

  /** How many skills the panel lists before it starts counting. */
  const Limit: nat := 5

  /** The status text shown beside the dot. */
  function Label(s: Status): string {
    match s
    case Ok => "ok"
    case Warn => "warn"
    case Off => "off"
  }

  /** The dot's tone: ok is good, warn is warn, anything else is bad. */
  function ToneOf(s: Status): (t: Tones.Tone)
    ensures t == Tones.Classify(Label(s))
    ensures t != Tones.Neutral
  {
    if s == Ok then Tones.Good else if s == Warn then Tones.Warn else Tones.Bad
  }

  /** Distinct statuses get distinct tones. */
  lemma ToneOfInjective(a: Status, b: Status)
    ensures ToneOf(a) == ToneOf(b) <==> a == b
  {
  }

  /** The listed skills: `slice(0, 5)`. */
  function Visible(skills: seq<Skill>): (v: seq<Skill>)
    ensures |v| == if |skills| < Limit then |skills| else Limit
    ensures v <= skills
  {
    skills[..if |skills| < Limit then |skills| else Limit]
  }

  /** The counter: `Math.max(0, length - 5)`. */
  function MoreCount(skills: seq<Skill>): (n: nat)
    ensures |Visible(skills)| + n == |skills|
    ensures n == 0 <==> |skills| <= Limit
  {
    var over := |skills| - Limit;
    if 0 < over then over else 0
  }

  /** The listed skills followed by the counted ones are the whole list, in order. */
  lemma VisibleThenRest(skills: seq<Skill>)
    ensures Visible(skills) + skills[|Visible(skills)|..] == skills
    ensures |skills[|Visible(skills)|..]| == MoreCount(skills)
  {
  }

  datatype Row = Row(name: string, tone: Tones.Tone, text: string)

  /** Renders the panel: one row per listed skill, and the counter. */
  method Panel(skills: seq<Skill>) returns (rows: seq<Row>, more: nat)
    ensures |rows| == |Visible(skills)|
    ensures more == MoreCount(skills)
    ensures |rows| + more == |skills|
    ensures forall i :: 0 <= i < |rows| ==>
      rows[i] == Row(skills[i].name, Tones.Classify(Label(skills[i].status)), Label(skills[i].status))
  {
    var shown := Visible(skills);
    rows := [];
    var i := 0;
    while i < |shown|
      invariant 0 <= i <= |shown|
      invariant |rows| == i
      invariant forall j :: 0 <= j < i ==>
        rows[j] == Row(skills[j].name, Tones.Classify(Label(skills[j].status)), Label(skills[j].status))
    {
      var s := shown[i];
      rows := rows + [Row(s.name, ToneOf(s.status), Label(s.status))];
      i := i + 1;
    }
    more := MoreCount(skills);
  }
}
