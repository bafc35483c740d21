/** The static data set the dashboard renders, used here as concrete witnesses. */
module Mock {
  import opened Options
  import Skills
  import Pulse
  import Tones

  const SkillList: seq<Skills.Skill> := [
    Skills.Skill("grok-search", Skills.Ok, Some("1.3.0")),
    Skills.Skill("elevenlabs-tts", Skills.Ok, Some("0.9.2")),
    Skills.Skill("whisper", Skills.Ok, Some("2.1.1")),
    Skills.Skill("vercel-deploy", Skills.Warn, Some("0.4.0")),
    Skills.Skill("github-sync", Skills.Ok, Some("0.8.7")),
    Skills.Skill("system-health", Skills.Ok, Some("1.0.0"))
  ]

  const ApiList: seq<Pulse.Api> := [
    Pulse.Api("GitHub", Pulse.Ok),
    Pulse.Api("Vercel", Pulse.Ok),
    Pulse.Api("OpenAI", Pulse.Warn),
    Pulse.Api("Grok", Pulse.Ok)
  ]

  /** Six skills: five are listed, the sixth is counted as "+ 1 more". */
  lemma SkillsCounter()
    ensures |Skills.Visible(SkillList)| == 5
    ensures Skills.MoreCount(SkillList) == 1
    ensures Skills.Visible(SkillList)[3].status == Skills.Warn
  {
  }

  /** The OpenAI upstream is the one entry of the status grid shown in the warn tone. */
  lemma ApiTones()
    ensures forall i :: 0 <= i < |ApiList| ==> (Pulse.ToneOf(ApiList[i].status) == Tones.Warn <==> i == 2)
  {
  }
}
