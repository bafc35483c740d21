/**
 The four-way tone of a status dot, and a reference classification of status
 labels that each panel's own mapping is checked against: good for
 ok/connected/done/success, warn for warn/degraded, bad for
 off/offline/blocked/bad/failed, neutral for anything else.
 */
module Tones {

  datatype Tone = Good | Warn | Bad | Neutral

  function Classify(text: string): Tone {
    if text in {"ok", "connected", "done", "success"} then Good
    else if text in {"warn", "degraded"} then Warn
    else if text in {"off", "offline", "blocked", "bad", "failed"} then Bad
    else Neutral
  }
}
