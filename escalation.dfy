/** Question answering: a concise answer is generated and validated; if the
    validator does not clear it, an expanded answer is generated and
    validated; if that is not cleared either, a fixed refusal is sent. The
    validator answers with text, and an answer is cleared only when that
    text, lower-cased, is exactly "false" (no hallucination found). */
module Escalation {
  import opened Tour

  function LowerChar(c: char): char {
    if 'A' <= c <= 'Z' then (c as int + 32) as char else c
  }

  /** Lower-casing of ASCII letters. Python's `str.lower` also lowers
      non-ASCII letters, but none of them lowers to a letter of "false",
      so the comparison below is the same. */
  function Lower(s: string): (r: string)
    ensures |r| == |s|
    ensures forall i :: 0 <= i < |s| ==> r[i] == LowerChar(s[i])
  {
    if s == [] then [] else [LowerChar(s[0])] + Lower(s[1..])
  }

  /** The validator's verdict clears an answer. */
  predicate Cleared(verdict: string) {
    Lower(verdict) == "false"
  }

  /** Exactly the 32 spellings of "false" in any mix of cases clear an
      answer; every other text, "true", "", "false." or " false" among
      them, counts as a hallucination (the check fails closed). */
  lemma ClearedSpellings(verdict: string)
    ensures Cleared(verdict) <==>
      |verdict| == 5 && forall i :: 0 <= i < 5 ==> verdict[i] == "false"[i] || verdict[i] == "FALSE"[i]
  {
  }

  /** An external call made while answering one question. */
  datatype Call = GenerateConcise | GenerateExpanded | Validate(answer: string)

  /** Which answer was delivered. */
  datatype Tier = Concise | Expanded | Refused

  /** The one message sent, which tier it came from, and the external calls made, in order. */
  datatype Reply = Reply(tier: Tier, text: string, calls: seq<Call>)

  /** The two-tier chain of `process_question` for a question about `artwork`. */
  function AnswerQuestion(question: string, artwork: Artwork, profile: string, svc: Services): (r: Reply)
    ensures |r.calls| == 2 || |r.calls| == 4
    ensures r.calls[0] == GenerateConcise && r.calls[1].Validate?
    ensures |r.calls| == 4 ==> r.calls[2] == GenerateExpanded && r.calls[3].Validate?
    ensures r.tier == Concise <==> |r.calls| == 2
    ensures r.tier != Refused ==> r.calls[|r.calls| - 1] == Validate(r.text)
  {
    var concise := svc.generateAnswer(question, artwork, profile);
    var verdict := svc.evaluateHallucinations(artwork.text, concise, question);
    if Cleared(verdict) then
      Reply(Concise, concise, [GenerateConcise, Validate(concise)])
    else
      var expanded := svc.generateAnswerMax(question, artwork, profile);
      var verdict2 := svc.evaluateHallucinations(artwork.text, expanded, question);
      var calls := [GenerateConcise, Validate(concise), GenerateExpanded, Validate(expanded)];
      if Cleared(verdict2) then Reply(Expanded, expanded, calls)
      else Reply(Refused, RefusalText, calls)
  }

  /** Reference reading of the chain: deliver the first candidate whose
      verdict clears it, else the refusal. */
  function FirstCleared(candidates: seq<(string, string)>): (text: string)
    ensures (forall i :: 0 <= i < |candidates| ==> !Cleared(candidates[i].1)) ==> text == RefusalText
    ensures forall i :: (0 <= i < |candidates| && Cleared(candidates[i].1)
      && forall j :: 0 <= j < i ==> !Cleared(candidates[j].1)) ==> text == candidates[i].0
  {
    if candidates == [] then RefusalText
    else if Cleared(candidates[0].1) then candidates[0].0
    else FirstCleared(candidates[1..])
  }

  /** The delivered text is the first cleared one among the concise and the
      expanded answer, each judged by its own verdict, or the refusal. */
  lemma AnswerIsFirstCleared(question: string, artwork: Artwork, profile: string, svc: Services)
    ensures
      var concise := svc.generateAnswer(question, artwork, profile);
      var expanded := svc.generateAnswerMax(question, artwork, profile);
      AnswerQuestion(question, artwork, profile, svc).text == FirstCleared([
        (concise, svc.evaluateHallucinations(artwork.text, concise, question)),
        (expanded, svc.evaluateHallucinations(artwork.text, expanded, question))])
  {
  }

  /** Which tier is delivered, as a function of the two verdicts: the concise
      answer iff the first verdict clears it; the expanded answer iff the
      first does not and the second does; the refusal iff neither does. The
      expanded answer is generated only when the concise one is not cleared. */
  lemma EscalationOutcome(question: string, artwork: Artwork, profile: string, svc: Services)
    ensures
      var r := AnswerQuestion(question, artwork, profile, svc);
      var concise := svc.generateAnswer(question, artwork, profile);
      var expanded := svc.generateAnswerMax(question, artwork, profile);
      var first := Cleared(svc.evaluateHallucinations(artwork.text, concise, question));
      var second := Cleared(svc.evaluateHallucinations(artwork.text, expanded, question));
      (r.tier == Concise <==> first)
      && (r.tier == Expanded <==> !first && second)
      && (r.tier == Refused <==> !first && !second)
      && (r.tier == Concise ==> r.text == concise)
      && (r.tier == Expanded ==> r.text == expanded)
      && (r.tier == Refused ==> r.text == RefusalText)
      && (GenerateExpanded in r.calls <==> !first)
  {
  }
}
