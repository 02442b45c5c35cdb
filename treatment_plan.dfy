/**
 * The mock treatment-plan scripts of the add-patient wizard: a plan built
 * from the patient's first name, motivators, concerns and questions, and
 * a regenerated plan built from a tone, a length and extra information.
 * Both are templates with a fixed default phrase for each empty input.
 */
module TreatmentPlan {
  import opened Wrappers
  import opened Strings

  /** The pieces of a template, written one after another. */
  function Concat(pieces: seq<string>): string {
    if pieces == [] then [] else pieces[0] + Concat(pieces[1..])
  }

  lemma {:induction false} ConcatSplit(pieces: seq<string>, k: int)
    requires 0 <= k < |pieces|
    ensures Concat(pieces) == Concat(pieces[..k]) + pieces[k] + Concat(pieces[k + 1..])
  {
    if k == 0 {
      assert pieces[..0] == [];
      assert pieces[1..] == pieces[k + 1..];
    } else {
      ConcatSplit(pieces[1..], k - 1);
      assert pieces[1..][..k - 1] == pieces[1..k];
      assert pieces[1..][k..] == pieces[k + 1..];
      assert pieces[..k] == [pieces[0]] + pieces[1..k];
      assert Concat(pieces[..k]) == pieces[0] + Concat(pieces[1..k]);
    }
  }

  /** Every piece of a template appears in the text it produces. */
  lemma ConcatContains(pieces: seq<string>, k: int)
    requires 0 <= k < |pieces|
    ensures Contains(Concat(pieces), pieces[k])
  {
    ConcatSplit(pieces, k);
    ContainsMiddle(Concat(pieces[..k]), pieces[k], Concat(pieces[k + 1..]));
  }

  /** Two neighbouring pieces appear together in the text. */
  lemma ConcatAdjacent(pieces: seq<string>, k: int)
    requires 0 <= k < |pieces| - 1
    ensures Contains(Concat(pieces), pieces[k] + pieces[k + 1])
  {
    var pre, x, y, post := Concat(pieces[..k]), pieces[k], pieces[k + 1], Concat(pieces[k + 2..]);
    var rest := Concat(pieces[k + 1..]);
    assert Concat(pieces) == pre + x + rest by {
      ConcatSplit(pieces, k);
    }
    assert rest == y + post by {
      assert pieces[k + 1..][1..] == pieces[k + 2..];
    }
    ContainsPair(pre, x, y, post);
  }

  /** `value || fallback` on strings: the empty string is falsy. */
  function Or(value: string, fallback: string): string {
    if value != "" then value else fallback
  }

  // ---------------------------------------------------------------------
  // The generated plan

  const DefaultDesire := "their desire for improved dental health"
  const DefaultConcerns := "the treatment process"
  const DefaultGoals := "your goals"
  const DefaultObjections := "Be prepared for common objections about cost, time, and necessity."

  function MotivatorsSentence(motivators: string): string {
    "Reference their motivators: " + motivators + "."
  }

  function ConcernsSentence(concerns: string): string {
    ", I completely understand your concerns about " + concerns + ". Many of my patients have felt the same way initially.\""
  }

  function PhasesSentence(motivators: string): string {
    "\"Based on what we've discussed about " + motivators + ", I recommend we approach this treatment in 2-3 phases."
  }

  function ObjectionsLine(questions: string): string {
    if questions != "" then "Address their specific questions: " + questions else DefaultObjections
  }

  function ClosingSentence(motivators: string): string {
    "It addresses " + motivators + " while being mindful of your schedule and budget."
  }

  /**
   * The pieces of the plan: step headings and the sentences that carry an
   * input, in template order. Pieces 1, 3, 5, 6, 8, 10 and 12 carry inputs.
   */
  function PlanPieces(firstName: string, motivators: string, concerns: string, questions: string): seq<string> {
    [ "TREATMENT SALES STRATEGY\n\nSTEP 1: ESTABLISH RAPPORT & EMPATHY\nStart by acknowledging ",
      firstName,
      "'s concerns and showing genuine understanding. ",
      MotivatorsSentence(Or(motivators, DefaultDesire)),
      "\n\n\"",
      firstName,
      ConcernsSentence(Or(concerns, DefaultConcerns)),
      "\n\nSTEP 2: PRESENT THE CLINICAL FINDINGS\n\nSTEP 3: EXPLAIN THE RECOMMENDED TREATMENT\n",
      PhasesSentence(Or(motivators, DefaultGoals)),
      "\n\nSTEP 4: ADDRESS THE INVESTMENT\n\nSTEP 5: HANDLE OBJECTIONS PROACTIVELY\n",
      ObjectionsLine(questions),
      "\n\nSTEP 6: CREATE URGENCY (WITHOUT PRESSURE)\n\nSTEP 7: OFFER OPTIONS & FLEXIBILITY\n\nSTEP 8: CLOSE WITH CONFIDENCE\n",
      ClosingSentence(Or(motivators, DefaultGoals)),
      "\n\nSTEP 9: SECURE COMMITMENT\n\nSTEP 10: FOLLOW-UP PLAN\n\nKEY TALKING POINTS:"
    ]
  }

  /** The plan `handleGeneratePlan` produces. */
  function GeneratePlan(firstName: string, motivators: string, concerns: string, questions: string): string {
    Concat(PlanPieces(firstName, motivators, concerns, questions))
  }

  /** Empty motivators are replaced by two default phrases; non-empty ones appear as given, three times. */
  lemma MotivatorsFallback(firstName: string, motivators: string, concerns: string, questions: string)
    ensures var plan := GeneratePlan(firstName, motivators, concerns, questions);
      && (motivators == "" ==>
            Contains(plan, MotivatorsSentence(DefaultDesire))
            && Contains(plan, PhasesSentence(DefaultGoals))
            && Contains(plan, ClosingSentence(DefaultGoals)))
      && (motivators != "" ==>
            Contains(plan, MotivatorsSentence(motivators))
            && Contains(plan, PhasesSentence(motivators))
            && Contains(plan, ClosingSentence(motivators)))
  {
    var pieces := PlanPieces(firstName, motivators, concerns, questions);
    ConcatContains(pieces, 3);
    ConcatContains(pieces, 8);
    ConcatContains(pieces, 12);
  }

  /** Empty concerns are replaced by the default phrase; non-empty ones appear as given. */
  lemma ConcernsFallback(firstName: string, motivators: string, concerns: string, questions: string)
    ensures var plan := GeneratePlan(firstName, motivators, concerns, questions);
      && (concerns == "" ==> Contains(plan, ConcernsSentence(DefaultConcerns)))
      && (concerns != "" ==> Contains(plan, ConcernsSentence(concerns)))
  {
    ConcatContains(PlanPieces(firstName, motivators, concerns, questions), 6);
  }

  /** Without questions the objections step gives the stock line; with them, it lists them. */
  lemma QuestionsFallback(firstName: string, motivators: string, concerns: string, questions: string)
    ensures var plan := GeneratePlan(firstName, motivators, concerns, questions);
      && (questions == "" ==> Contains(plan, DefaultObjections))
      && (questions != "" ==> Contains(plan, "Address their specific questions: " + questions))
  {
    ConcatContains(PlanPieces(firstName, motivators, concerns, questions), 10);
  }

  /** The first name is addressed twice: in the rapport sentence and in the empathy quote. */
  lemma PlanNamesPatient(firstName: string, motivators: string, concerns: string, questions: string)
    ensures var plan := GeneratePlan(firstName, motivators, concerns, questions);
      && Contains(plan, firstName + "'s concerns and showing genuine understanding. ")
      && Contains(plan, firstName + ConcernsSentence(Or(concerns, DefaultConcerns)))
  {
    var pieces := PlanPieces(firstName, motivators, concerns, questions);
    ConcatAdjacent(pieces, 1);
    ConcatAdjacent(pieces, 5);
  }

  // ---------------------------------------------------------------------
  // The regenerated plan

  /** `toneDescriptions[tone]`: `undefined` for a tone outside the four. */
  function ToneDescription(tone: string): Option<string> {
    if tone == "professional" then Some("professional and clinical")
    else if tone == "empathetic" then Some("warm and empathetic")
    else if tone == "confident" then Some("confident and direct")
    else if tone == "consultative" then Some("consultative and collaborative")
    else None
  }

  /** A template literal prints `undefined` for a missing description. */
  function DescriptionText(tone: string): string {
    ToneDescription(tone).GetOr("undefined")
  }

  const DefaultExtraInfo := "standard patient concerns"

  function RegenPieces(tone: string, length: string, extraInfo: string): seq<string> {
    [ "TREATMENT SALES STRATEGY (" + DescriptionText(tone) + " tone - " + length + " version)\n",
      if extraInfo != "" then "\nSPECIAL CONSIDERATIONS: " + extraInfo + "\n" else "",
      "\n[Regenerated plan with adjusted tone and length would appear here...]\n\nThis is a ",
      length,
      " version with a ",
      DescriptionText(tone),
      " approach, taking into account: ",
      Or(extraInfo, DefaultExtraInfo),
      ".\n\nThe plan has been tailored to address the patient's specific situation while maintaining an appropriate ",
      tone,
      " tone throughout the conversation."
    ]
  }

  /** The plan `handleRegeneratePlan` produces. */
  function RegeneratePlan(tone: string, length: string, extraInfo: string): string {
    Concat(RegenPieces(tone, length, extraInfo))
  }

  /** Each of the four tones of the selector has its own description; any other has none. */
  lemma ToneDescriptions(tone: string)
    ensures tone == "professional" ==> ToneDescription(tone) == Some("professional and clinical")
    ensures tone == "empathetic" ==> ToneDescription(tone) == Some("warm and empathetic")
    ensures tone == "confident" ==> ToneDescription(tone) == Some("confident and direct")
    ensures tone == "consultative" ==> ToneDescription(tone) == Some("consultative and collaborative")
    ensures ToneDescription(tone).Some? <==> tone in {"professional", "empathetic", "confident", "consultative"}
  {
  }

  /**
   * The regenerated plan names the tone's description and the length in its
   * heading, names the tone itself, shows extra information under special
   * considerations when there is some, and otherwise takes the default phrase.
   */
  lemma RegenerateContents(tone: string, length: string, extraInfo: string)
    ensures var plan := RegeneratePlan(tone, length, extraInfo);
      && StartsWith(plan, "TREATMENT SALES STRATEGY (" + DescriptionText(tone) + " tone - " + length + " version)\n")
      && Contains(plan, tone)
      && Contains(plan, length)
      && (extraInfo != "" ==> Contains(plan, "\nSPECIAL CONSIDERATIONS: " + extraInfo + "\n") && Contains(plan, extraInfo))
      && (extraInfo == "" ==> Contains(plan, DefaultExtraInfo))
  {
    var pieces := RegenPieces(tone, length, extraInfo);
    ConcatSplit(pieces, 0);
    assert pieces[..0] == [];
    ConcatContains(pieces, 1);
    ConcatContains(pieces, 3);
    ConcatContains(pieces, 7);
    ConcatContains(pieces, 9);
  }
}
