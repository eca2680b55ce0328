/** Gabbi's personality passes: the empathy opener chosen from the recent context, and
    the conversational markers (pauses after sentences, an encouraging closing phrase). */
module Personality {
  import opened Text

  const EmpathyTriggers: seq<string> := ["accident", "injured", "hurt", "pain"]
  const SeverityTriggers: seq<string> := ["severe", "serious", "hospital", "surgery"]

  const EmpathyPhrases: seq<string> := [
    "I'm so sorry to hear that happened to you",
    "That sounds really difficult",
    "I can only imagine how that must feel",
    "That must have been scary"
  ]

  const SeverityOpener: string := "Oh my gosh, that sounds awful I'm sorry"

  /** The empathy pass. The opener among the four empathy phrases is picked by the
      process's string hash, which is salted per process: `hash` stands for it, and the
      index is `hash(context) % 4` (Python's `%` by a positive divisor never yields a
      negative index, and neither does Dafny's). Whatever the hash, the reply text is
      kept intact at the end. */
  function AddEmpathyMarkers(text: string, context: string, hash: string -> int): (r: string)
    ensures |text| <= |r| && r[|r| - |text|..] == text
    ensures AnyOccurs(EmpathyTriggers, Lower(context)) ==>
              exists i :: 0 <= i < |EmpathyPhrases| && r == EmpathyPhrases[i] + ". " + text
    ensures !AnyOccurs(EmpathyTriggers, Lower(context)) && AnyOccurs(SeverityTriggers, Lower(context)) ==>
              r == SeverityOpener + ". " + text
    ensures r == text <==> !AnyOccurs(EmpathyTriggers, Lower(context)) && !AnyOccurs(SeverityTriggers, Lower(context))
  {
    var contextLower := Lower(context);
    if AnyOccurs(EmpathyTriggers, contextLower) then
      EmpathyPhrases[hash(context) % |EmpathyPhrases|] + ". " + text
    else if AnyOccurs(SeverityTriggers, contextLower) then
      SeverityOpener + ". " + text
    else
      text
  }

  const EncouragingPhrases: seq<string> := [
    "you made the right call",
    "I'm here to help you through this",
    "we're going to take good care of you"
  ]

  /** The first two rewrites of the conversational-markers pass: "I'm" by itself (which
      changes nothing, see PausesOnlyInsertDots) and every ". " by "... ". */
  function Pauses(text: string): string {
    Replace(Replace(text, "I'm", "I'm"), ". ", "... ")
  }

  /** The "I'm" rewrite is the identity, so the pauses pass is the ". " rewrite alone;
      it never shortens the text, and a text without ". " is left as it is. */
  lemma PausesOnlyInsertDots(text: string)
    ensures Pauses(text) == Replace(text, ". ", "... ")
    ensures |Pauses(text)| >= |text|
    ensures !Contains(text, ". ") ==> Pauses(text) == text
  {
    ReplaceSelf(text, "I'm");
    ReplaceNeverShortens(text, ". ", "... ");
    if !Contains(text, ". ") {
      ReplaceAbsent(text, ". ", "... ");
    }
  }

  /** The conversational-markers pass as a value: the paused text, followed by
      " And <phrase>." when the paused text is longer than 80 characters and none of
      the encouraging phrases occurs in it (lower-cased); the phrase is chosen by the
      paused text's length modulo 3. */
  function ConversationalMarkers(text: string): (r: string)
    ensures |Pauses(text)| <= |r| && r[..|Pauses(text)|] == Pauses(text)
    ensures r != Pauses(text) <==> |Pauses(text)| > 80 && !AnyOccurs(EncouragingPhrases, Lower(Pauses(text)))
    ensures r != Pauses(text) ==> r == Pauses(text) + " And " + EncouragingPhrases[|Pauses(text)| % 3] + "."
  {
    var t := Pauses(text);
    if |t| > 80 && !AnyOccurs(EncouragingPhrases, Lower(t)) then
      t + " And " + EncouragingPhrases[|t| % |EncouragingPhrases|] + "."
    else
      t
  }

  /** The pass step by step, reassigning the text as it goes. */
  method AddConversationalMarkers(text: string) returns (r: string)
    ensures r == ConversationalMarkers(text)
  {
    r := Replace(text, "I'm", "I'm");
    r := Replace(r, ". ", "... ");
    if |r| > 80 {
      if !AnyOccurs(EncouragingPhrases, Lower(r)) {
        var phraseIndex := |r| % |EncouragingPhrases|;
        r := r + " And " + EncouragingPhrases[phraseIndex] + ".";
      }
    }
  }

  /** A short text without sentence breaks passes through the markers pass unchanged. */
  lemma ShortPlainTextUnchanged(text: string)
    requires |text| <= 80 && !Contains(text, ". ")
    ensures ConversationalMarkers(text) == text
  {
    PausesOnlyInsertDots(text);
  }

  /** The duplicate-phrase guard compares the lower-cased text with the phrases as
      written, so the second phrase, which starts with a capital "I", is never seen as
      present: a long text already carrying it can receive a further encouragement. */
  lemma SecondPhraseNeverDetected(text: string)
    ensures !Contains(Lower(Pauses(text)), EncouragingPhrases[1])
    ensures |Pauses(text)| > 80 && !Contains(Lower(Pauses(text)), EncouragingPhrases[0])
            && !Contains(Lower(Pauses(text)), EncouragingPhrases[2])
            ==> ConversationalMarkers(text) != Pauses(text)
  {
    UpperNeverInLower(Pauses(text), EncouragingPhrases[1], 0);
  }
}
