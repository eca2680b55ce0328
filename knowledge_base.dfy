/** The firm's fixed question-and-answer table and the lookup the dialogue falls back
    on when no dialogue rule produced a reply. */
module KnowledgeBase {
  import opened Wrappers
  import opened Text

  /** What each FAQ answer is about. */
  datatype Topic = HaveCase | CaseWorth | Cost | Duration | NextSteps

  /** The words of each FAQ answer. */
  function Answer(t: Topic): string {
    match t
    case HaveCase =>
      "Whether your situation qualifies as a personal injury case depends on the details of your incident. If you've been injured due to someone else's negligence, you may have a valid claim. I can gather more information now to evaluate your case."
    case CaseWorth =>
      "The value of your case depends on factors like medical expenses, lost wages, pain and suffering, and the extent of your injuries. I can discuss your situation in more detail to provide an initial estimate."
    case Cost =>
      "We work on a contingency fee basis, meaning you pay nothing upfront. We only get paid if you win your case, with fees typically a percentage of your settlement or award. I can explain this further."
    case Duration =>
      "The timeline for resolving a personal injury case varies based on its complexity, the extent of your injuries, and whether it settles or goes to trial. Simple cases may take months, while others could take a year or more. I'll keep you updated throughout the process."
    case NextSteps =>
      "Seek medical care for your injuries, document everything like photos, medical records, and receipts, and avoid speaking with insurance adjusters before I advise you. I can guide you on the next steps right now."
  }

  datatype Faq = Faq(question: string, topic: Topic)

  /** The FAQ table, in the insertion order of the `FAQS` dictionary of retell_bridge.py
      (which is the order its lookup tries the questions in). Questions are lower-case. */
  const Faqs: seq<Faq> := [
    Faq("do i have a case", HaveCase),
    Faq("how much is my case worth", CaseWorth),
    Faq("how much does it cost", Cost),
    Faq("how long will my case take", Duration),
    Faq("what should i do next", NextSteps)
  ]

  /** The reply when neither a dialogue rule nor an FAQ question applies. */
  const DefaultReply: string := "I want to make sure I understand you correctly. Could you please repeat that for me?"

  /** The topic of the first question, at index `i` or later, that occurs in `userLower`. */
  function FaqFrom(userLower: string, i: nat): Option<Topic>
    requires i <= |Faqs|
    decreases |Faqs| - i
  {
    if i == |Faqs| then None
    else if Contains(userLower, Faqs[i].question) then Some(Faqs[i].topic)
    else FaqFrom(userLower, i + 1)
  }

  /** The lookup finds nothing exactly when no question from index `i` on occurs, and
      otherwise gives the topic of the first question that does. */
  lemma {:induction false} FaqFromFirstMatch(userLower: string, i: nat)
    requires i <= |Faqs|
    ensures FaqFrom(userLower, i).None? <==>
              forall j :: i <= j < |Faqs| ==> !Contains(userLower, Faqs[j].question)
    ensures FaqFrom(userLower, i).Some? ==>
              exists j :: i <= j < |Faqs| && Contains(userLower, Faqs[j].question)
                          && FaqFrom(userLower, i).value == Faqs[j].topic
                          && forall m :: i <= m < j ==> !Contains(userLower, Faqs[m].question)
    decreases |Faqs| - i
  {
    if i < |Faqs| && !Contains(userLower, Faqs[i].question) {
      FaqFromFirstMatch(userLower, i + 1);
    }
  }

  /** The reply of the FAQ fallback: the answer of the first FAQ question that occurs
      in the lower-cased input, or else the default "please repeat" reply. */
  function Fallback(userLower: string): (r: string)
    ensures r == DefaultReply || exists t: Topic :: r == Answer(t)
  {
    match FaqFrom(userLower, 0)
    case Some(t) => Answer(t)
    case None => DefaultReply
  }

  /** The fallback gives the default reply when no question occurs in the input, and
      otherwise the answer of the first question that does. */
  lemma FallbackAnswers(userLower: string)
    ensures (forall j :: 0 <= j < |Faqs| ==> !Contains(userLower, Faqs[j].question)) ==>
              Fallback(userLower) == DefaultReply
    ensures (exists j :: 0 <= j < |Faqs| && Contains(userLower, Faqs[j].question)) ==>
              exists j :: 0 <= j < |Faqs| && Contains(userLower, Faqs[j].question)
                          && Fallback(userLower) == Answer(Faqs[j].topic)
                          && forall m :: 0 <= m < j ==> !Contains(userLower, Faqs[m].question)
  {
    FaqFromFirstMatch(userLower, 0);
    if FaqFrom(userLower, 0).Some? {
      var j :| 0 <= j < |Faqs| && Contains(userLower, Faqs[j].question)
               && FaqFrom(userLower, 0).value == Faqs[j].topic
               && forall m :: 0 <= m < j ==> !Contains(userLower, Faqs[m].question);
      assert Fallback(userLower) == Answer(Faqs[j].topic);
    }
  }

  /** The FAQ check of the dialogue: the questions are tried in table order and the
      first one contained in `userLower` gives the reply; if none is, the default. */
  method FindAnswer(userLower: string) returns (reply: string)
    ensures reply == Fallback(userLower)
  {
    var i := 0;
    while i < |Faqs|
      invariant 0 <= i <= |Faqs|
      invariant FaqFrom(userLower, i) == FaqFrom(userLower, 0)
      decreases |Faqs| - i
    {
      if Contains(userLower, Faqs[i].question) {
        return Answer(Faqs[i].topic);
      }
      i := i + 1;
    }
    return DefaultReply;
  }
}
