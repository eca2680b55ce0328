/** The per-call intake dialogue of the conversation flow: the case-type classifier and
    the state machine that, one caller utterance at a time, fills a fixed sequence of
    slots per track (personal injury or no-fault collection) and then hands the call
    over, or falls back to the FAQ table. */
module Flow {
  import opened Wrappers
  import opened Text
  import KnowledgeBase

  // ---------------------------------------------------------------------------
  // Case-type classifier

  datatype CaseType = PersonalInjury | NoFault | OutsidePractice | Unknown

  /** The label retell_bridge.py stores in the `case_type` slot. */
  function CaseLabel(ct: CaseType): string {
    match ct
    case PersonalInjury => "personal_injury"
    case NoFault => "no_fault"
    case OutsidePractice => "outside_practice"
    case Unknown => "unknown"
  }

  const PersonalInjuryKeywords: seq<string> :=
    ["accident", "injured", "hurt", "car", "truck", "motorcycle", "slip", "fall", "crash"]
  const NoFaultKeywords: seq<string> :=
    ["no fault", "no-fault", "insurance", "practice", "healthcare", "provider", "denied", "benefits"]
  const OutsidePracticeKeywords: seq<string> :=
    ["divorce", "criminal", "family", "real estate", "bankruptcy", "immigration"]

  /** Words that, at the greeting, show the caller has already named a personal-injury matter. */
  const MentionKeywords: seq<string> := ["accident", "injured", "car", "truck"]

  /** Words in the injuries answer that qualify a personal-injury caller for transfer. */
  const InjuryKeywords: seq<string> := ["injured", "hurt", "pain", "hospital", "doctor", "medical"]

  /** Exactly one of four labels, by keyword lists tried in a fixed priority order:
      personal injury, then no-fault, then outside the practice, else unknown. */
  function IdentifyCaseType(userInput: string): (r: CaseType)
    ensures r == PersonalInjury <==> AnyOccurs(PersonalInjuryKeywords, Lower(userInput))
    ensures r == NoFault <==> !AnyOccurs(PersonalInjuryKeywords, Lower(userInput))
                              && AnyOccurs(NoFaultKeywords, Lower(userInput))
    ensures r == OutsidePractice <==> !AnyOccurs(PersonalInjuryKeywords, Lower(userInput))
                                      && !AnyOccurs(NoFaultKeywords, Lower(userInput))
                                      && AnyOccurs(OutsidePracticeKeywords, Lower(userInput))
    ensures r == Unknown <==> !AnyOccurs(PersonalInjuryKeywords, Lower(userInput))
                              && !AnyOccurs(NoFaultKeywords, Lower(userInput))
                              && !AnyOccurs(OutsidePracticeKeywords, Lower(userInput))
  {
    var userLower := Lower(userInput);
    if AnyOccurs(PersonalInjuryKeywords, userLower) then PersonalInjury
    else if AnyOccurs(NoFaultKeywords, userLower) then NoFault
    else if AnyOccurs(OutsidePracticeKeywords, userLower) then OutsidePractice
    else Unknown
  }

  /** The classifier does not depend on letter case. */
  lemma CaseTypeIgnoresCase(userInput: string)
    ensures IdentifyCaseType(Lower(userInput)) == IdentifyCaseType(userInput)
  {
    LowerIdempotent(userInput);
  }

  /** Saying more never takes a caller off the personal-injury track: the first list
      wins, and its keywords still occur in a longer utterance. */
  lemma {:induction false} PersonalInjuryPersists(userInput: string, more: string)
    requires IdentifyCaseType(userInput) == PersonalInjury
    ensures IdentifyCaseType(userInput + more) == PersonalInjury
    ensures IdentifyCaseType(more + userInput) == PersonalInjury
  {
    LowerConcat(userInput, more);
    LowerConcat(more, userInput);
    AnyOccursInConcat(PersonalInjuryKeywords, Lower(userInput), Lower(more));
  }

  /** The greeting's "already named the matter" words are all personal-injury keywords. */
  lemma {:induction false} MentionMeansPersonalInjury(userInput: string)
    requires AnyOccurs(MentionKeywords, Lower(userInput))
    ensures IdentifyCaseType(userInput) == PersonalInjury
  {
    var i :| 0 <= i < |MentionKeywords| && Contains(Lower(userInput), MentionKeywords[i]);
    var j := [0, 1, 3, 4][i];
    assert MentionKeywords[i] == PersonalInjuryKeywords[j];
  }

  // ---------------------------------------------------------------------------
  // Dialogue states and slots

  datatype State =
    | InitialGreeting
    | IdentifyingCaller
    | CollectingInfo
    | QualifyingPersonalInjury
    | QualifyingNoFault
    | QualifiedReadyTransfer
    | NotQualified
    | OutsidePracticeArea

  /** The integer retell_bridge.py stores for each state. */
  function StateCode(s: State): (n: nat)
    ensures n < 8
  {
    match s
    case InitialGreeting => 0
    case IdentifyingCaller => 1
    case CollectingInfo => 2
    case QualifyingPersonalInjury => 3
    case QualifyingNoFault => 4
    case QualifiedReadyTransfer => 5
    case NotQualified => 6
    case OutsidePracticeArea => 7
  }

  /** No two states share a code. */
  lemma StateCodeInjective(a: State, b: State)
    ensures StateCode(a) == StateCode(b) ==> a == b
  {
  }

  /** States in which every utterance only gets an FAQ answer or the default reply. */
  predicate IsTerminal(s: State) {
    s == QualifiedReadyTransfer || s == NotQualified || s == OutsidePracticeArea
  }

  /** The keys of the slot record (`case_type`, `name`, `phone_confirmed`, ...). */
  datatype Slot =
    | CaseTypeSlot
    | Name
    | PhoneConfirmed
    | Situation
    | LocationTime
    | Injuries
    | ProviderType
    | AcceptsNoFault
    | OutstandingAmount

  type Info = map<Slot, string>

  datatype Session = Session(state: State, info: Info)

  /** The session a call starts with. */
  const Fresh: Session := Session(InitialGreeting, map[])

  predicate IsTrack(ct: CaseType) {
    ct == PersonalInjury || ct == NoFault
  }

  /** The order in which each track fills its slots. */
  function SlotOrder(ct: CaseType): (order: seq<Slot>)
    requires IsTrack(ct)
    ensures |order| == 6
  {
    if ct == PersonalInjury then
      [CaseTypeSlot, Name, PhoneConfirmed, Situation, LocationTime, Injuries]
    else
      [CaseTypeSlot, Name, PhoneConfirmed, ProviderType, AcceptsNoFault, OutstandingAmount]
  }

  /** The slots of the first `n` in the track's order. */
  function FirstSlots(ct: CaseType, n: nat): set<Slot>
    requires IsTrack(ct) && n <= 6
  {
    if n == 0 then {} else FirstSlots(ct, n - 1) + {SlotOrder(ct)[n - 1]}
  }

  /** The record is on track `ct` and holds exactly its first `n` slots (n >= 1, so the
      `case_type` slot, holding the track's label, is among them). */
  ghost predicate FilledTo(info: Info, ct: CaseType, n: nat) {
    IsTrack(ct) && 1 <= n <= 6
    && info.Keys == FirstSlots(ct, n)
    && CaseTypeSlot in info && info[CaseTypeSlot] == CaseLabel(ct)
  }

  /** The sessions the dialogue can reach from a fresh one: each state goes with the
      slot records it can hold. */
  ghost predicate SessionOk(s: Session) {
    match s.state
    case InitialGreeting => s.info == map[]
    case IdentifyingCaller => s.info == map[]
    case OutsidePracticeArea => s.info == map[]
    case CollectingInfo =>
      FilledTo(s.info, PersonalInjury, 1) || FilledTo(s.info, PersonalInjury, 2)
      || FilledTo(s.info, NoFault, 1) || FilledTo(s.info, NoFault, 2)
    case QualifyingPersonalInjury =>
      FilledTo(s.info, PersonalInjury, 3) || FilledTo(s.info, PersonalInjury, 4)
      || FilledTo(s.info, PersonalInjury, 5)
    case QualifyingNoFault =>
      FilledTo(s.info, NoFault, 3) || FilledTo(s.info, NoFault, 4) || FilledTo(s.info, NoFault, 5)
    case QualifiedReadyTransfer =>
      FilledTo(s.info, PersonalInjury, 6) || FilledTo(s.info, NoFault, 6)
    case NotQualified => FilledTo(s.info, PersonalInjury, 6)
  }

  // ---------------------------------------------------------------------------
  // Replies

  /** The opening line of every call. */
  const Greeting: string := "Hi, this is Gabbi, the AI receptionist at TonaLaw. How can I help you?"

  /** The dialogue rules' replies. */
  datatype Reply =
    | ConfirmPersonalInjury
    | AskMatter
    | NoFaultIntro
    | OutsidePracticeReply
    | AskName
    | AskPracticeName
    | ConfirmPhone
    | AskSituation
    | AskProviderType
    | AskLocationTime
    | AskInjuries
    | TransferPersonalInjury
    | NotQualifiedReply
    | AskAcceptsNoFault
    | AskOutstandingAmount
    | TransferNoFault

  /** The words of each reply. */
  function Wording(r: Reply): string {
    match r
    case ConfirmPersonalInjury => "Okay got it so to confirm, you are calling about a personal injury matter, right?"
    case AskMatter => "We appreciate you calling us at Tona Law. What kind of matter can I assist you with?"
    case NoFaultIntro => "We appreciate you calling us at Tona Law. I understand you're calling about no-fault collection. What is the name of your practice?"
    case OutsidePracticeReply => "I appreciate you calling us, but we actually don't handle these types of cases. I recommend you contact a law firm that specializes in that area. Is there anything else I can help you with?"
    case AskName => "Let me start by getting your first and last name. Do you mind spelling your full name slowly and clearly for me?"
    case AskPracticeName => "What is the name of your practice?"
    case ConfirmPhone => "And to confirm, is the number you are calling us from the best number to reach you at?"
    case AskSituation => "Can you briefly explain the situation?"
    case AskProviderType => "Thank you. What type of healthcare provider are you?"
    case AskLocationTime => "Where and when did the accident happen?"
    case AskInjuries => "Can you please describe the injuries from the accident?"
    case TransferPersonalInjury => "Okay so what I'd like to do now is transfer you over to my colleague who will help you with the next steps. Again, I'm very sorry to hear about your situation but you made the right call. I'm transferring you now."
    case NotQualifiedReply => "I understand. Since there were no injuries, this might not qualify for a personal injury case. However, I'd be happy to discuss other options or see if there's anything else I can help you with."
    case AskAcceptsNoFault => "Do you currently accept No-Fault Insurance in your practice as a form of payment?"
    case AskOutstandingAmount => "What is your estimate of the dollar amount outstanding to date in wrongly denied no fault benefits?"
    case TransferNoFault => "Thank you for that information. Let me transfer you to one of our attorneys who specializes in no-fault collection cases. They'll be able to help you with the next steps."
  }

  // ---------------------------------------------------------------------------
  // One turn of the dialogue

  /** The next session and the reply of the dialogue rule that applied, or `None` when
      no rule produced one and the reply is left to the FAQ fallback. */
  datatype Turn = Turn(next: Session, reply: Option<Reply>)

  /** One utterance's dialogue rule applied to a session, as a value: the next session
      and the rule's reply, if it gives one. */
  function Step(s: Session, userInput: string): (t: Turn)
    ensures t.next.state != InitialGreeting
  {
    var info := s.info;
    match s.state
    case InitialGreeting =>
      var caseType := IdentifyCaseType(userInput);
      if caseType == PersonalInjury then
        if AnyOccurs(MentionKeywords, Lower(userInput)) then
          Turn(Session(CollectingInfo, info[CaseTypeSlot := CaseLabel(PersonalInjury)]), Some(ConfirmPersonalInjury))
        else
          Turn(Session(IdentifyingCaller, info), Some(AskMatter))
      else if caseType == NoFault then
        Turn(Session(CollectingInfo, info[CaseTypeSlot := CaseLabel(NoFault)]), Some(NoFaultIntro))
      else if caseType == OutsidePractice then
        Turn(Session(OutsidePracticeArea, info), Some(OutsidePracticeReply))
      else
        Turn(Session(IdentifyingCaller, info), Some(AskMatter))
    case CollectingInfo =>
      if CaseTypeSlot !in info then
        var caseType := IdentifyCaseType(userInput);
        var info' := info[CaseTypeSlot := CaseLabel(caseType)];
        if caseType == PersonalInjury then Turn(Session(CollectingInfo, info'), Some(AskName))
        else if caseType == NoFault then Turn(Session(CollectingInfo, info'), Some(AskPracticeName))
        else if caseType == OutsidePractice then Turn(Session(OutsidePracticeArea, info'), Some(OutsidePracticeReply))
        else Turn(Session(CollectingInfo, info'), None)
      else if Name !in info then
        Turn(Session(CollectingInfo, info[Name := userInput]), Some(ConfirmPhone))
      else if PhoneConfirmed !in info then
        var info' := info[PhoneConfirmed := userInput];
        if info[CaseTypeSlot] == CaseLabel(PersonalInjury) then
          Turn(Session(QualifyingPersonalInjury, info'), Some(AskSituation))
        else if info[CaseTypeSlot] == CaseLabel(NoFault) then
          Turn(Session(QualifyingNoFault, info'), Some(AskProviderType))
        else
          Turn(Session(CollectingInfo, info'), None)
      else
        Turn(s, None)
    case QualifyingPersonalInjury =>
      if Situation !in info then
        Turn(Session(QualifyingPersonalInjury, info[Situation := userInput]), Some(AskLocationTime))
      else if LocationTime !in info then
        Turn(Session(QualifyingPersonalInjury, info[LocationTime := userInput]), Some(AskInjuries))
      else if Injuries !in info then
        if AnyOccurs(InjuryKeywords, Lower(userInput)) then
          Turn(Session(QualifiedReadyTransfer, info[Injuries := userInput]), Some(TransferPersonalInjury))
        else
          Turn(Session(NotQualified, info[Injuries := userInput]), Some(NotQualifiedReply))
      else
        Turn(s, None)
    case QualifyingNoFault =>
      if ProviderType !in info then
        Turn(Session(QualifyingNoFault, info[ProviderType := userInput]), Some(AskAcceptsNoFault))
      else if AcceptsNoFault !in info then
        Turn(Session(QualifyingNoFault, info[AcceptsNoFault := userInput]), Some(AskOutstandingAmount))
      else if OutstandingAmount !in info then
        Turn(Session(QualifiedReadyTransfer, info[OutstandingAmount := userInput]), Some(TransferNoFault))
      else
        Turn(s, None)
    case IdentifyingCaller => Turn(s, None)
    case QualifiedReadyTransfer => Turn(s, None)
    case NotQualified => Turn(s, None)
    case OutsidePracticeArea => Turn(s, None)
  }

  /** The (not yet enhanced) reply to one utterance: the rule's reply, or else the answer
      of the first FAQ question the lower-cased utterance contains, or else the default. */
  function Respond(s: Session, userInput: string): string {
    match Step(s, userInput).reply
    case Some(r) => Wording(r)
    case None => KnowledgeBase.Fallback(Lower(userInput))
  }

  /** Which of a track's slots the first `n` are. */
  lemma {:induction false} FirstSlotsMembership(ct: CaseType, n: nat)
    requires IsTrack(ct) && n <= 6
    ensures forall m :: 0 <= m < 6 ==> (SlotOrder(ct)[m] in FirstSlots(ct, n) <==> m < n)
    ensures forall x :: x in FirstSlots(ct, n) ==> x in SlotOrder(ct)
  {
    if n > 0 {
      FirstSlotsMembership(ct, n - 1);
    }
  }

  /** A record determines its track and how many slots are filled. */
  lemma FilledToUnique(info: Info, ct: CaseType, n: nat, ct': CaseType, n': nat)
    requires FilledTo(info, ct, n) && FilledTo(info, ct', n')
    ensures ct == ct' && n == n'
  {
    FirstSlotsMembership(ct, n);
    FirstSlotsMembership(ct', n');
  }

  /** Adding a track's next slot to a record of its first `n`. */
  lemma FillNext(info: Info, ct: CaseType, n: nat, v: string)
    requires FilledTo(info, ct, n) && n < 6
    ensures SlotOrder(ct)[n] !in info
    ensures forall m :: 0 <= m < 6 ==> (SlotOrder(ct)[m] in info <==> m < n)
    ensures FilledTo(info[SlotOrder(ct)[n] := v], ct, n + 1)
  {
    FirstSlotsMembership(ct, n);
  }

  lemma CollectingFillsNext(s: Session, userInput: string, ct: CaseType, n: nat)
    requires s.state == CollectingInfo && SessionOk(s) && FilledTo(s.info, ct, n)
    ensures n < 6
    ensures Step(s, userInput).next.info == s.info[SlotOrder(ct)[n] := userInput]
    ensures Step(s, userInput).next.state ==
              if n == 1 then CollectingInfo
              else if ct == PersonalInjury then QualifyingPersonalInjury
              else QualifyingNoFault
  {
    if FilledTo(s.info, PersonalInjury, 1) { FilledToUnique(s.info, ct, n, PersonalInjury, 1); }
    else if FilledTo(s.info, PersonalInjury, 2) { FilledToUnique(s.info, ct, n, PersonalInjury, 2); }
    else if FilledTo(s.info, NoFault, 1) { FilledToUnique(s.info, ct, n, NoFault, 1); }
    else { FilledToUnique(s.info, ct, n, NoFault, 2); }
    FillNext(s.info, ct, n, userInput);
  }

  lemma QualifyingPersonalInjuryFillsNext(s: Session, userInput: string, n: nat)
    requires s.state == QualifyingPersonalInjury && SessionOk(s) && FilledTo(s.info, PersonalInjury, n)
    ensures 3 <= n < 6
    ensures Step(s, userInput).next.info == s.info[SlotOrder(PersonalInjury)[n] := userInput]
    ensures Step(s, userInput).next.state ==
              if n < 5 then QualifyingPersonalInjury
              else if AnyOccurs(InjuryKeywords, Lower(userInput)) then QualifiedReadyTransfer
              else NotQualified
  {
    var order := SlotOrder(PersonalInjury);
    if FilledTo(s.info, PersonalInjury, 3) { FilledToUnique(s.info, PersonalInjury, n, PersonalInjury, 3); }
    else if FilledTo(s.info, PersonalInjury, 4) { FilledToUnique(s.info, PersonalInjury, n, PersonalInjury, 4); }
    else { FilledToUnique(s.info, PersonalInjury, n, PersonalInjury, 5); }
    FillNext(s.info, PersonalInjury, n, userInput);
    if n == 3 {
      assert order[3] == Situation && Situation !in s.info;
    } else if n == 4 {
      assert order[3] == Situation && Situation in s.info;
      assert order[4] == LocationTime && LocationTime !in s.info;
    } else {
      assert order[3] == Situation && Situation in s.info;
      assert order[4] == LocationTime && LocationTime in s.info;
      assert order[5] == Injuries && Injuries !in s.info;
    }
  }

  lemma QualifyingNoFaultFillsNext(s: Session, userInput: string, n: nat)
    requires s.state == QualifyingNoFault && SessionOk(s) && FilledTo(s.info, NoFault, n)
    ensures 3 <= n < 6
    ensures Step(s, userInput).next.info == s.info[SlotOrder(NoFault)[n] := userInput]
    ensures Step(s, userInput).next.state == if n < 5 then QualifyingNoFault else QualifiedReadyTransfer
  {
    var order := SlotOrder(NoFault);
    if FilledTo(s.info, NoFault, 3) { FilledToUnique(s.info, NoFault, n, NoFault, 3); }
    else if FilledTo(s.info, NoFault, 4) { FilledToUnique(s.info, NoFault, n, NoFault, 4); }
    else { FilledToUnique(s.info, NoFault, n, NoFault, 5); }
    FillNext(s.info, NoFault, n, userInput);
    if n == 3 {
      assert order[3] == ProviderType && ProviderType !in s.info;
    } else if n == 4 {
      assert order[3] == ProviderType && ProviderType in s.info;
      assert order[4] == AcceptsNoFault && AcceptsNoFault !in s.info;
    } else {
      assert order[3] == ProviderType && ProviderType in s.info;
      assert order[4] == AcceptsNoFault && AcceptsNoFault in s.info;
      assert order[5] == OutstandingAmount && OutstandingAmount !in s.info;
    }
  }

  /** While slots are being collected, each utterance fills the next slot of the call's
      track with the caller's words, in the track's fixed order (personal injury: case
      type, name, phone confirmed, situation, location and time, injuries; no-fault:
      case type, name, phone confirmed, provider type, accepts no-fault, outstanding
      amount), and nothing else. */
  lemma StepFillsNextSlot(s: Session, userInput: string, ct: CaseType, n: nat)
    requires SessionOk(s) && FilledTo(s.info, ct, n)
    requires s.state == CollectingInfo || s.state == QualifyingPersonalInjury || s.state == QualifyingNoFault
    ensures n < 6
    ensures Step(s, userInput).next.info == s.info[SlotOrder(ct)[n] := userInput]
    ensures FilledTo(Step(s, userInput).next.info, ct, n + 1)
  {
    if s.state == CollectingInfo {
      CollectingFillsNext(s, userInput, ct, n);
    } else if s.state == QualifyingPersonalInjury {
      FilledToUnique(s.info, ct, n, PersonalInjury, n);
      QualifyingPersonalInjuryFillsNext(s, userInput, n);
    } else {
      FilledToUnique(s.info, ct, n, NoFault, n);
      QualifyingNoFaultFillsNext(s, userInput, n);
    }
    FillNext(s.info, ct, n, userInput);
  }

  /** Every reachable session stays reachable. */
  lemma StepKeepsSessionOk(s: Session, userInput: string)
    requires SessionOk(s)
    ensures SessionOk(Step(s, userInput).next)
  {
    match s.state
    case InitialGreeting => GreetingStepOk(s, userInput);
    case CollectingInfo => CollectingStepOk(s, userInput);
    case QualifyingPersonalInjury => QualifyingPersonalInjuryStepOk(s, userInput);
    case QualifyingNoFault => QualifyingNoFaultStepOk(s, userInput);
    case IdentifyingCaller =>
    case QualifiedReadyTransfer =>
    case NotQualified =>
    case OutsidePracticeArea =>
  }

  lemma GreetingStepOk(s: Session, userInput: string)
    requires s.state == InitialGreeting && SessionOk(s)
    ensures SessionOk(Step(s, userInput).next)
  {
    assert s == Fresh;
    if AnyOccurs(MentionKeywords, Lower(userInput)) {
      PersonalInjuryOpening(userInput);
      TrackRecordedOk(PersonalInjury);
    } else if IdentifyCaseType(userInput) == NoFault {
      NoFaultOpening(userInput);
      TrackRecordedOk(NoFault);
    } else {
      LeavesInitialGreeting(userInput);
    }
  }

  /** Collecting information with only the track recorded is a reachable session. */
  lemma TrackRecordedOk(ct: CaseType)
    requires IsTrack(ct)
    ensures SessionOk(Session(CollectingInfo, map[CaseTypeSlot := CaseLabel(ct)]))
  {
    FirstSlotsMembership(ct, 1);
    assert FilledTo(map[CaseTypeSlot := CaseLabel(ct)], ct, 1);
  }

  lemma CollectingStepOk(s: Session, userInput: string)
    requires s.state == CollectingInfo && SessionOk(s)
    ensures SessionOk(Step(s, userInput).next)
    ensures Extends(s.info, Step(s, userInput).next.info)
    ensures |Step(s, userInput).next.info| == |s.info| + 1
  {
    var ct := if FilledTo(s.info, PersonalInjury, 1) || FilledTo(s.info, PersonalInjury, 2)
              then PersonalInjury else NoFault;
    var n := if FilledTo(s.info, ct, 1) then 1 else 2;
    CollectingFillsNext(s, userInput, ct, n);
    FillNext(s.info, ct, n, userInput);
  }

  lemma QualifyingPersonalInjuryStepOk(s: Session, userInput: string)
    requires s.state == QualifyingPersonalInjury && SessionOk(s)
    ensures SessionOk(Step(s, userInput).next)
    ensures Extends(s.info, Step(s, userInput).next.info)
    ensures |Step(s, userInput).next.info| == |s.info| + 1
  {
    var n := if FilledTo(s.info, PersonalInjury, 3) then 3
             else if FilledTo(s.info, PersonalInjury, 4) then 4
             else 5;
    QualifyingPersonalInjuryFillsNext(s, userInput, n);
    FillNext(s.info, PersonalInjury, n, userInput);
  }

  lemma QualifyingNoFaultStepOk(s: Session, userInput: string)
    requires s.state == QualifyingNoFault && SessionOk(s)
    ensures SessionOk(Step(s, userInput).next)
    ensures Extends(s.info, Step(s, userInput).next.info)
    ensures |Step(s, userInput).next.info| == |s.info| + 1
  {
    var n := if FilledTo(s.info, NoFault, 3) then 3
             else if FilledTo(s.info, NoFault, 4) then 4
             else 5;
    QualifyingNoFaultFillsNext(s, userInput, n);
    FillNext(s.info, NoFault, n, userInput);
  }

  /** From the greeting a call always moves on: to identifying the caller, to collecting
      information (exactly when the caller named a personal-injury matter or gave a
      no-fault one, and only then is `case_type` recorded) or to "outside the practice". */
  lemma LeavesInitialGreeting(userInput: string)
    ensures var t := Step(Fresh, userInput);
      && t.next.state in {IdentifyingCaller, CollectingInfo, OutsidePracticeArea}
      && (t.next.state == CollectingInfo <==>
            AnyOccurs(MentionKeywords, Lower(userInput)) || IdentifyCaseType(userInput) == NoFault)
      && (t.next.state == OutsidePracticeArea <==> IdentifyCaseType(userInput) == OutsidePractice)
      && (t.next.state == CollectingInfo ==> t.next.info == map[CaseTypeSlot := CaseLabel(IdentifyCaseType(userInput))])
      && (t.next.state != CollectingInfo ==> t.next.info == map[])
  {
    if AnyOccurs(MentionKeywords, Lower(userInput)) {
      MentionMeansPersonalInjury(userInput);
    }
  }

  /** No slot is ever removed or overwritten, and one utterance adds at most one. */
  lemma StepOnlyAddsSlots(s: Session, userInput: string)
    requires SessionOk(s)
    ensures Extends(s.info, Step(s, userInput).next.info)
    ensures |Step(s, userInput).next.info| <= |s.info| + 1
  {
    match s.state
    case InitialGreeting =>
      assert s == Fresh;
      LeavesInitialGreeting(userInput);
    case CollectingInfo => CollectingStepOk(s, userInput);
    case QualifyingPersonalInjury => QualifyingPersonalInjuryStepOk(s, userInput);
    case QualifyingNoFault => QualifyingNoFaultStepOk(s, userInput);
    case IdentifyingCaller => FallbackStatesOnlyAnswer(s, userInput);
    case QualifiedReadyTransfer => FallbackStatesOnlyAnswer(s, userInput);
    case NotQualified => FallbackStatesOnlyAnswer(s, userInput);
    case OutsidePracticeArea => FallbackStatesOnlyAnswer(s, userInput);
  }

  /** Every key of `a` is in `b` with the same value. */
  ghost predicate Extends(a: Info, b: Info) {
    forall k :: k in a ==> k in b && b[k] == a[k]
  }

  /** Recording the injuries decides the personal-injury outcome: ready for transfer
      exactly when the answer mentions an injury word, otherwise not qualified. */
  lemma InjuriesDecideQualification(s: Session, userInput: string)
    requires s.state == QualifyingPersonalInjury && FilledTo(s.info, PersonalInjury, 5)
    ensures Step(s, userInput).next.state ==
              if AnyOccurs(InjuryKeywords, Lower(userInput)) then QualifiedReadyTransfer else NotQualified
    ensures Step(s, userInput).next.info == s.info[Injuries := userInput]
  {
    QualifyingPersonalInjuryFillsNext(s, userInput, 5);
  }

  /** Recording the outstanding amount always readies a no-fault caller for transfer. */
  lemma OutstandingAmountQualifies(s: Session, userInput: string)
    requires s.state == QualifyingNoFault && FilledTo(s.info, NoFault, 5)
    ensures Step(s, userInput).next.state == QualifiedReadyTransfer
    ensures Step(s, userInput).next.info == s.info[OutstandingAmount := userInput]
  {
    QualifyingNoFaultFillsNext(s, userInput, 5);
  }

  /** In the terminal states, and in "identifying the caller" (for which the dialogue has
      no rule), the session does not change and the reply is the FAQ fallback. */
  lemma FallbackStatesOnlyAnswer(s: Session, userInput: string)
    requires IsTerminal(s.state) || s.state == IdentifyingCaller
    ensures Step(s, userInput) == Turn(s, None)
    ensures Respond(s, userInput) == KnowledgeBase.Fallback(Lower(userInput))
  {
  }

  // ---------------------------------------------------------------------------
  // Successive utterances of one call

  /** The session after a call's utterances, one `Step` each. */
  function Run(s: Session, inputs: seq<string>): Session
    decreases |inputs|
  {
    if |inputs| == 0 then s else Run(Step(s, inputs[0]).next, inputs[1..])
  }

  lemma {:induction false} RunKeepsSessionOk(s: Session, inputs: seq<string>)
    requires SessionOk(s)
    ensures SessionOk(Run(s, inputs))
    decreases |inputs|
  {
    if |inputs| > 0 {
      StepKeepsSessionOk(s, inputs[0]);
      RunKeepsSessionOk(Step(s, inputs[0]).next, inputs[1..]);
    }
  }

  /** Across any number of utterances the slot record only grows, and a recorded slot
      keeps the value it was first given. */
  lemma {:induction false} RunOnlyAddsSlots(s: Session, inputs: seq<string>)
    requires SessionOk(s)
    ensures Extends(s.info, Run(s, inputs).info)
    decreases |inputs|
  {
    if |inputs| > 0 {
      var s' := Step(s, inputs[0]).next;
      StepOnlyAddsSlots(s, inputs[0]);
      StepKeepsSessionOk(s, inputs[0]);
      RunOnlyAddsSlots(s', inputs[1..]);
    }
  }

  /** A session in a terminal state, or in "identifying the caller", never changes again. */
  lemma {:induction false} FallbackStatesAbsorb(s: Session, inputs: seq<string>)
    requires IsTerminal(s.state) || s.state == IdentifyingCaller
    ensures Run(s, inputs) == s
    decreases |inputs|
  {
    if |inputs| > 0 {
      FallbackStatesOnlyAnswer(s, inputs[0]);
      FallbackStatesAbsorb(s, inputs[1..]);
    }
  }

  /** An opening that names a personal-injury matter records the track and nothing else. */
  lemma PersonalInjuryOpening(userInput: string)
    requires AnyOccurs(MentionKeywords, Lower(userInput))
    ensures Step(Fresh, userInput).next == Session(CollectingInfo, map[CaseTypeSlot := CaseLabel(PersonalInjury)])
    ensures FilledTo(Step(Fresh, userInput).next.info, PersonalInjury, 1)
  {
    LeavesInitialGreeting(userInput);
    MentionMeansPersonalInjury(userInput);
    FirstSlotsMembership(PersonalInjury, 1);
  }

  // One turn of a session whose record is a plain map, without the reachability invariant.

  lemma StepRecordsName(m: Info, x: string)
    requires CaseTypeSlot in m && Name !in m
    ensures Step(Session(CollectingInfo, m), x).next == Session(CollectingInfo, m[Name := x])
  {
  }

  lemma StepRecordsPhone(m: Info, x: string, ct: CaseType)
    requires IsTrack(ct) && CaseTypeSlot in m && m[CaseTypeSlot] == CaseLabel(ct)
    requires Name in m && PhoneConfirmed !in m
    ensures Step(Session(CollectingInfo, m), x).next ==
              Session(if ct == PersonalInjury then QualifyingPersonalInjury else QualifyingNoFault,
                      m[PhoneConfirmed := x])
  {
  }

  lemma StepRecordsSituation(m: Info, x: string)
    requires Situation !in m
    ensures Step(Session(QualifyingPersonalInjury, m), x).next == Session(QualifyingPersonalInjury, m[Situation := x])
  {
  }

  lemma StepRecordsLocationTime(m: Info, x: string)
    requires Situation in m && LocationTime !in m
    ensures Step(Session(QualifyingPersonalInjury, m), x).next == Session(QualifyingPersonalInjury, m[LocationTime := x])
  {
  }

  lemma StepRecordsInjuries(m: Info, x: string)
    requires Situation in m && LocationTime in m && Injuries !in m
    ensures Step(Session(QualifyingPersonalInjury, m), x).next ==
              Session(if AnyOccurs(InjuryKeywords, Lower(x)) then QualifiedReadyTransfer else NotQualified,
                      m[Injuries := x])
  {
  }

  lemma StepRecordsProviderType(m: Info, x: string)
    requires ProviderType !in m
    ensures Step(Session(QualifyingNoFault, m), x).next == Session(QualifyingNoFault, m[ProviderType := x])
  {
  }

  lemma StepRecordsAcceptsNoFault(m: Info, x: string)
    requires ProviderType in m && AcceptsNoFault !in m
    ensures Step(Session(QualifyingNoFault, m), x).next == Session(QualifyingNoFault, m[AcceptsNoFault := x])
  {
  }

  lemma StepRecordsOutstandingAmount(m: Info, x: string)
    requires ProviderType in m && AcceptsNoFault in m && OutstandingAmount !in m
    ensures Step(Session(QualifyingNoFault, m), x).next == Session(QualifiedReadyTransfer, m[OutstandingAmount := x])
  {
  }

  /** A complete personal-injury intake, turn by turn: an opening that names the matter
      records the track; then name and phone confirmation are collected, situation,
      location and time, and injuries are asked on the qualifying track, and the
      injuries answer decides between transfer and "not qualified". */
  lemma PersonalInjuryIntake(u: seq<string>)
    requires |u| == 6 && AnyOccurs(MentionKeywords, Lower(u[0]))
    ensures var i1 := map[CaseTypeSlot := CaseLabel(PersonalInjury)];
            var i2 := i1[Name := u[1]];
            var i3 := i2[PhoneConfirmed := u[2]];
            var i4 := i3[Situation := u[3]];
            var i5 := i4[LocationTime := u[4]];
            && Step(Fresh, u[0]).next == Session(CollectingInfo, i1)
            && Step(Session(CollectingInfo, i1), u[1]).next == Session(CollectingInfo, i2)
            && Step(Session(CollectingInfo, i2), u[2]).next == Session(QualifyingPersonalInjury, i3)
            && Step(Session(QualifyingPersonalInjury, i3), u[3]).next == Session(QualifyingPersonalInjury, i4)
            && Step(Session(QualifyingPersonalInjury, i4), u[4]).next == Session(QualifyingPersonalInjury, i5)
            && Step(Session(QualifyingPersonalInjury, i5), u[5]).next == Session(
                 if AnyOccurs(InjuryKeywords, Lower(u[5])) then QualifiedReadyTransfer else NotQualified,
                 i5[Injuries := u[5]])
  {
    var i1 := map[CaseTypeSlot := CaseLabel(PersonalInjury)];
    var i2 := i1[Name := u[1]];
    var i3 := i2[PhoneConfirmed := u[2]];
    var i4 := i3[Situation := u[3]];
    PersonalInjuryOpening(u[0]);
    StepRecordsName(i1, u[1]);
    StepRecordsPhone(i2, u[2], PersonalInjury);
    StepRecordsSituation(i3, u[3]);
    StepRecordsLocationTime(i4, u[4]);
    StepRecordsInjuries(i4[LocationTime := u[4]], u[5]);
  }

  /** An opening the classifier files as no-fault records the track and nothing else. */
  lemma NoFaultOpening(userInput: string)
    requires IdentifyCaseType(userInput) == NoFault
    ensures Step(Fresh, userInput).next == Session(CollectingInfo, map[CaseTypeSlot := CaseLabel(NoFault)])
  {
  }

  /** A complete no-fault intake, turn by turn: an opening filed as no-fault records the
      track; then name, phone confirmation, provider type, acceptance of no-fault
      insurance and the outstanding amount are recorded in that order, and the caller
      is then ready for transfer whatever the answers were. */
  lemma NoFaultIntake(u: seq<string>)
    requires |u| == 6 && IdentifyCaseType(u[0]) == NoFault
    ensures var i1 := map[CaseTypeSlot := CaseLabel(NoFault)];
            var i2 := i1[Name := u[1]];
            var i3 := i2[PhoneConfirmed := u[2]];
            var i4 := i3[ProviderType := u[3]];
            var i5 := i4[AcceptsNoFault := u[4]];
            && Step(Fresh, u[0]).next == Session(CollectingInfo, i1)
            && Step(Session(CollectingInfo, i1), u[1]).next == Session(CollectingInfo, i2)
            && Step(Session(CollectingInfo, i2), u[2]).next == Session(QualifyingNoFault, i3)
            && Step(Session(QualifyingNoFault, i3), u[3]).next == Session(QualifyingNoFault, i4)
            && Step(Session(QualifyingNoFault, i4), u[4]).next == Session(QualifyingNoFault, i5)
            && Step(Session(QualifyingNoFault, i5), u[5]).next == Session(QualifiedReadyTransfer,
                                                                           i5[OutstandingAmount := u[5]])
  {
    var i1 := map[CaseTypeSlot := CaseLabel(NoFault)];
    var i2 := i1[Name := u[1]];
    var i3 := i2[PhoneConfirmed := u[2]];
    var i4 := i3[ProviderType := u[3]];
    NoFaultOpening(u[0]);
    StepRecordsName(i1, u[1]);
    StepRecordsPhone(i2, u[2], NoFault);
    StepRecordsProviderType(i3, u[3]);
    StepRecordsAcceptsNoFault(i4, u[4]);
    StepRecordsOutstandingAmount(i4[AcceptsNoFault := u[4]], u[5]);
  }

  // ---------------------------------------------------------------------------
  // The per-call dialogue state

  /** The per-call maps of the dialogue know the same calls, and each call's session
      is one the dialogue can reach. */
  ghost predicate SessionsOk(states: map<string, State>, infos: map<string, Info>) {
    && states.Keys == infos.Keys
    && forall id :: id in states ==> SessionOk(Session(states[id], infos[id]))
  }

  /** The session a call starts a turn in, stored or fresh, is reachable. */
  lemma StoredSessionOk(states: map<string, State>, infos: map<string, Info>, callId: string)
    requires SessionsOk(states, infos)
    ensures callId in states ==> SessionOk(Session(states[callId], infos[callId]))
    ensures SessionOk(Fresh)
  {
  }

  /** Storing a reachable session for one call keeps every call's session reachable. */
  lemma UpdateKeepsSessionsOk(states: map<string, State>, infos: map<string, Info>, callId: string, n: Session)
    requires SessionsOk(states, infos) && SessionOk(n)
    ensures SessionsOk(states[callId := n.state], infos[callId := n.info])
  {
  }

  /** Storing a key's own value again changes nothing. */
  lemma UpdateSame<V>(m: map<string, V>, k: string)
    requires k in m
    ensures m[k := m[k]] == m
  {
  }

  /** Storing a value under a key that `created` either had already (as in `m`) or
      received only a placeholder for is the same as storing it in `m`. */
  lemma UpdateOverwrites<V>(m: map<string, V>, created: map<string, V>, k: string, placeholder: V, v: V)
    requires created == m || created == m[k := placeholder]
    ensures created[k := v] == m[k := v]
  {
  }

  /** The dialogue manager: the state and the slot record of every call it has seen,
      keyed by call id. */
  class ConversationFlow {
    var currentState: map<string, State>
    var collectedInfo: map<string, Info>

    /** Both maps know the same calls, and every call's session is reachable. */
    ghost predicate Valid()
      reads this
    {
      SessionsOk(currentState, collectedInfo)
    }

    constructor ()
      ensures Valid()
      ensures currentState == map[] && collectedInfo == map[]
    {
      currentState := map[];
      collectedInfo := map[];
    }

    /** The session of a call; a call not seen yet starts fresh. */
    function SessionOf(callId: string): Session
      reads this
    {
      if callId in currentState && callId in collectedInfo
      then Session(currentState[callId], collectedInfo[callId])
      else Fresh
    }

    method GetInitialGreeting() returns (greeting: string)
      ensures greeting == Greeting
    {
      greeting := Greeting;
    }

    /** One caller utterance: the call's session (created fresh on first contact) takes
        one dialogue step, no other call is touched, and the reply is the rule's reply or
        else the FAQ answer or the default. */
    method GetNextResponse(userInput: string, callId: string) returns (reply: string)
      requires Valid()
      modifies this
      ensures Valid()
      ensures currentState == old(currentState)[callId := Step(old(SessionOf(callId)), userInput).next.state]
      ensures collectedInfo == old(collectedInfo)[callId := Step(old(SessionOf(callId)), userInput).next.info]
      ensures reply == Respond(old(SessionOf(callId)), userInput)
    {
      ghost var s := SessionOf(callId);
      ghost var t := Step(s, userInput);
      ghost var states, infos := currentState, collectedInfo;
      if callId !in currentState {
        currentState := currentState[callId := InitialGreeting];
        collectedInfo := collectedInfo[callId := map[]];
      }
      assert SessionOf(callId) == s;
      ghost var created, createdInfo := currentState, collectedInfo;
      StoredSessionOk(states, infos, callId);
      StepKeepsSessionOk(s, userInput);

      var state := currentState[callId];
      var ruleReply: Option<Reply>;
      if state == InitialGreeting {
        ruleReply := GreetingRule(userInput, callId);
        UpdateOverwrites(states, created, callId, InitialGreeting, t.next.state);
        UpdateOverwrites(infos, createdInfo, callId, map[], t.next.info);
      } else if state == CollectingInfo {
        ruleReply := CollectingRule(userInput, callId);
        UpdateOverwrites(states, created, callId, InitialGreeting, t.next.state);
        UpdateOverwrites(infos, createdInfo, callId, map[], t.next.info);
      } else if state == QualifyingPersonalInjury {
        ruleReply := QualifyingPersonalInjuryRule(userInput, callId);
        UpdateOverwrites(states, created, callId, InitialGreeting, t.next.state);
        UpdateOverwrites(infos, createdInfo, callId, map[], t.next.info);
      } else if state == QualifyingNoFault {
        ruleReply := QualifyingNoFaultRule(userInput, callId);
        UpdateOverwrites(states, created, callId, InitialGreeting, t.next.state);
        UpdateOverwrites(infos, createdInfo, callId, map[], t.next.info);
      } else {
        FallbackStatesOnlyAnswer(s, userInput);
        ruleReply := None;
        UpdateSame(states, callId);
        UpdateSame(infos, callId);
      }
      UpdateKeepsSessionsOk(states, infos, callId, t.next);

      match ruleReply
      case Some(r) => reply := Wording(r);
      case None => reply := KnowledgeBase.FindAnswer(Lower(userInput));
    }

    /** The rules of the greeting state; they always move the call on. This is a step
        inside GetNextResponse, which keeps Valid() around it. */
    method GreetingRule(userInput: string, callId: string) returns (ruleReply: Option<Reply>)
      requires callId in currentState && callId in collectedInfo && currentState[callId] == InitialGreeting
      modifies this
      ensures currentState == old(currentState)[callId := Step(old(SessionOf(callId)), userInput).next.state]
      ensures collectedInfo == old(collectedInfo)[callId := Step(old(SessionOf(callId)), userInput).next.info]
      ensures ruleReply == Step(old(SessionOf(callId)), userInput).reply
    {
      var state := IdentifyingCaller;
      var info := collectedInfo[callId];
      var caseType := IdentifyCaseType(userInput);
      if caseType == PersonalInjury {
        if AnyOccurs(MentionKeywords, Lower(userInput)) {
          state := CollectingInfo;
          info := info[CaseTypeSlot := CaseLabel(PersonalInjury)];
          ruleReply := Some(ConfirmPersonalInjury);
        } else {
          ruleReply := Some(AskMatter);
        }
      } else if caseType == NoFault {
        state := CollectingInfo;
        info := info[CaseTypeSlot := CaseLabel(NoFault)];
        ruleReply := Some(NoFaultIntro);
      } else if caseType == OutsidePractice {
        state := OutsidePracticeArea;
        ruleReply := Some(OutsidePracticeReply);
      } else {
        ruleReply := Some(AskMatter);
      }
      assert Step(SessionOf(callId), userInput) == Turn(Session(state, info), ruleReply);
      currentState := currentState[callId := state];
      collectedInfo := collectedInfo[callId := info];
    }

    /** The rules of the collecting state: case type (if missing), name, then phone
        confirmation, which moves the call to its track's qualifying questions. This is
        a step inside GetNextResponse, which keeps Valid() around it. */
    method CollectingRule(userInput: string, callId: string) returns (ruleReply: Option<Reply>)
      requires callId in currentState && callId in collectedInfo && currentState[callId] == CollectingInfo
      modifies this
      ensures currentState == old(currentState)[callId := Step(old(SessionOf(callId)), userInput).next.state]
      ensures collectedInfo == old(collectedInfo)[callId := Step(old(SessionOf(callId)), userInput).next.info]
      ensures ruleReply == Step(old(SessionOf(callId)), userInput).reply
    {
      var state := CollectingInfo;
      var info := collectedInfo[callId];
      ruleReply := None;
      if CaseTypeSlot !in info {
        var caseType := IdentifyCaseType(userInput);
        info := info[CaseTypeSlot := CaseLabel(caseType)];
        if caseType == PersonalInjury {
          ruleReply := Some(AskName);
        } else if caseType == NoFault {
          ruleReply := Some(AskPracticeName);
        } else if caseType == OutsidePractice {
          state := OutsidePracticeArea;
          ruleReply := Some(OutsidePracticeReply);
        }
      } else if Name !in info {
        info := info[Name := userInput];
        ruleReply := Some(ConfirmPhone);
      } else if PhoneConfirmed !in info {
        var caseType := info[CaseTypeSlot];
        info := info[PhoneConfirmed := userInput];
        if caseType == CaseLabel(PersonalInjury) {
          state := QualifyingPersonalInjury;
          ruleReply := Some(AskSituation);
        } else if caseType == CaseLabel(NoFault) {
          state := QualifyingNoFault;
          ruleReply := Some(AskProviderType);
        }
      }
      assert Step(SessionOf(callId), userInput) == Turn(Session(state, info), ruleReply);
      currentState := currentState[callId := state];
      collectedInfo := collectedInfo[callId := info];
    }

    /** The rules of the personal-injury qualifying state: situation, location and time,
        then injuries, which decide the outcome. This is a step inside GetNextResponse,
        which keeps Valid() around it. */
    method QualifyingPersonalInjuryRule(userInput: string, callId: string) returns (ruleReply: Option<Reply>)
      requires callId in currentState && callId in collectedInfo && currentState[callId] == QualifyingPersonalInjury
      modifies this
      ensures currentState == old(currentState)[callId := Step(old(SessionOf(callId)), userInput).next.state]
      ensures collectedInfo == old(collectedInfo)[callId := Step(old(SessionOf(callId)), userInput).next.info]
      ensures ruleReply == Step(old(SessionOf(callId)), userInput).reply
    {
      var state := QualifyingPersonalInjury;
      var info := collectedInfo[callId];
      ruleReply := None;
      if Situation !in info {
        info := info[Situation := userInput];
        ruleReply := Some(AskLocationTime);
      } else if LocationTime !in info {
        info := info[LocationTime := userInput];
        ruleReply := Some(AskInjuries);
      } else if Injuries !in info {
        info := info[Injuries := userInput];
        if AnyOccurs(InjuryKeywords, Lower(userInput)) {
          state := QualifiedReadyTransfer;
          ruleReply := Some(TransferPersonalInjury);
        } else {
          state := NotQualified;
          ruleReply := Some(NotQualifiedReply);
        }
      }
      assert Step(SessionOf(callId), userInput) == Turn(Session(state, info), ruleReply);
      currentState := currentState[callId := state];
      collectedInfo := collectedInfo[callId := info];
    }

    /** The rules of the no-fault qualifying state: provider type, acceptance of no-fault
        insurance, then the outstanding amount, which readies the call for transfer. This
        is a step inside GetNextResponse, which keeps Valid() around it. */
    method QualifyingNoFaultRule(userInput: string, callId: string) returns (ruleReply: Option<Reply>)
      requires callId in currentState && callId in collectedInfo && currentState[callId] == QualifyingNoFault
      modifies this
      ensures currentState == old(currentState)[callId := Step(old(SessionOf(callId)), userInput).next.state]
      ensures collectedInfo == old(collectedInfo)[callId := Step(old(SessionOf(callId)), userInput).next.info]
      ensures ruleReply == Step(old(SessionOf(callId)), userInput).reply
    {
      var state := QualifyingNoFault;
      var info := collectedInfo[callId];
      ruleReply := None;
      if ProviderType !in info {
        info := info[ProviderType := userInput];
        ruleReply := Some(AskAcceptsNoFault);
      } else if AcceptsNoFault !in info {
        info := info[AcceptsNoFault := userInput];
        ruleReply := Some(AskOutstandingAmount);
      } else if OutstandingAmount !in info {
        info := info[OutstandingAmount := userInput];
        state := QualifiedReadyTransfer;
        ruleReply := Some(TransferNoFault);
      }
      assert Step(SessionOf(callId), userInput) == Turn(Session(state, info), ruleReply);
      currentState := currentState[callId := state];
      collectedInfo := collectedInfo[callId := info];
    }
  }
}
