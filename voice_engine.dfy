/** The voice-presence engine: the recent-context summary of a transcript, the emotion
    detector, the emotional-intelligence wrapper, and the pipeline that turns the
    dialogue's reply into the spoken reply. */
module VoiceEngine {
  import opened Wrappers
  import opened Text
  import opened Flow
  import Personality

  // ---------------------------------------------------------------------------
  // Transcript messages and the recent context

  /** One message of a transcript; `content` is `None` when the message has no
      "content" key, which retell_bridge.py reads as the empty string. */
  datatype Message = Message(role: string, content: Option<string>)

  function ContentOf(m: Message): string {
    match m.content
    case Some(c) => c
    case None => ""
  }

  function Contents(msgs: seq<Message>): (r: seq<string>)
    ensures |r| == |msgs|
    ensures forall i :: 0 <= i < |msgs| ==> r[i] == ContentOf(msgs[i])
  {
    seq(|msgs|, i requires 0 <= i < |msgs| => ContentOf(msgs[i]))
  }

  /** The contents of the last two messages (or fewer), joined by a space. */
  function RecentContent(context: seq<Message>): string {
    Join(" ", Contents(LastN(context, 2)))
  }

  /** A word in either of the last two messages is seen in the recent context. */
  lemma RecentContentSeesLastTwo(context: seq<Message>, k: nat, w: string)
    requires |context| - 2 <= k < |context|
    requires Contains(ContentOf(context[k]), w)
    ensures Contains(RecentContent(context), w)
  {
    var recent := LastN(context, 2);
    var i := k - (|context| - |recent|);
    assert recent[i] == context[k];
    JoinContainsParts(" ", Contents(recent), i, w);
  }

  /** Messages older than the last two play no part in the recent context. */
  lemma RecentContentIgnoresOlder(older: seq<Message>, recent: seq<Message>)
    requires |recent| >= 2
    ensures RecentContent(older + recent) == RecentContent(recent)
  {
    assert LastN(older + recent, 2) == LastN(recent, 2);
  }

  // ---------------------------------------------------------------------------
  // Emotions

  datatype Emotion = Trauma | Frustration | Confusion | Urgency

  /** The position of each emotion in the order the detector tests them, which is
      also the order in which the wrapper gives them precedence. */
  function Rank(e: Emotion): (n: nat)
    ensures n < 4
  {
    match e
    case Trauma => 0
    case Frustration => 1
    case Confusion => 2
    case Urgency => 3
  }

  /** The emotions in the order the detector tests them. */
  const Priority: seq<Emotion> := [Trauma, Frustration, Confusion, Urgency]

  /** The words whose presence shows each emotion. */
  function EmotionWords(e: Emotion): seq<string> {
    match e
    case Trauma => ["accident", "injured", "scared", "traumatic", "hospital", "emergency"]
    case Frustration => ["frustrated", "angry", "denied", "refused", "unfair", "ridiculous"]
    case Confusion => ["confused", "understand", "explain", "what", "how", "why"]
    case Urgency => ["urgent", "quickly", "asap", "immediately", "deadline", "statute"]
  }

  /** Some word of the emotion's list occurs in the already lower-cased content. */
  predicate ShowsIn(e: Emotion, contentLower: string) {
    AnyOccurs(EmotionWords(e), contentLower)
  }

  /** Some word of the emotion's list occurs in the lower-cased content. */
  predicate Shows(e: Emotion, content: string) {
    ShowsIn(e, Lower(content))
  }

  /** The emotions of `es` that the content shows, in their order in `es`. */
  function ShownAmong(es: seq<Emotion>, content: string): seq<Emotion>
    decreases |es|
  {
    if |es| == 0 then []
    else
      var last := es[|es| - 1];
      ShownAmong(es[..|es| - 1], content) + (if Shows(last, content) then [last] else [])
  }

  predicate RankIncreasing(es: seq<Emotion>) {
    forall i, j :: 0 <= i < j < |es| ==> Rank(es[i]) < Rank(es[j])
  }

  /** Filtering a list ordered by rank keeps exactly the shown emotions, in rank order. */
  lemma {:induction false} ShownAmongOrdered(es: seq<Emotion>, content: string)
    requires RankIncreasing(es)
    ensures forall e :: e in ShownAmong(es, content) <==> e in es && Shows(e, content)
    ensures RankIncreasing(ShownAmong(es, content))
    decreases |es|
  {
    if |es| > 0 {
      var init, last := es[..|es| - 1], es[|es| - 1];
      assert RankIncreasing(init);
      ShownAmongOrdered(init, content);
      var shown := ShownAmong(init, content);
      var tail := if Shows(last, content) then [last] else [];
      assert ShownAmong(es, content) == shown + tail;
      assert es == init + [last];
      forall e | e in shown ensures Rank(e) < Rank(last) {
        var i :| 0 <= i < |init| && init[i] == e;
      }
    }
  }

  /** In a rank-increasing list each entry's rank is at least its index. */
  lemma {:induction false} RankAtLeastIndex(es: seq<Emotion>, i: nat)
    requires RankIncreasing(es) && i < |es|
    ensures Rank(es[i]) >= i
    decreases i
  {
    if i > 0 {
      RankAtLeastIndex(es, i - 1);
    }
  }

  /** The emotions the content shows: each listed exactly when a word of its list
      occurs, in the order trauma, frustration, confusion, urgency, none twice. */
  function DetectedEmotions(content: string): (r: seq<Emotion>)
    ensures forall e :: e in r <==> Shows(e, content)
    ensures RankIncreasing(r)
    ensures |r| <= 4
  {
    ShownAmongOrdered(Priority, content);
    assert forall e :: e in Priority by {
      forall e ensures e in Priority {
        assert Priority[Rank(e)] == e;
      }
    }
    var r := ShownAmong(Priority, content);
    if |r| > 0 then RankAtLeastIndex(r, |r| - 1); r else r
  }

  /** The detector as the engine runs it: each list is tested in turn and its emotion
      appended to the result when one of its words occurs. */
  method DetectEmotions(content: string) returns (emotions: seq<Emotion>)
    ensures emotions == DetectedEmotions(content)
  {
    emotions := [];
    var contentLower := Lower(content);
    if ShowsIn(Trauma, contentLower) {
      emotions := emotions + [Trauma];
    }
    assert Priority[..1][..0] == [];
    assert emotions == ShownAmong(Priority[..1], content);
    if ShowsIn(Frustration, contentLower) {
      emotions := emotions + [Frustration];
    }
    assert Priority[..2][..1] == Priority[..1];
    assert emotions == ShownAmong(Priority[..2], content);
    if ShowsIn(Confusion, contentLower) {
      emotions := emotions + [Confusion];
    }
    assert Priority[..3][..2] == Priority[..2];
    assert emotions == ShownAmong(Priority[..3], content);
    if ShowsIn(Urgency, contentLower) {
      emotions := emotions + [Urgency];
    }
    assert Priority[..3] == Priority[..|Priority| - 1];
  }

  // ---------------------------------------------------------------------------
  // Emotional intelligence

  function Opening(e: Emotion): (s: string)
    ensures |s| > 0
  {
    match e
    case Trauma => "I can hear this has been really difficult for you... "
    case Frustration => "I understand your frustration... "
    case Confusion => "Let me help clarify this for you. "
    case Urgency => "I understand this is urgent for you. "
  }

  function Closing(e: Emotion): string {
    match e
    case Trauma => " Take your time, there's no rush."
    case Frustration => " We're here to help make this easier for you."
    case Confusion => " Does that make more sense?"
    case Urgency => " We'll move as quickly as we can."
  }

  /** The text between the emotion's opening and closing sentences. */
  function Wrap(e: Emotion, text: string): (r: string)
    ensures |r| == |Opening(e)| + |text| + |Closing(e)| > |text|
    ensures r[|Opening(e)|..|Opening(e)| + |text|] == text
  {
    Opening(e) + text + Closing(e)
  }

  /** The wrapper chosen from detected emotions: trauma before frustration before
      confusion before urgency; with none of them the text stays as it is. */
  function WrapByPrecedence(emotions: seq<Emotion>, text: string): string {
    if Trauma in emotions then Wrap(Trauma, text)
    else if Frustration in emotions then Wrap(Frustration, text)
    else if Confusion in emotions then Wrap(Confusion, text)
    else if Urgency in emotions then Wrap(Urgency, text)
    else text
  }

  /** The first entry of a rank-increasing list has the least rank in it. */
  lemma FirstHasLeastRank(es: seq<Emotion>, e: Emotion)
    requires RankIncreasing(es) && e in es
    ensures Rank(es[0]) <= Rank(e)
  {
    var j :| 0 <= j < |es| && es[j] == e;
  }

  /** On a list in detection order the precedence chain wraps for the first emotion
      listed, and for none when the list is empty. */
  lemma {:induction false} PrecedencePicksFirst(emotions: seq<Emotion>, text: string)
    requires RankIncreasing(emotions)
    ensures |emotions| == 0 ==> WrapByPrecedence(emotions, text) == text
    ensures |emotions| > 0 ==> WrapByPrecedence(emotions, text) == Wrap(emotions[0], text)
  {
    if |emotions| > 0 {
      var first := emotions[0];
      if Trauma in emotions {
        FirstHasLeastRank(emotions, Trauma);
      } else if Frustration in emotions {
        FirstHasLeastRank(emotions, Frustration);
      } else if Confusion in emotions {
        FirstHasLeastRank(emotions, Confusion);
      } else {
        assert first in emotions;
      }
    }
  }

  /** The emotional-intelligence pass: with no context the text is returned as it is;
      otherwise the emotions of the last two messages are detected and the text is
      wrapped by precedence. */
  function AddEmotionalIntelligence(text: string, context: seq<Message>): string {
    if |context| == 0 then text
    else WrapByPrecedence(DetectedEmotions(RecentContent(context)), text)
  }

  /** The pass applies at most one wrapper, and it is the one of the first emotion the
      detector lists; the text is unchanged exactly when there is no context or no
      emotion in it. */
  lemma EmotionalIntelligenceWrapsOnce(text: string, context: seq<Message>)
    ensures |context| == 0 ==> AddEmotionalIntelligence(text, context) == text
    ensures |context| > 0 && |DetectedEmotions(RecentContent(context))| > 0 ==>
              AddEmotionalIntelligence(text, context) == Wrap(DetectedEmotions(RecentContent(context))[0], text)
    ensures AddEmotionalIntelligence(text, context) == text <==>
              |context| == 0 || |DetectedEmotions(RecentContent(context))| == 0
  {
    if |context| > 0 {
      PrecedencePicksFirst(DetectedEmotions(RecentContent(context)), text);
    }
  }

  // ---------------------------------------------------------------------------
  // Voice presence

  /** The spoken form of a reply: the conversational markers, then (when there is a
      context) the empathy opener chosen from the recent context, then the
      emotional-intelligence wrapper. `hash` stands for the process's string hash. */
  function EnhanceWithVoicePresence(text: string, context: seq<Message>, hash: string -> int): string {
    var marked := Personality.ConversationalMarkers(text);
    var withEmpathy :=
      if |context| > 0 then Personality.AddEmpathyMarkers(marked, RecentContent(context), hash) else marked;
    AddEmotionalIntelligence(withEmpathy, context)
  }

  /** A string occurs in any string that ends with it. */
  lemma ContainsSuffix(s: string, w: string)
    requires |w| <= |s| && s[|s| - |w|..] == w
    ensures Contains(s, w)
  {
    assert OccursAt(s, w, |s| - |w|);
  }

  /** Whatever occurs in a text occurs in the text wrapped for an emotion. */
  lemma ContainsInWrap(e: Emotion, text: string, w: string)
    requires Contains(text, w)
    ensures Contains(Wrap(e, text), w)
  {
    ContainsInConcat(text, Closing(e), w);
    ContainsInConcat(text + Closing(e), Opening(e), w);
    assert Opening(e) + (text + Closing(e)) == Wrap(e, text);
  }

  /** Without a context only the conversational markers apply, and in every case the
      marked reply is spoken in full, as one piece. */
  lemma VoicePresenceKeepsReply(text: string, context: seq<Message>, hash: string -> int)
    ensures |context| == 0 ==> EnhanceWithVoicePresence(text, context, hash) == Personality.ConversationalMarkers(text)
    ensures Contains(EnhanceWithVoicePresence(text, context, hash), Personality.ConversationalMarkers(text))
  {
    var marked := Personality.ConversationalMarkers(text);
    if |context| == 0 {
      ContainsSuffix(marked, marked);
    } else {
      var withEmpathy := Personality.AddEmpathyMarkers(marked, RecentContent(context), hash);
      ContainsSuffix(withEmpathy, marked);
      EmotionalIntelligenceWrapsOnce(withEmpathy, context);
      var emotions := DetectedEmotions(RecentContent(context));
      if |emotions| > 0 {
        ContainsInWrap(emotions[0], withEmpathy, marked);
      }
    }
  }

  // ---------------------------------------------------------------------------
  // The engine

  /** The engine owns the conversation flow for the process's lifetime. */
  class Engine {
    const flow: ConversationFlow
    const hash: string -> int

    constructor (hash: string -> int)
      ensures fresh(flow) && flow.Valid()
      ensures flow.currentState == map[] && flow.collectedInfo == map[]
      ensures this.hash == hash
    {
      flow := new ConversationFlow();
      this.hash := hash;
    }

    /** The reply to one caller utterance: the call's dialogue takes one step and its
        reply is given voice presence against the earlier transcript. */
    method GenerateResponse(userInput: string, callId: string, history: seq<Message>) returns (spoken: string)
      requires flow.Valid()
      modifies flow
      ensures flow.Valid()
      ensures flow.currentState == old(flow.currentState)[callId := Step(old(flow.SessionOf(callId)), userInput).next.state]
      ensures flow.collectedInfo == old(flow.collectedInfo)[callId := Step(old(flow.SessionOf(callId)), userInput).next.info]
      ensures spoken == EnhanceWithVoicePresence(Respond(old(flow.SessionOf(callId)), userInput), history, hash)
    {
      var baseResponse := flow.GetNextResponse(userInput, callId);
      spoken := EnhanceWithVoicePresence(baseResponse, history, hash);
    }
  }
}
