/** The intake agent as the call bridge drives it: per-call bookkeeping, the handling of
    each kind of request the voice platform sends, and the clean-up when a call ends. */
module Agent {
  import opened Wrappers
  import opened Text
  import opened Flow
  import opened VoiceEngine

  /** What the agent records about a call when it first hears of it. */
  datatype CallRecord = CallRecord(startTime: int, clientType: string, qualificationStatus: string)

  /** A request from the voice platform. `interactionType` and `responseId` are `None`
      when their keys are absent; an absent transcript reads as the empty list. */
  datatype Request = Request(interactionType: Option<string>, transcript: seq<Message>, responseId: Option<int>)

  /** A reply to the voice platform. */
  datatype Response = Response(responseId: Option<int>, content: string, contentComplete: bool, endCall: bool)

  /** The kinds of request the agent tells apart; any other value of the
      interaction type, or none, is `Unhandled`. */
  datatype Interaction = UpdateOnly | ResponseRequired | ReminderRequired | Unhandled

  function InteractionOf(interactionType: Option<string>): (r: Interaction)
    ensures r == UpdateOnly <==> interactionType == Some("update_only")
    ensures r == ResponseRequired <==> interactionType == Some("response_required")
    ensures r == ReminderRequired <==> interactionType == Some("reminder_required")
  {
    if interactionType == Some("update_only") then UpdateOnly
    else if interactionType == Some("response_required") then ResponseRequired
    else if interactionType == Some("reminder_required") then ReminderRequired
    else Unhandled
  }

  const Reminder: string :=
    "I'm still here if you need a moment to think or if you'd like to continue. Take your time."

  /** The record of a call first seen at time `now`. */
  function NewCallRecord(now: int): CallRecord {
    CallRecord(now, "unknown", "in_progress")
  }

  /** The at most ten latest transcript messages that the agent remembers. */
  const MemoryLength: nat := 10

  /** A complete reply that keeps the call open, echoing the request's response id. */
  function KeepOpen(request: Request, content: string): Response {
    Response(request.responseId, content, true, false)
  }

  class IntakeAgent {
    const engine: Engine
    var activeCalls: map<string, CallRecord>
    var conversationMemory: map<string, seq<Message>>

    /** The dialogue is valid, and memory is kept only for calls that have a record:
        a call is recorded before anything is remembered for it, and both are dropped
        together. */
    ghost predicate Valid()
      reads this, engine.flow
    {
      && engine.flow.Valid()
      && conversationMemory.Keys <= activeCalls.Keys
    }

    constructor (hash: string -> int)
      ensures Valid() && fresh(engine) && fresh(engine.flow)
      ensures engine.hash == hash
      ensures engine.flow.currentState == map[] && engine.flow.collectedInfo == map[]
      ensures activeCalls == map[] && conversationMemory == map[]
    {
      engine := new Engine(hash);
      activeCalls := map[];
      conversationMemory := map[];
    }

    /** One request for call `callId` at time `now`. The call is recorded the first
        time it is seen, whatever the request. An update stores the latest ten
        messages of a non-empty transcript and gets no reply. A request for a reply
        answers the last message of the transcript through the dialogue (the earlier
        messages being its context), or with the greeting when the transcript is
        empty. A reminder answers with the reminder sentence, the transcript being its
        context. Any other request gets no reply. Every reply echoes the response id,
        is complete and keeps the call open; only a dialogue turn changes the dialogue. */
    method ProcessRetellRequest(request: Request, callId: string, now: int) returns (response: Option<Response>)
      requires Valid()
      modifies this, engine.flow
      ensures Valid()
      ensures activeCalls ==
                if callId in old(activeCalls) then old(activeCalls)
                else old(activeCalls)[callId := NewCallRecord(now)]
      ensures InteractionOf(request.interactionType) == UpdateOnly ==>
                && response == None
                && conversationMemory ==
                     (if |request.transcript| > 0
                      then old(conversationMemory)[callId := LastN(request.transcript, MemoryLength)]
                      else old(conversationMemory))
      ensures InteractionOf(request.interactionType) != UpdateOnly ==> unchanged(this`conversationMemory)
      ensures InteractionOf(request.interactionType) == ResponseRequired && |request.transcript| > 0 ==>
                var t := request.transcript;
                var userInput := ContentOf(t[|t| - 1]);
                var s := old(engine.flow.SessionOf(callId));
                && response == Some(KeepOpen(request, EnhanceWithVoicePresence(Respond(s, userInput), t[..|t| - 1], engine.hash)))
                && engine.flow.currentState == old(engine.flow.currentState)[callId := Step(s, userInput).next.state]
                && engine.flow.collectedInfo == old(engine.flow.collectedInfo)[callId := Step(s, userInput).next.info]
      ensures InteractionOf(request.interactionType) == ResponseRequired && |request.transcript| == 0 ==>
                response == Some(KeepOpen(request, EnhanceWithVoicePresence(Greeting, [], engine.hash)))
      ensures InteractionOf(request.interactionType) == ReminderRequired ==>
                response == Some(KeepOpen(request, EnhanceWithVoicePresence(Reminder, request.transcript, engine.hash)))
      ensures InteractionOf(request.interactionType) == Unhandled ==> response == None
      ensures !(InteractionOf(request.interactionType) == ResponseRequired && |request.transcript| > 0) ==>
                unchanged(engine.flow)
    {
      var interaction := InteractionOf(request.interactionType);
      var transcript := request.transcript;

      if callId !in activeCalls {
        activeCalls := activeCalls[callId := NewCallRecord(now)];
      }

      match interaction
      case UpdateOnly =>
        if |transcript| > 0 {
          conversationMemory := conversationMemory[callId := LastN(transcript, MemoryLength)];
        }
        response := None;
      case ResponseRequired =>
        if |transcript| > 0 {
          var lastMessage := transcript[|transcript| - 1];
          var userInput := ContentOf(lastMessage);
          var content := engine.GenerateResponse(userInput, callId, transcript[..|transcript| - 1]);
          response := Some(KeepOpen(request, content));
        } else {
          var greeting := engine.flow.GetInitialGreeting();
          var content := EnhanceWithVoicePresence(greeting, [], engine.hash);
          response := Some(KeepOpen(request, content));
        }
      case ReminderRequired =>
        var content := EnhanceWithVoicePresence(Reminder, transcript, engine.hash);
        response := Some(KeepOpen(request, content));
      case Unhandled =>
        response := None;
    }

    /** The clean-up when a call's connection closes: its memory and its record are
        dropped, if present; nothing else changes. */
    method EndCall(callId: string)
      requires Valid()
      modifies this
      ensures Valid()
      ensures conversationMemory == old(conversationMemory) - {callId}
      ensures activeCalls == old(activeCalls) - {callId}
    {
      conversationMemory := conversationMemory - {callId};
      activeCalls := activeCalls - {callId};
    }
  }
}
