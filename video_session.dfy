/**
 * The turn-gating controller of the live practice session
 * (src/components/VideoSession.js): recognised user speech is accepted only
 * while the AI is neither speaking nor awaited, an accepted message of at
 * least ten characters is logged and sent to the chat backend, and the reply
 * is logged and spoken after a delay.
 *
 * Callbacks and timers are event methods of `Controller`. The platform's
 * speech APIs are fixed per browser and given to the constructor; the voice
 * list, the clock and the backend's answers are parameters of the events.
 */
module VideoSession {
  import opened Wrappers
  import opened JsText
  import opened Recognition

  /** Messages shorter than this are ignored as recognition noise. */
  const MinMessageLength: nat := 10

  /** The line the AI character opens the session with. */
  const Introduction: string :=
    "Hi there! I'm Sarah Mitchell, IT Director here. I'm pretty busy today, so let's see what you've got. What company are you calling from?"

  /** Prosody set on every synthesised utterance. */
  const SpeechRate: real := 0.9
  const SpeechPitch: real := 1.1
  const SpeechVolume: real := 0.8

  datatype Speaker = User | Ai

  /** One line of the conversation log. */
  datatype Entry = Entry(speaker: Speaker, message: string, timestamp: nat)

  /** A synthesis utterance; `voice` is the chosen voice's name, `None` for
      the platform's default voice. */
  datatype Utterance = Utterance(text: string, voice: Option<string>, rate: real, pitch: real, volume: real)

  /** The body of the chat request: the user's message and the conversation
      as it stood before that message was logged. In the program the
      recogniser's handler is created at mount and reads the mount-time
      log, so the history it sends is always empty; the model sends the
      log as it stood. */
  datatype ChatRequest = ChatRequest(userMessage: string, conversationHistory: seq<Entry>)

  /** A voice is preferred when its lower-cased name mentions "female",
      "samantha" or "karen". */
  predicate IsPreferredVoice(name: string) {
    var n := Lower(name);
    Includes(n, "female") || Includes(n, "samantha") || Includes(n, "karen")
  }

  /** The position of the first preferred voice, if any (`voices.find`). */
  function PickVoice(names: seq<string>): (r: Option<nat>)
    ensures r.Some? ==> r.value < |names| && IsPreferredVoice(names[r.value])
    ensures r.Some? ==> forall j :: 0 <= j < r.value ==> !IsPreferredVoice(names[j])
    ensures r.None? <==> forall j :: 0 <= j < |names| ==> !IsPreferredVoice(names[j])
  {
    if names == [] then None
    else if IsPreferredVoice(names[0]) then Some(0)
    else match PickVoice(names[1..])
      case None => None
      case Some(k) => Some(k + 1)
  }

  /** The utterance `speakText` builds for `text` given the platform's voices. */
  function MakeUtterance(text: string, voices: seq<string>): Utterance {
    var voice := match PickVoice(voices)
      case Some(k) => Some(voices[k])
      case None => None;
    Utterance(text, voice, SpeechRate, SpeechPitch, SpeechVolume)
  }

  /** The utterance takes the first preferred voice and the fixed prosody. */
  lemma VoiceIsFirstPreferred(text: string, voices: seq<string>, k: nat)
    requires k < |voices| && IsPreferredVoice(voices[k])
    requires forall j :: 0 <= j < k ==> !IsPreferredVoice(voices[j])
    ensures MakeUtterance(text, voices) == Utterance(text, Some(voices[k]), SpeechRate, SpeechPitch, SpeechVolume)
  {
  }

  /** With no preferred voice, the utterance keeps the platform's default voice. */
  lemma DefaultVoiceWhenNonePreferred(text: string, voices: seq<string>)
    requires forall j :: 0 <= j < |voices| ==> !IsPreferredVoice(voices[j])
    ensures MakeUtterance(text, voices) == Utterance(text, None, SpeechRate, SpeechPitch, SpeechVolume)
  {
  }

  class Controller {
    /** Whether the platform has speech recognition / speech synthesis. */
    const hasRecognition: bool
    const hasSynthesis: bool

    var isAISpeaking: bool
    var waitingForAI: bool
    var isRecording: bool
    var transcript: string
    var conversation: seq<Entry>
    /** Whether `recognitionRef` holds a started recogniser. */
    var recognizerActive: bool
    /** `speechSynthesisRef`: the last utterance handed to the synthesiser. */
    var speechRef: Option<Utterance>
    /** The synthesiser's queue: utterances spoken or waiting, in order. */
    var speechQueue: seq<Utterance>
    /** Chat requests sent and not yet answered. */
    var pendingRequests: nat
    /** Replies whose one-second speak timer has not fired yet, in order. */
    var pendingSpeech: seq<string>
    /** Whether `cleanup` has run; teardown cancels neither requests nor timers. */
    ghost var tornDown: bool

    /** Outstanding work of the one turn in progress: a request or a timer. */
    function Outstanding(): nat
      reads this
    {
      pendingRequests + |pendingSpeech|
    }

    ghost predicate Valid()
      reads this
    {
      && (isRecording <==> recognizerActive)
      && (recognizerActive ==> hasRecognition)
      && (speechQueue != [] ==> hasSynthesis)
      && (isAISpeaking ==> speechQueue != [])
      && (waitingForAI ==> Outstanding() > 0)
      // Until teardown, turns are serialised: at most one request or pending
      // reply exists, and `waitingForAI` is set exactly while one does.
      && (!tornDown ==> Outstanding() <= 1 && (waitingForAI <==> Outstanding() == 1))
    }

    /** The gate of `onresult`: user speech is handed on only when this holds. */
    predicate Accepting()
      reads this
    {
      !isAISpeaking && !waitingForAI
    }

    /** The component's initial state. */
    constructor (hasRecognition: bool, hasSynthesis: bool)
      ensures Valid() && !tornDown
      ensures this.hasRecognition == hasRecognition && this.hasSynthesis == hasSynthesis
      ensures !isAISpeaking && !waitingForAI && !isRecording && !recognizerActive
      ensures transcript == "" && conversation == []
      ensures speechRef == None && speechQueue == []
      ensures pendingRequests == 0 && pendingSpeech == []
    {
      this.hasRecognition := hasRecognition;
      this.hasSynthesis := hasSynthesis;
      isAISpeaking, waitingForAI, isRecording := false, false, false;
      transcript, conversation := "", [];
      recognizerActive := false;
      speechRef, speechQueue := None, [];
      pendingRequests, pendingSpeech := 0, [];
      tornDown := false;
    }

    /** `startSpeechRecognition`: starts a recogniser and sets `isRecording`
        when the platform has one, and does nothing otherwise. */
    method StartRecognition()
      requires Valid()
      modifies this`recognizerActive, this`isRecording
      ensures Valid()
      ensures recognizerActive == (old(recognizerActive) || hasRecognition)
      ensures isRecording == recognizerActive
    {
      if hasRecognition {
        recognizerActive := true;
        isRecording := true;
      }
    }

    /** `addToConversation`: appends one entry and changes no earlier entry. */
    method AddToConversation(speaker: Speaker, message: string, now: nat)
      modifies this`conversation
      ensures conversation == old(conversation) + [Entry(speaker, message, now)]
      ensures conversation[..|old(conversation)|] == old(conversation)
    {
      conversation := conversation + [Entry(speaker, message, now)];
    }

    /** The recogniser's `onresult`. The final text is appended to the
        transcript when it is not blank after trimming; its trimmed form is
        handed to `BeginUserTurn` only while the gate is open. */
    method OnResult(results: seq<RecognitionResult>, resultIndex: nat, now: nat) returns (request: Option<ChatRequest>)
      requires Valid()
      modifies this`transcript, this`waitingForAI, this`conversation, this`pendingRequests
      ensures Valid()
      ensures var heard := Trim(FinalText(results, resultIndex));
        && (heard == "" ==> transcript == old(transcript))
        && (heard != "" ==> transcript == old(transcript) + FinalText(results, resultIndex))
        && (request.Some? <==> heard != "" && old(Accepting()) && |heard| >= MinMessageLength)
        && (request.Some? ==> request.value == ChatRequest(heard, old(conversation)))
        && (request.Some? ==> conversation == old(conversation) + [Entry(User, heard, now)])
        && (request.Some? ==> waitingForAI && pendingRequests == old(pendingRequests) + 1)
      ensures request.None? ==>
        conversation == old(conversation) && waitingForAI == old(waitingForAI) && pendingRequests == old(pendingRequests)
    {
      var finalTranscript := AssembleFinal(results, resultIndex);
      request := None;
      var heard := Trim(finalTranscript);
      if heard != "" {
        transcript := transcript + finalTranscript;
        if |finalTranscript| > 0 && !isAISpeaking && !waitingForAI {
          request := BeginUserTurn(heard, now);
        }
      }
    }

    /** `handleUserSpeech` up to its first `await`: a message of at least ten
        characters sets `waitingForAI`, is logged as the user's, and is sent;
        a shorter one changes nothing. Its only caller holds the gate open. */
    method BeginUserTurn(userMessage: string, now: nat) returns (request: Option<ChatRequest>)
      requires Valid() && Accepting()
      modifies this`waitingForAI, this`conversation, this`pendingRequests
      ensures Valid()
      ensures request.Some? <==> |userMessage| >= MinMessageLength
      ensures request.Some? ==>
        && request.value == ChatRequest(userMessage, old(conversation))
        && waitingForAI
        && conversation == old(conversation) + [Entry(User, userMessage, now)]
        && pendingRequests == old(pendingRequests) + 1
      ensures request.None? ==>
        !waitingForAI && conversation == old(conversation) && pendingRequests == old(pendingRequests)
    {
      if |userMessage| < MinMessageLength {
        return None;
      }
      waitingForAI := true;
      var history := conversation;
      AddToConversation(User, userMessage, now);
      pendingRequests := pendingRequests + 1;
      request := Some(ChatRequest(userMessage, history));
    }

    /** A chat request succeeded: the reply is logged as the AI's, with no
        emptiness check, and its speak timer is scheduled. `waitingForAI`
        stays as it was until that timer fires. */
    method ReplyOk(aiResponse: string, now: nat)
      requires Valid() && pendingRequests > 0
      modifies this`conversation, this`pendingRequests, this`pendingSpeech
      ensures Valid()
      ensures conversation == old(conversation) + [Entry(Ai, aiResponse, now)]
      ensures pendingRequests == old(pendingRequests) - 1
      ensures pendingSpeech == old(pendingSpeech) + [aiResponse]
    {
      AddToConversation(Ai, aiResponse, now);
      pendingRequests := pendingRequests - 1;
      pendingSpeech := pendingSpeech + [aiResponse];
    }

    /** A chat request failed: `waitingForAI` is cleared and nothing is logged. */
    method ReplyErr()
      requires Valid() && pendingRequests > 0
      modifies this`waitingForAI, this`pendingRequests
      ensures Valid()
      ensures !waitingForAI
      ensures pendingRequests == old(pendingRequests) - 1
    {
      pendingRequests := pendingRequests - 1;
      waitingForAI := false;
    }

    /** `speakText`: with synthesis, sets `isAISpeaking` and queues an
        utterance with the first preferred voice (else the default voice);
        without synthesis, does nothing. */
    method SpeakText(text: string, voices: seq<string>)
      requires Valid()
      modifies this`isAISpeaking, this`speechRef, this`speechQueue
      ensures Valid()
      ensures hasSynthesis ==>
        && isAISpeaking
        && speechRef == Some(MakeUtterance(text, voices))
        && speechQueue == old(speechQueue) + [MakeUtterance(text, voices)]
      ensures !hasSynthesis ==>
        isAISpeaking == old(isAISpeaking) && speechRef == old(speechRef) && speechQueue == old(speechQueue)
    {
      if hasSynthesis {
        isAISpeaking := true;
        var utterance := MakeUtterance(text, voices);
        speechRef := Some(utterance);
        speechQueue := speechQueue + [utterance];
      }
    }

    /** The one-second timer after a reply: speaks the oldest scheduled reply,
        then clears `waitingForAI`. With synthesis the gate stays closed,
        because `isAISpeaking` was set first. */
    method DelayedSpeak(voices: seq<string>)
      requires Valid() && pendingSpeech != []
      modifies this`isAISpeaking, this`speechRef, this`speechQueue, this`waitingForAI, this`pendingSpeech
      ensures Valid()
      ensures pendingSpeech == old(pendingSpeech[1..])
      ensures !waitingForAI
      ensures hasSynthesis ==>
        && isAISpeaking && !Accepting()
        && speechRef == Some(MakeUtterance(old(pendingSpeech[0]), voices))
        && speechQueue == old(speechQueue) + [MakeUtterance(old(pendingSpeech[0]), voices)]
      ensures !hasSynthesis ==>
        isAISpeaking == old(isAISpeaking) && speechRef == old(speechRef) && speechQueue == old(speechQueue)
    {
      var text := pendingSpeech[0];
      SpeakText(text, voices);
      pendingSpeech := pendingSpeech[1..];
      waitingForAI := false;
    }

    /** An utterance's `onend`: the oldest queued utterance has finished and
        `isAISpeaking` is cleared, whether or not more are queued. */
    method SpeechEnd()
      requires Valid() && speechQueue != []
      modifies this`isAISpeaking, this`speechQueue
      ensures Valid()
      ensures !isAISpeaking
      ensures speechQueue == old(speechQueue[1..])
    {
      speechQueue := speechQueue[1..];
      isAISpeaking := false;
    }

    /** `introduceAICharacter`, two seconds after joining: logs the fixed
        introduction as the AI's and speaks it. */
    method Introduce(voices: seq<string>, now: nat)
      requires Valid()
      modifies this`conversation, this`isAISpeaking, this`speechRef, this`speechQueue
      ensures Valid()
      ensures conversation == old(conversation) + [Entry(Ai, Introduction, now)]
      ensures hasSynthesis ==>
        && isAISpeaking
        && speechRef == Some(MakeUtterance(Introduction, voices))
        && speechQueue == old(speechQueue) + [MakeUtterance(Introduction, voices)]
      ensures !hasSynthesis ==>
        isAISpeaking == old(isAISpeaking) && speechRef == old(speechRef) && speechQueue == old(speechQueue)
    {
      AddToConversation(Ai, Introduction, now);
      SpeakText(Introduction, voices);
    }

    /** `cleanup`: stops the recogniser, cancels the synthesiser's queue,
        drops the utterance reference and clears both flags. The log, the
        transcript, requests in flight and scheduled timers are kept. */
    method Cleanup()
      requires Valid()
      modifies this`recognizerActive, this`isRecording, this`speechQueue, this`speechRef,
        this`isAISpeaking, this`waitingForAI, this`tornDown
      ensures Valid() && tornDown
      ensures !isAISpeaking && !waitingForAI && Accepting()
      ensures !recognizerActive && !isRecording
      ensures speechQueue == [] && speechRef == None
    {
      if recognizerActive {
        recognizerActive := false;
        isRecording := false;
      }
      if hasSynthesis {
        speechQueue := [];
      }
      if speechRef.Some? {
        speechRef := None;
      }
      isAISpeaking := false;
      waitingForAI := false;
      tornDown := true;
    }
  }

  /** Calling `cleanup` on a controller in the state a `cleanup` leaves
      changes nothing. */
  method CleanupIsIdempotent(c: Controller)
    requires c.Valid() && c.tornDown
    requires !c.isAISpeaking && !c.waitingForAI && !c.recognizerActive && !c.isRecording
    requires c.speechQueue == [] && c.speechRef == None
    modifies c
    ensures c.Valid()
    ensures c.tornDown == old(c.tornDown)
    ensures c.isAISpeaking == old(c.isAISpeaking) && c.waitingForAI == old(c.waitingForAI)
    ensures c.recognizerActive == old(c.recognizerActive) && c.isRecording == old(c.isRecording)
    ensures c.speechQueue == old(c.speechQueue) && c.speechRef == old(c.speechRef)
    ensures c.transcript == old(c.transcript) && c.conversation == old(c.conversation)
    ensures c.pendingRequests == old(c.pendingRequests) && c.pendingSpeech == old(c.pendingSpeech)
  {
    c.Cleanup();
  }

  /** A final result "I sell ads" gives the ten-character message "I sell ads". */
  lemma HeardSellAds()
    ensures Trim(FinalText([RecognitionResult(true, "I sell ads")], 0)) == "I sell ads"
  {
  }

  /** The introduction timer can fire while the user's first request is out.
      The reply is then queued behind the introduction, and the end of the
      introduction reopens the gate while the reply is still to be played. */
  method IntroductionOverlapsReply(voices: seq<string>, reply: string) returns (c: Controller)
    ensures c.Valid() && c.Accepting()
    ensures c.speechQueue == [MakeUtterance(reply, voices)]
  {
    c := new Controller(true, true);
    c.StartRecognition();
    HeardSellAds();
    var request := c.OnResult([RecognitionResult(true, "I sell ads")], 0, 1000);
    assert request.Some?;
    c.Introduce(voices, 2000);
    c.ReplyOk(reply, 2500);
    c.DelayedSpeak(voices);
    c.SpeechEnd();
  }

  /** `cleanup` cancels neither a request in flight nor its speak timer: both
      still run their handlers afterwards. In the program `cleanup` comes with
      unmounting, so React drops the state updates this trace shows (the log
      entry and `isAISpeaking`), and the synthesiser it queues on is paused. */
  method ReplyAfterCleanup(voices: seq<string>, reply: string) returns (c: Controller)
    ensures c.Valid() && c.tornDown && !c.recognizerActive
    ensures |c.conversation| == 2 && c.conversation[1] == Entry(Ai, reply, 4000)
    ensures c.isAISpeaking && c.speechQueue == [MakeUtterance(reply, voices)]
  {
    c := new Controller(true, true);
    c.StartRecognition();
    HeardSellAds();
    var request := c.OnResult([RecognitionResult(true, "I sell ads")], 0, 1000);
    assert request.Some?;
    c.Cleanup();
    c.ReplyOk(reply, 4000);
    c.DelayedSpeak(voices);
  }
}
