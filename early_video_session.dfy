/**
 * The earlier session component (video_session_component.js): it only
 * accumulates the final speech transcript, and on ending the session stops
 * the recogniser and computes the session's duration for the backend.
 */
module EarlyVideoSession {
  import opened Wrappers
  import opened Recognition

  /** `sessionStartTime ? now - sessionStartTime : 0`, where an unset start
      time and a start time of 0 are both falsy. */
  function Duration(sessionStartTime: Option<nat>, now: nat): (d: int)
    ensures sessionStartTime.Some? && sessionStartTime.value != 0 ==> sessionStartTime.value + d == now
    ensures sessionStartTime.None? || sessionStartTime.value == 0 ==> d == 0
    ensures sessionStartTime.Some? && sessionStartTime.value <= now ==> d >= 0
  {
    match sessionStartTime
    case Some(start) => if start != 0 then now - start else 0
    case None => 0
  }

  class Controller {
    /** Whether the platform has speech recognition. */
    const hasRecognition: bool

    var isRecording: bool
    var transcript: string
    var sessionStartTime: Option<nat>
    /** Whether `recognitionRef` holds a recogniser (it is never cleared). */
    var hasRecognizer: bool
    /** Whether that recogniser is listening. */
    var listening: bool

    ghost predicate Valid()
      reads this
    {
      && (hasRecognizer ==> hasRecognition)
      && (listening ==> hasRecognizer)
      && (isRecording ==> hasRecognizer)
    }

    constructor (hasRecognition: bool)
      ensures Valid() && this.hasRecognition == hasRecognition
      ensures !isRecording && transcript == "" && sessionStartTime == None
      ensures !hasRecognizer && !listening
    {
      this.hasRecognition := hasRecognition;
      isRecording, transcript, sessionStartTime := false, "", None;
      hasRecognizer, listening := false, false;
    }

    /** The `joined-meeting` handler: records the start time and starts
        recognition when the platform has it. Without recognition no
        recogniser exists and `isRecording` is not set. */
    method JoinedMeeting(now: nat)
      requires Valid()
      modifies this`sessionStartTime, this`hasRecognizer, this`listening, this`isRecording
      ensures Valid()
      ensures sessionStartTime == Some(now)
      ensures hasRecognition ==> hasRecognizer && listening && isRecording
      ensures !hasRecognition ==> !hasRecognizer && !listening && !isRecording
    {
      sessionStartTime := Some(now);
      if hasRecognition {
        hasRecognizer := true;
        listening := true;
        isRecording := true;
      }
    }

    /** The recogniser's `onresult`: the final text is appended when it is
        non-empty (no trimming), so the transcript only grows, and it is
        unchanged exactly when no result from `resultIndex` on is final. */
    method OnResult(results: seq<RecognitionResult>, resultIndex: nat)
      requires Valid()
      modifies this`transcript
      ensures transcript == old(transcript) + FinalText(results, resultIndex)
      ensures old(transcript) <= transcript
      ensures transcript == old(transcript) <==> forall j :: resultIndex <= j < |results| ==> !results[j].isFinal
    {
      var finalTranscript := AssembleFinal(results, resultIndex);
      if finalTranscript != "" {
        transcript := transcript + finalTranscript;
      }
      FinalTextEmptyIff(results, resultIndex);
      assert |transcript| == |old(transcript)| + |finalTranscript|;
    }

    /** `endSession` up to the backend call: stops the recogniser if there
        is one and clears `isRecording`, then computes the duration. */
    method EndSession(now: nat) returns (duration: int)
      requires Valid()
      modifies this`listening, this`isRecording
      ensures Valid()
      ensures duration == Duration(sessionStartTime, now)
      ensures hasRecognizer ==> !listening && !isRecording
      ensures !hasRecognizer ==> listening == old(listening) && isRecording == old(isRecording)
    {
      if hasRecognizer {
        listening := false;
        isRecording := false;
      }
      duration := Duration(sessionStartTime, now);
    }

    /** The unmount clean-up: stops the recogniser if there is one; the
        recording flag is left as it was. */
    method Unmount()
      requires Valid()
      modifies this`listening
      ensures Valid() && !listening
    {
      if hasRecognizer {
        listening := false;
      }
    }
  }
}
