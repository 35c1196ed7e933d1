/**
 * The final-transcript assembly shared by both session components: the body
 * of the speech recogniser's `onresult` handler, which walks the result list
 * from `resultIndex` to the end and keeps the final results only.
 */
module Recognition {
  import opened JsText

  /** One entry of the recogniser's result list: whether it is final, and the
      transcript of its top alternative (`results[i][0].transcript`). */
  datatype RecognitionResult = RecognitionResult(isFinal: bool, transcript: string)

  /** What one result adds to the final transcript: its text and one space
      when it is final, nothing otherwise. */
  function Contribution(r: RecognitionResult): string {
    if r.isFinal then r.transcript + " " else ""
  }

  /** The final transcript of the results from index `from` to the end. */
  function FinalText(results: seq<RecognitionResult>, from: nat): string
    decreases |results| - from
  {
    if from >= |results| then "" else Contribution(results[from]) + FinalText(results, from + 1)
  }

  /** The `for` loop of the `onresult` handler. */
  method AssembleFinal(results: seq<RecognitionResult>, resultIndex: nat) returns (finalTranscript: string)
    ensures finalTranscript == FinalText(results, resultIndex)
  {
    finalTranscript := "";
    var i := resultIndex;
    while i < |results|
      invariant resultIndex <= i
      invariant finalTranscript + FinalText(results, i) == FinalText(results, resultIndex)
      decreases |results| - i
    {
      if results[i].isFinal {
        finalTranscript := finalTranscript + results[i].transcript + " ";
      }
      i := i + 1;
    }
  }

  /** The final transcript is empty exactly when no result from `from` on is
      final: a final result with an empty transcript still adds its space. */
  lemma {:induction false} FinalTextEmptyIff(results: seq<RecognitionResult>, from: nat)
    ensures FinalText(results, from) == "" <==> forall j :: from <= j < |results| ==> !results[j].isFinal
    decreases |results| - from
  {
    if from < |results| {
      FinalTextEmptyIff(results, from + 1);
      if results[from].isFinal {
        assert |FinalText(results, from)| > 0;
      }
    }
  }

  /** The final transcript is all whitespace (so trims to "") exactly when
      every final result from `from` on has an all-whitespace transcript. */
  lemma {:induction false} FinalTextBlankIff(results: seq<RecognitionResult>, from: nat)
    ensures AllWhitespace(FinalText(results, from))
        <==> forall j :: from <= j < |results| && results[j].isFinal ==> AllWhitespace(results[j].transcript)
    decreases |results| - from
  {
    if from < |results| {
      FinalTextBlankIff(results, from + 1);
      AllWhitespaceConcat(Contribution(results[from]), FinalText(results, from + 1));
      if results[from].isFinal {
        AllWhitespaceConcat(results[from].transcript, " ");
      }
    }
  }

  /** A non-empty final transcript ends with the space that follows its last
      final result, so the text handed on after `trim` is strictly shorter. */
  lemma {:induction false} FinalTextEndsWithSpace(results: seq<RecognitionResult>, from: nat)
    requires FinalText(results, from) != ""
    ensures FinalText(results, from)[|FinalText(results, from)| - 1] == ' '
    ensures |Trim(FinalText(results, from))| < |FinalText(results, from)|
    decreases |results| - from
  {
    var rest := FinalText(results, from + 1);
    if rest != "" {
      FinalTextEndsWithSpace(results, from + 1);
      assert FinalText(results, from) == Contribution(results[from]) + rest;
    }
  }

  /** Results are taken in list order: the final transcript of a list is the
      final transcript up to position `mid` followed by the one from `mid` on. */
  lemma {:induction false} FinalTextSplit(results: seq<RecognitionResult>, from: nat, mid: nat)
    requires from <= mid <= |results|
    ensures FinalText(results, from) == FinalText(results[..mid], from) + FinalText(results, mid)
    decreases mid - from
  {
    if from < mid {
      FinalTextSplit(results, from + 1, mid);
      assert results[..mid][from] == results[from];
    }
  }
}
