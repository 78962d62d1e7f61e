/** The text heuristics of TextGenration.py: the prompt stripping and
    return selection of `TextGenerator.generate_text`, and the four
    assessors of `ExperimentRunner` that score or classify a generated text. */
module TextQuality {
  import opened Strings

  // ------------------------------------------------------ generate_text

  /** `text[len(prompt):].strip()` when the decoded text starts with the
      prompt, the text unchanged otherwise: what follows the prompt, less
      the whitespace on both of its sides. */
  function StripPrompt(text: string, prompt: string): (r: string)
    ensures !StartsWith(text, prompt) ==> r == text
    ensures StartsWith(text, prompt) ==>
      var body := text[|prompt|..];
      exists i, j :: (0 <= i <= j <= |body| && r == body[i..j] && AllSpace(body[..i]) && AllSpace(body[j..]))
    ensures StartsWith(text, prompt) ==> r == [] || (!IsSpace(r[0]) && !IsSpace(r[|r| - 1]))
  {
    if StartsWith(text, prompt) then
      Strip(text[|prompt|..])
    else text
  }

  /** A completion without outer whitespace comes back exactly once the
      prompt in front of it is stripped. */
  lemma StripPromptRoundTrip(prompt: string, completion: string)
    requires completion == [] || (!IsSpace(completion[0]) && !IsSpace(completion[|completion| - 1]))
    ensures StripPrompt(prompt + completion, prompt) == completion
  {
    var text := prompt + completion;
    assert text[..|prompt|] == prompt;
    assert text[|prompt|..] == completion;
    if completion != [] {
      assert TrimStart(completion) == completion;
      assert TrimEnd(completion) == completion;
    }
  }

  /** Stripping is idempotent once the prompt is gone. */
  lemma StripPromptStable(text: string, prompt: string)
    requires StartsWith(text, prompt)
    ensures Strip(StripPrompt(text, prompt)) == StripPrompt(text, prompt)
  {
    StripIdempotent(text[|prompt|..]);
  }

  /** The decoding loop: every decoded output, in order, with the prompt stripped. */
  method StripAll(decoded: seq<string>, prompt: string) returns (texts: seq<string>)
    ensures |texts| == |decoded|
    ensures forall k :: 0 <= k < |decoded| ==> texts[k] == StripPrompt(decoded[k], prompt)
  {
    texts := [];
    for k := 0 to |decoded|
      invariant |texts| == k
      invariant forall m :: 0 <= m < k ==> texts[m] == StripPrompt(decoded[m], prompt)
    {
      texts := texts + [StripPrompt(decoded[k], prompt)];
    }
  }

  /** What `generate_text` returns: one text, the whole list, or the
      `IndexError` that `generated_texts[0]` raises on an empty list. */
  datatype Generated = Single(text: string) | Batch(texts: seq<string>) | NoText

  /** `generated_texts if num_return_sequences > 1 else generated_texts[0]`. */
  function SelectReturn(texts: seq<string>, numReturnSequences: int): (g: Generated)
    ensures g.Batch? <==> numReturnSequences > 1
    ensures g.NoText? <==> numReturnSequences <= 1 && |texts| == 0
    ensures g.Batch? ==> g.texts == texts
    ensures g.Single? ==> |texts| > 0 && g.text == texts[0]
  {
    if numReturnSequences > 1 then Batch(texts)
    else if |texts| == 0 then NoText
    else Single(texts[0])
  }

  // ------------------------------------------------------------ assessors

  datatype Assessment = Assessment(score: int, notes: string)

  /** `_assess_quality(text, temperature)`: the temperature band alone
      decides the score. */
  function AssessQuality(text: string, temperature: real): (a: Assessment)
    ensures a.score == 8 <==> temperature <= 0.5
    ensures a.score == 9 <==> 0.5 < temperature <= 0.8
    ensures a.score == 7 <==> 0.8 < temperature <= 1.0
    ensures a.score == 4 <==> 1.0 < temperature
  {
    if temperature <= 0.5 then Assessment(8, "Conservative, good structure")
    else if temperature <= 0.8 then Assessment(9, "Balanced, excellent for games")
    else if temperature <= 1.0 then Assessment(7, "Creative but may repeat")
    else Assessment(4, "Very random, less usable")
  }

  /** The text plays no part in the quality assessment, and the best score
      is reached only in the balanced band. */
  lemma AssessQualityIgnoresText(t1: string, t2: string, temperature: real)
    ensures AssessQuality(t1, temperature) == AssessQuality(t2, temperature)
    ensures AssessQuality(t1, temperature).score <= 9
  {
  }

  /** `_categorize_variation(text)`: task words win over fantasy words. */
  function CategorizeVariation(text: string): (c: string)
    ensures c == "Task-like" <==> Contains(Lower(text), "quest") || Contains(Lower(text), "must")
    ensures c == "Fantasy-themed" <==>
      !Contains(Lower(text), "quest") && !Contains(Lower(text), "must")
      && (Contains(Lower(text), "dragon") || Contains(Lower(text), "magic"))
    ensures c in {"Task-like", "Fantasy-themed", "Generic"}
  {
    var t := Lower(text);
    if Contains(t, "quest") || Contains(t, "must") then "Task-like"
    else if Contains(t, "dragon") || Contains(t, "magic") then "Fantasy-themed"
    else "Generic"
  }

  /** The category ignores case. */
  lemma CategorizeVariationCaseInsensitive(text: string)
    ensures CategorizeVariation(Lower(text)) == CategorizeVariation(text)
  {
    LowerIdempotent(text);
  }

  /** `_assess_coherence(text)`: banded by the number of whitespace-separated words. */
  function AssessCoherence(text: string): (score: int)
    ensures score == 3 <==> WordCount(text) < 5
    ensures score == 8 <==> 5 <= WordCount(text) < 15
    ensures score == 7 <==> 15 <= WordCount(text) < 30
    ensures score == 5 <==> 30 <= WordCount(text)
  {
    var words := WordCount(text);
    if words < 5 then 3
    else if words < 15 then 8
    else if words < 30 then 7
    else 5
  }

  /** Coherence depends on the word count only: a space-joined list of
      words scores by the length of the list. */
  lemma {:induction false} AssessCoherenceOfWords(words: seq<string>)
    requires AllTokens(words)
    ensures AssessCoherence(Join(words)) == (if |words| < 5 then 3 else if |words| < 15 then 8 else if |words| < 30 then 7 else 5)
  {
    SplitJoin(words);
  }

  /** `_assess_usability(text)`: 9 for 6 to 24 words starting with a
      capital; otherwise 5 beyond 30 words and 7 below. Empty text counts as
      not capitalised. */
  function AssessUsability(text: string): (score: int)
    ensures score == 9 <==> 5 < WordCount(text) < 25 && |text| > 0 && IsUpper(text[0])
    ensures score == 5 <==> WordCount(text) > 30
    ensures score in {5, 7, 9}
  {
    var words := WordCount(text);
    var hasCapital := if |text| > 0 then IsUpper(text[0]) else false;
    if 5 < words < 25 && hasCapital then 9
    else if words > 30 then 5
    else 7
  }

  /** Usability of a space-joined list of words: the first word's first
      letter and the number of words decide it. */
  lemma AssessUsabilityOfWords(words: seq<string>)
    requires AllTokens(words)
    ensures AssessUsability(Join(words))
      == (if 5 < |words| < 25 && |words[0]| > 0 && IsUpper(words[0][0]) then 9 else if |words| > 30 then 5 else 7)
  {
    SplitJoin(words);
    if words != [] {
      JoinStartsWithFirstWord(words);
    }
  }
}
