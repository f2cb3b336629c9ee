/**
 The video generator's bookkeeping (components/VideoGenerator.tsx): the
 guard of `handleGenerate`, the bounded newest-first history of generated
 videos, and the way a failure's message is unwrapped and classified before
 it is shown. The generation itself is a remote call; its outcome is an
 argument here.
 */
module VideoGeneration {
  import opened JsRuntime

  /** A `VideoHistoryItem`. */
  datatype HistoryItem = HistoryItem(id: string, prompt: string, videoUrl: string, timestamp: nat)

  /** What `JSON.parse` makes of a message between braces: not JSON at all,
      or an object whose `error.message` and `message` are given ("" when
      absent or falsy). */
  datatype ErrorJson = NotJson | ParsedJson(nestedMessage: string, message: string)

  /** The message shown for a failure, and whether it also marks the API
      key as not selected. */
  datatype Diagnosis = Diagnosis(message: string, keyInvalid: bool)

  const UnknownError: string := "An unknown error occurred."
  const QuotaMessage: string :=
    "You have exceeded your API quota. Please check your plan and billing details on the Google AI Platform console."
  const KeyMessage: string := "API Key is invalid or not found. Please select a valid key."

  // ---------------------------------------------------------------------
  // History

  /** `[newItem, ...prev.slice(0, 4)]` (VideoGenerator.tsx:82). */
  function Prepend(prev: seq<HistoryItem>, item: HistoryItem): (r: seq<HistoryItem>)
    ensures |r| == if |prev| < 5 then |prev| + 1 else 5
    ensures r[0] == item && r[1..] == prev[..|r| - 1]
  {
    [item] + (if |prev| <= 4 then prev else prev[..4])
  }

  /** The history after a run of successes, oldest first, from `start`. */
  function Replay(start: seq<HistoryItem>, items: seq<HistoryItem>): seq<HistoryItem> {
    if items == [] then start else Prepend(Replay(start, items[..|items| - 1]), items[|items| - 1])
  }

  function Reversed(s: seq<HistoryItem>): (r: seq<HistoryItem>)
    ensures |r| == |s|
  {
    if s == [] then [] else [s[|s| - 1]] + Reversed(s[..|s| - 1])
  }

  /** From an empty history, a run of successes leaves the five newest
      items, newest first. */
  lemma {:induction false} ReplayKeepsNewest(items: seq<HistoryItem>)
    ensures var n := if |items| < 5 then |items| else 5;
      Replay([], items) == Reversed(items)[..n]
  {
    if items != [] {
      var init, last := items[..|items| - 1], items[|items| - 1];
      ReplayKeepsNewest(init);
      var m := if |init| < 5 then |init| else 5;
      var k := if |init| < 4 then |init| else 4;
      assert Replay([], init)[..k] == Reversed(init)[..k];
      assert Reversed(items) == [last] + Reversed(init);
    }
  }

  // ---------------------------------------------------------------------
  // Failures

  /** The message after unwrapping (VideoGenerator.tsx:85-99): an empty
      message becomes the unknown-error text; a message that starts with
      '{' and ends with '}' and parses as JSON gives way to its
      `error.message`, else to its `message`, when either is set. */
  function Unwrap(raw: string, parsed: ErrorJson): (r: string)
    ensures r != ""
    ensures raw == "" ==> r == UnknownError
    ensures raw != "" && !(StartsWith(raw, "{") && EndsWith(raw, "}")) ==> r == raw
    ensures raw != "" && parsed.NotJson? ==> r == raw
    ensures raw != "" && StartsWith(raw, "{") && EndsWith(raw, "}") && parsed.ParsedJson? ==>
      r == (if parsed.nestedMessage != "" then parsed.nestedMessage
            else if parsed.message != "" then parsed.message else raw)
  {
    var m := if raw == "" then UnknownError else raw;
    if StartsWith(m, "{") && EndsWith(m, "}") && parsed.ParsedJson? then
      if parsed.nestedMessage != "" then parsed.nestedMessage
      else if parsed.message != "" then parsed.message
      else m
    else m
  }

  /** Quota exhaustion is recognised by either of two phrases. */
  predicate QuotaExceeded(m: string) {
    Includes(m, "RESOURCE_EXHAUSTED") || Includes(m, "exceeded your current quota")
  }

  /** A missing or invalid key is recognised by this phrase. */
  predicate EntityNotFound(m: string) {
    Includes(m, "Requested entity was not found")
  }

  /** The classification of VideoGenerator.tsx:101-107 applied to the
      unwrapped message. */
  function Diagnose(raw: string, parsed: ErrorJson): (d: Diagnosis)
    ensures d.message != ""
    ensures d.keyInvalid <==> !QuotaExceeded(Unwrap(raw, parsed)) && EntityNotFound(Unwrap(raw, parsed))
    ensures QuotaExceeded(Unwrap(raw, parsed)) ==> d.message == QuotaMessage
    ensures !QuotaExceeded(Unwrap(raw, parsed)) && EntityNotFound(Unwrap(raw, parsed)) ==> d.message == KeyMessage
  {
    var m := Unwrap(raw, parsed);
    if QuotaExceeded(m) then Diagnosis(QuotaMessage, false)
    else if EntityNotFound(m) then Diagnosis(KeyMessage, true)
    else Diagnosis(m, false)
  }

  /** The quota check comes first: a message naming both problems is
      reported as a quota problem and leaves the key selected. */
  lemma QuotaTakesPrecedence(raw: string, parsed: ErrorJson)
    requires QuotaExceeded(Unwrap(raw, parsed)) && EntityNotFound(Unwrap(raw, parsed))
    ensures Diagnose(raw, parsed) == Diagnosis(QuotaMessage, false)
  {
  }

  /** A message naming neither problem is shown as unwrapped. */
  lemma OtherMessagesPassThrough(raw: string, parsed: ErrorJson)
    requires !QuotaExceeded(Unwrap(raw, parsed)) && !EntityNotFound(Unwrap(raw, parsed))
    ensures Diagnose(raw, parsed) == Diagnosis(Unwrap(raw, parsed), false)
  {
  }

  /** The key-problem phrase is recognised at any position in a message,
      whatever text surrounds it. */
  lemma PhraseFoundAnywhere(before: string, after: string)
    ensures EntityNotFound(before + "Requested entity was not found" + after)
  {
    var m := before + "Requested entity was not found" + after;
    var p := "Requested entity was not found";
    assert m[|before|..][..|p|] == p;
  }

  // ---------------------------------------------------------------------
  // The component

  /** The state of the VideoGenerator component; `error` and `videoUrl`
      are "" when null. */
  /** The guard of `handleGenerate` (VideoGenerator.tsx:72). */
  function GenerateBlocked(prompt: string, isLoading: bool): bool {
    Trim(prompt) == "" || isLoading
  }

  /** Generation is refused exactly for a prompt of whitespace only, or while
      another generation runs. */
  lemma GenerateBlockedIffBlank(prompt: string, isLoading: bool)
    ensures GenerateBlocked(prompt, isLoading) <==> IsBlank(prompt) || isLoading
  {
    TrimEmptyIffBlank(prompt);
  }

  class VideoGenerator {
    var prompt: string
    var isLoading: bool
    var error: string
    var videoUrl: string
    var apiKeySelected: bool
    var history: seq<HistoryItem>
    /** The prompt that the running `handleGenerate` closed over. */
    var submitted: string

    /** The first render (VideoGenerator.tsx:28-36), with the stored history. */
    constructor (stored: seq<HistoryItem>)
      ensures prompt == "" && !isLoading && error == "" && videoUrl == "" && !apiKeySelected && history == stored
      ensures submitted == ""
    {
      prompt, isLoading, error, videoUrl, apiKeySelected := "", false, "", "", false;
      history := stored;
      submitted := "";
    }

    /** Typing in the prompt field. */
    method EditPrompt(value: string)
      modifies this`prompt
      ensures prompt == value
    {
      prompt := value;
    }

    /** `checkApiKey` once the host answers whether a key is selected
        (VideoGenerator.tsx:55-60). */
    method CheckedKey(hasKey: bool)
      modifies this`apiKeySelected
      ensures apiKeySelected == hasKey
    {
      apiKeySelected := hasKey;
    }

    /** `handleSelectKey` once the host's key dialog closes
        (VideoGenerator.tsx:64-69). */
    method SelectedKey()
      modifies this`apiKeySelected
      ensures apiKeySelected
    {
      apiKeySelected := true;
    }

    /** The synchronous start of `handleGenerate` (VideoGenerator.tsx:72-76):
        nothing happens for a blank prompt or while a generation runs. A
        generation that starts keeps the prompt it was started with. */
    method StartGenerate() returns (started: bool)
      modifies this`isLoading, this`error, this`videoUrl, this`submitted
      ensures started <==> !GenerateBlocked(prompt, old(isLoading))
      ensures started ==> isLoading && error == "" && videoUrl == "" && submitted == prompt
      ensures !started ==> isLoading == old(isLoading) && error == old(error) && videoUrl == old(videoUrl)
      ensures !started ==> submitted == old(submitted)
    {
      if GenerateBlocked(prompt, isLoading) {
        return false;
      }
      isLoading, error, videoUrl, submitted := true, "", "", prompt;
      started := true;
    }

    /** The running generation produced `url` (VideoGenerator.tsx:79-82 and the
        `finally`), with the two clock readings it takes. Its history item
        records the submitted prompt, whatever the field holds by then. */
    method Succeeded(url: string, t1: nat, t2: nat)
      modifies this`videoUrl, this`history, this`isLoading
      ensures videoUrl == url && !isLoading
      ensures history == Prepend(old(history), HistoryItem("vid-" + Decimal(t1), submitted, url, t2))
    {
      videoUrl := url;
      var newItem := HistoryItem("vid-" + Decimal(t1), submitted, url, t2);
      history := [newItem] + (if |history| <= 4 then history else history[..4]);
      isLoading := false;
    }

    /** A generation that failed with message `raw`, which `JSON.parse`
        reads as `parsed` (VideoGenerator.tsx:83-112). */
    method Failed(raw: string, parsed: ErrorJson)
      modifies this`error, this`apiKeySelected, this`isLoading
      ensures error == Diagnose(raw, parsed).message && !isLoading
      ensures apiKeySelected == (old(apiKeySelected) && !Diagnose(raw, parsed).keyInvalid)
    {
      var errorMessage := if raw == "" then "An unknown error occurred." else raw;
      if StartsWith(errorMessage, "{") && EndsWith(errorMessage, "}") {
        if parsed.ParsedJson? {
          if parsed.nestedMessage != "" {
            errorMessage := parsed.nestedMessage;
          } else if parsed.message != "" {
            errorMessage := parsed.message;
          }
        }
      }
      if Includes(errorMessage, "RESOURCE_EXHAUSTED") || Includes(errorMessage, "exceeded your current quota") {
        errorMessage := QuotaMessage;
      } else if Includes(errorMessage, "Requested entity was not found") {
        errorMessage := KeyMessage;
        apiKeySelected := false;
      }
      error := errorMessage;
      isLoading := false;
    }
  }
}
