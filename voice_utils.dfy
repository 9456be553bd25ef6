/** The pure helpers of the voice input path: transcript formatting, keyword
    classification of spoken commands, and the table from speech-engine error
    codes to user-facing messages. */
module VoiceUtils {
  import opened JsStrings
  import opened Optional

  /** `formatTranscript`: trim, then upper-case the first character only. */
  function FormatTranscript(text: string): (r: string)
    ensures text == "" ==> r == ""
    ensures IsTrimmed(r)
    ensures |r| == |Trim(text)|
    ensures r != "" ==> r[0] == UpperChar(Trim(text)[0])
    ensures forall i :: 1 <= i < |r| ==> r[i] == Trim(text)[i]
  {
    if text == "" then ""
    else
      var formatted := Trim(text);
      if |formatted| > 0 then [UpperChar(formatted[0])] + formatted[1..] else formatted
  }

  /** Formatting an already formatted transcript changes nothing. */
  lemma FormatTranscriptIdempotent(text: string)
    ensures FormatTranscript(FormatTranscript(text)) == FormatTranscript(text)
  {
    var r := FormatTranscript(text);
    if r != "" {
      var t := Trim(text);
      assert r == [UpperChar(t[0])] + t[1..];
      TrimOfTrimmed(r);
      UpperCharIdempotent(t[0]);
      assert FormatTranscript(r) == [UpperChar(r[0])] + r[1..];
    }
  }

  datatype CommandType = Query | Action | Unknown

  const ActionKeywords: seq<string> := ["add", "create", "delete", "remove", "new", "update", "set"]
  const QueryKeywords: seq<string> := ["show", "what", "how", "when", "list", "display", "get", "chart", "graph"]

  /** `keywords.some(keyword => text.startsWith(keyword))`. */
  predicate StartsWithSome(text: string, keywords: seq<string>) {
    exists k :: 0 <= k < |keywords| && StartsWith(text, keywords[k])
  }

  /** `detectCommandType`: action keywords are tried first, then query
      keywords, on the lower-cased text. */
  function DetectCommandType(text: string): (r: CommandType)
    ensures r == Action <==> StartsWithSome(Lower(text), ActionKeywords)
    ensures r == Query <==> !StartsWithSome(Lower(text), ActionKeywords) && StartsWithSome(Lower(text), QueryKeywords)
  {
    var lowerText := Lower(text);
    if StartsWithSome(lowerText, ActionKeywords) then Action
    else if StartsWithSome(lowerText, QueryKeywords) then Query
    else Unknown
  }

  /** Classification ignores letter case. */
  lemma DetectCommandTypeIgnoresCase(a: string, b: string)
    requires Lower(a) == Lower(b)
    ensures DetectCommandType(a) == DetectCommandType(b)
  {
  }

  /** Matching is by prefix, not by whole word: whatever follows a keyword
      does not change the classification. */
  lemma {:induction false} DetectCommandTypeByPrefix(text: string, more: string)
    requires DetectCommandType(text) != Unknown
    ensures DetectCommandType(text + more) == DetectCommandType(text)
  {
    var lt, lm := Lower(text), Lower(text + more);
    assert lt <= lm by {
      assert forall i :: 0 <= i < |lt| ==> lm[i] == lt[i] by {
        forall i | 0 <= i < |lt| ensures lm[i] == lt[i] {
          assert (text + more)[i] == text[i];
        }
      }
    }
    if DetectCommandType(text) == Action {
      PrefixesCompose(lt, lm, ActionKeywords);
    } else {
      PrefixesCompose(lt, lm, QueryKeywords);
      PrefixesDecide(lt, lm);
    }
  }

  lemma PrefixesCompose(t: string, u: string, keywords: seq<string>)
    requires t <= u && StartsWithSome(t, keywords)
    ensures StartsWithSome(u, keywords)
  {
    var k :| 0 <= k < |keywords| && StartsWith(t, keywords[k]);
    assert StartsWith(u, keywords[k]);
  }

  /** No action keyword shares its first two letters with a query keyword. */
  lemma KeywordsDisjoint()
    ensures forall a, q :: 0 <= a < |ActionKeywords| && 0 <= q < |QueryKeywords| ==>
              |ActionKeywords[a]| >= 2 && |QueryKeywords[q]| >= 2 &&
              (ActionKeywords[a][0] != QueryKeywords[q][0] || ActionKeywords[a][1] != QueryKeywords[q][1])
  {
  }

  /** So a text that starts with a query keyword cannot gain an action
      keyword by growing. */
  lemma PrefixesDecide(t: string, u: string)
    requires t <= u && StartsWithSome(t, QueryKeywords)
    ensures !StartsWithSome(u, ActionKeywords)
  {
    var q :| 0 <= q < |QueryKeywords| && StartsWith(t, QueryKeywords[q]);
    KeywordsDisjoint();
    assert u[0] == QueryKeywords[q][0] && u[1] == QueryKeywords[q][1];
  }

  /** One error record: a code, a message and whether trying again may help. */
  datatype VoiceErrorType = VoiceErrorType(code: string, message: string, canRetry: bool)

  /** `error?.error || 'unknown'`: a missing error object, a missing field and
      an empty code all read as `unknown`. */
  function ErrorCode(errorField: Option<string>): (code: string)
    ensures code != ""
    ensures errorField.Some? && errorField.value != "" ==> code == errorField.value
  {
    if errorField.Some? && errorField.value != "" then errorField.value else "unknown"
  }

  /** `getVoiceErrorMessage`. */
  function GetVoiceErrorMessage(errorField: Option<string>): (r: VoiceErrorType)
    ensures r.code in {"permission-denied", "no-speech", "audio-capture", "network", "unknown"}
    ensures r.code == "permission-denied" <==> ErrorCode(errorField) in {"not-allowed", "permission-denied"}
    ensures !r.canRetry <==> ErrorCode(errorField) in {"not-allowed", "permission-denied", "audio-capture"}
    ensures ErrorCode(errorField) !in {"not-allowed", "permission-denied", "no-speech", "audio-capture", "network"}
            ==> r == VoiceErrorType("unknown", "Could not understand. Try again.", true)
  {
    match ErrorCode(errorField)
    case "not-allowed" => VoiceErrorType("permission-denied", "Microphone permission denied. Please allow access.", false)
    case "permission-denied" => VoiceErrorType("permission-denied", "Microphone permission denied. Please allow access.", false)
    case "no-speech" => VoiceErrorType("no-speech", "No speech detected. Please try again.", true)
    case "audio-capture" => VoiceErrorType("audio-capture", "No microphone found.", false)
    case "network" => VoiceErrorType("network", "Network error. Check connection.", true)
    case _ => VoiceErrorType("unknown", "Could not understand. Try again.", true)
  }

  /** A missing error yields the retryable `unknown` record; `not-allowed`
      and `permission-denied` yield the same record. */
  lemma GetVoiceErrorMessageDefaults()
    ensures GetVoiceErrorMessage(None) == GetVoiceErrorMessage(Some(""))
    ensures GetVoiceErrorMessage(None).code == "unknown" && GetVoiceErrorMessage(None).canRetry
    ensures GetVoiceErrorMessage(Some("not-allowed")) == GetVoiceErrorMessage(Some("permission-denied"))
  {
  }
}
