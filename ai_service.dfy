/** src/lib/services/ai.ts: the query optimizer and the response generator.
    The generateContent requests themselves are not modelled: each operation
    is handed what its request came to. */
module AiService {
  import opened Common
  import opened Strings
  import opened Json
  import opened ReplyParser

  /** An HTTP status as `fetch` reports it for a received response. */
  type HttpStatus = s: nat | 200 <= s <= 599 witness 200

  /** `response.ok`. */
  predicate IsOk(status: HttpStatus) {
    200 <= status <= 299
  }

  /** What a generateContent request came to: either something threw
      (`fetch` rejected, or the body could not be read or decoded), or a
      response arrived with its status, its body read as text (read only
      when the status is not ok) and the candidate text
      `candidates[0].content.parts[0].text` of its body read as JSON (read
      only when the status is ok; `None` when any step of that path is
      missing). */
  datatype Upstream =
    | Unreachable(error: Thrown)
    | Answered(status: HttpStatus, errorText: string, text: Option<string>)

  /** What the optimizer's request came to. The optimizer reads the body as
      JSON whatever the status, so only the candidate text matters. */
  datatype OptimizerCall = CallThrew(error: Thrown) | CallAnswered(text: Option<string>)

  /** Whether the candidate text is present and truthy (a non-empty string). */
  predicate HasText(text: Option<string>) {
    text.Some? && text.value != ""
  }

  /** `optimizeSearchQuery`: the trimmed model text when there is any, the
      user's own query otherwise (on a throw, or a missing or empty text).
      The prompt it sends (OPTIMIZATION_PROMPT) is not part of this model. */
  function OptimizeSearchQuery(userQuery: string, call: OptimizerCall): (query: string)
    ensures call.CallAnswered? && HasText(call.text) ==> query == Trim(call.text.value)
    ensures !(call.CallAnswered? && HasText(call.text)) ==> query == userQuery
    ensures query == userQuery || query == [] ||
            (!IsWhitespace(query[0]) && !IsWhitespace(query[|query| - 1]))
  {
    match call
    case CallAnswered(text) => if HasText(text) then Trim(text.value) else userQuery
    case CallThrew(_) => userQuery
  }

  /** A model text made only of whitespace is truthy, so it is used: its trim
      is the empty string and the user's query is dropped. */
  lemma {:induction false} OptimizeWhitespaceOnly(userQuery: string, text: string)
    requires text != "" && forall i :: 0 <= i < |text| ==> IsWhitespace(text[i])
    ensures OptimizeSearchQuery(userQuery, CallAnswered(Some(text))) == ""
  {
    AllWhitespaceTrimsAway(text);
  }

  /** The message of the error thrown (and, in the chat route, returned) for
      a response whose status is not ok. */
  function UpstreamErrorMessage(status: HttpStatus, errorText: string): string
  {
    "Gemini API error: " + Decimal(status) + " - " + errorText
  }

  const NoTextMessage: string := "No response text received from Gemini API"

  /** `generateGeminiResponse`: fails with the status in the message when
      the response is not ok, fails when there is no candidate text, and
      otherwise parses the text. A throw from `fetch` or from reading the
      body propagates unchanged. */
  function GenerateGeminiResponse(decode: Decoder, upstream: Upstream): (r: Result<Reply, Thrown>)
    ensures upstream.Unreachable? ==> r == Failure(upstream.error)
    ensures upstream.Answered? && !IsOk(upstream.status) ==>
              r == Failure(ErrorObject(UpstreamErrorMessage(upstream.status, upstream.errorText)))
    ensures upstream.Answered? && IsOk(upstream.status) && !HasText(upstream.text) ==>
              r == Failure(ErrorObject(NoTextMessage))
    ensures upstream.Answered? && IsOk(upstream.status) && HasText(upstream.text) ==>
              r == Success(ParseReply(decode, upstream.text.value))
  {
    match upstream
    case Unreachable(e) => Failure(e)
    case Answered(status, errorText, text) =>
      if !IsOk(status) then Failure(ErrorObject(UpstreamErrorMessage(status, errorText)))
      else if !HasText(text) then Failure(ErrorObject(NoTextMessage))
      else Success(ParseReply(decode, text.value))
  }

  /** The failure message of a non-ok response contains the HTTP status,
      and `parseInt` of the text after the fixed prefix reads it back. */
  lemma {:induction false} UpstreamErrorCarriesStatus(status: HttpStatus, errorText: string)
    ensures Contains(UpstreamErrorMessage(status, errorText), Decimal(status))
    ensures ParseInt(UpstreamErrorMessage(status, errorText)[|"Gemini API error: "|..]) == Num(status)
  {
    var prefix := "Gemini API error: ";
    var rest := " - " + errorText;
    var msg := UpstreamErrorMessage(status, errorText);
    assert msg == prefix + Decimal(status) + rest;
    ContainsInfix(prefix, Decimal(status), rest);
    assert msg[|prefix|..] == Decimal(status) + rest;
    ParseIntDecimal(status, rest);
  }

  /** A generation succeeds exactly on an ok response with candidate text,
      and a reply whose message is not that text came from a successful
      decode. */
  lemma {:induction false} GeneratedReplyFromText(decode: Decoder, upstream: Upstream)
    ensures GenerateGeminiResponse(decode, upstream).Success? <==>
              upstream.Answered? && IsOk(upstream.status) && HasText(upstream.text)
    ensures var r := GenerateGeminiResponse(decode, upstream);
            r.Success? && r.value.citations.None? && r.value.message != upstream.text.value ==>
              decode(Clean(upstream.text.value)).Some?
  {
  }
}
