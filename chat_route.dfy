/** src/app/api/chat/route.ts: the `POST /api/chat` handler. It validates
    the request, builds the prompt from the system prompt, the recent
    conversation and the new message, sends it to the model, and turns the
    outcome into the HTTP response. */
module ChatRoute {
  import opened Common
  import opened Strings
  import opened Json
  import opened ReplyParser
  import opened AiService
  import opened Config

  /** One turn of the client-supplied conversation history. */
  datatype Turn = Turn(isUser: bool, content: string)

  /** The request body: unreadable (`request.json()` threw), or the two
      fields read from it. `conversationHistory` is `None` when it is
      absent or not an array. */
  datatype RequestBody =
    | Unreadable(error: Thrown)
    | Fields(message: Option<JsonValue>, conversationHistory: Option<seq<Turn>>)

  datatype ResponseBody =
    | ErrorBody(error: string)
    | ChatBody(response: string, citations: Option<seq<JsonValue>>)

  /** What `NextResponse.json` is given: a status and a JSON body. */
  datatype HttpResponse = HttpResponse(status: nat, body: ResponseBody)

  /** How many of the most recent turns go into the prompt. */
  const HistoryWindow: nat := 10

  const InvalidMessageError: string := "Message is required and must be a string"
  const MissingKeyError: string := "Gemini API key not configured"

  /** `message` is present, a string, and not empty. */
  predicate IsValidMessage(message: Option<JsonValue>) {
    message.Some? && message.value.JString? && message.value.str != ""
  }

  /** `process.env.GEMINI_API_KEY` is set and not empty. */
  predicate GeminiKeySet(env: Environment) {
    "GEMINI_API_KEY" in env && env["GEMINI_API_KEY"] != ""
  }

  /** `conversationHistory.slice(-10)`: the last min(10, n) turns, in their
      original order. */
  function RecentHistory(history: seq<Turn>): (recent: seq<Turn>)
    ensures |recent| == if |history| < HistoryWindow then |history| else HistoryWindow
    ensures recent == history[|history| - |recent|..]
  {
    if |history| <= HistoryWindow then history else history[|history| - HistoryWindow..]
  }

  function RenderTurn(turn: Turn): string
  {
    (if turn.isUser then "User" else "You") + ": " + turn.content + "\n"
  }

  /** The lines of the turns, one per turn, in order. */
  function RenderTurns(turns: seq<Turn>): string
  {
    if turns == [] then "" else RenderTurns(turns[..|turns| - 1]) + RenderTurn(turns[|turns| - 1])
  }

  const HistoryHeader: string := "Recent conversation:\n"
  /** What follows the system prompt, and what closes the history block. */
  const BlankLine: string := "\n\n"
  const LineFeed: string := "\n"

  /** The "Recent conversation" block: present only for a non-empty history. */
  function HistoryBlock(history: Option<seq<Turn>>): string
  {
    if history.Some? && |history.value| > 0 then
      HistoryHeader + RenderTurns(RecentHistory(history.value)) + LineFeed
    else ""
  }

  /** The cue that closes every prompt. */
  function MessageCue(message: string): string
  {
    "User: " + message + "\n\nYou:"
  }

  /** The prompt the route sends to the model. */
  function ConversationContext(systemPrompt: string, history: Option<seq<Turn>>, message: string): string
  {
    systemPrompt + BlankLine + HistoryBlock(history) + MessageCue(message)
  }

  /** Builds the prompt the way the route does, growing one string: the
      system prompt, the recent turns one line each, then the new message.
      It always opens with the system prompt and closes with the message and
      the reply cue. */
  method BuildContext(systemPrompt: string, history: Option<seq<Turn>>, message: string)
    returns (context: string)
    ensures context == ConversationContext(systemPrompt, history, message)
    ensures IsPrefix(systemPrompt + BlankLine, context)
    ensures IsSuffix(MessageCue(message), context)
  {
    context := systemPrompt + BlankLine;
    ghost var opening := context;
    if history.Some? && |history.value| > 0 {
      var recent := RecentHistory(history.value);
      context := AppendTurns(context + HistoryHeader, recent);
      context := context + LineFeed;
      assert context == opening + HistoryBlock(history) by {
        assert context == ((opening + HistoryHeader) + RenderTurns(recent)) + LineFeed;
      }
    } else {
      assert context == opening + HistoryBlock(history) by {
        assert opening + [] == opening;
      }
    }
    context := context + MessageCue(message);
    ContextAffixes(systemPrompt, history, message);
  }

  /** The `forEach` over the window: appends one line per turn, in order. */
  method AppendTurns(prefix: string, turns: seq<Turn>) returns (grown: string)
    ensures grown == prefix + RenderTurns(turns)
  {
    grown := prefix;
    ghost var lines := "";
    var i := 0;
    while i < |turns|
      invariant 0 <= i <= |turns|
      invariant lines == RenderTurns(turns[..i])
      invariant grown == prefix + lines
    {
      RenderTurnsSnoc(turns, i);
      var line := RenderTurn(turns[i]);
      assert (prefix + lines) + line == prefix + (lines + line);
      grown := grown + line;
      lines := lines + line;
      i := i + 1;
    }
    assert turns[..|turns|] == turns;
  }

  lemma {:induction false} RenderTurnsSnoc(turns: seq<Turn>, i: nat)
    requires i < |turns|
    ensures RenderTurns(turns[..i + 1]) == RenderTurns(turns[..i]) + RenderTurn(turns[i])
  {
    assert turns[..i + 1][..i] == turns[..i];
  }

  /** Every prompt opens with the system prompt and a blank line and closes
      with the message cue, whatever the history. */
  lemma {:induction false} ContextAffixes(systemPrompt: string, history: Option<seq<Turn>>, message: string)
    ensures IsPrefix(systemPrompt + BlankLine, ConversationContext(systemPrompt, history, message))
    ensures IsSuffix(MessageCue(message), ConversationContext(systemPrompt, history, message))
  {
    AffixesOfConcat(systemPrompt + BlankLine, HistoryBlock(history), MessageCue(message));
  }

  lemma {:induction false} AffixesOfConcat(a: string, b: string, c: string)
    ensures IsPrefix(a, a + b + c)
    ensures IsSuffix(c, a + b + c)
  {
    assert (a + b + c)[..|a|] == a;
    assert (a + b + c)[|a + b|..] == c;
  }

  /** Rendering is done turn by turn: the lines of two runs of turns are
      the lines of the first run followed by those of the second. */
  lemma {:induction false} RenderTurnsConcat(a: seq<Turn>, b: seq<Turn>)
    ensures RenderTurns(a + b) == RenderTurns(a) + RenderTurns(b)
    decreases |b|
  {
    if b == [] {
      assert a + b == a;
    } else {
      var front, last := b[..|b| - 1], b[|b| - 1];
      var ab := a + b;
      assert ab[..|ab| - 1] == a + front;
      assert ab[|ab| - 1] == last;
      RenderTurnsConcat(a, front);
      calc {
        RenderTurns(ab);
        RenderTurns(a + front) + RenderTurn(last);
        (RenderTurns(a) + RenderTurns(front)) + RenderTurn(last);
        RenderTurns(a) + (RenderTurns(front) + RenderTurn(last));
        RenderTurns(a) + RenderTurns(b);
      }
    }
  }

  /** Turn `k` of the window is rendered as its own `User:` or `You:` line,
      after the lines of the turns before it and before those after it. */
  lemma {:induction false} RenderedTurnInPlace(turns: seq<Turn>, k: nat)
    requires k < |turns|
    ensures RenderTurns(turns) ==
              RenderTurns(turns[..k]) +
              (if turns[k].isUser then "User: " else "You: ") + turns[k].content + "\n" +
              RenderTurns(turns[k + 1..])
  {
    assert turns == turns[..k] + [turns[k]] + turns[k + 1..];
    RenderTurnsConcat(turns[..k] + [turns[k]], turns[k + 1..]);
    RenderTurnsConcat(turns[..k], [turns[k]]);
    assert [turns[k]][..0] == [];
  }

  /** An absent history and an empty one give the same prompt: the system
      prompt, then directly the message cue. */
  lemma {:induction false} ContextWithoutHistory(systemPrompt: string, message: string)
    ensures ConversationContext(systemPrompt, None, message) == systemPrompt + "\n\n" + MessageCue(message)
    ensures ConversationContext(systemPrompt, Some([]), message) == systemPrompt + "\n\n" + MessageCue(message)
  {
  }

  /** `citations` is dropped from the payload when it is absent or empty,
      and passed on unchanged otherwise. */
  function OmitEmptyCitations(citations: Option<seq<JsonValue>>): (kept: Option<seq<JsonValue>>)
    ensures kept.Some? <==> citations.Some? && |citations.value| > 0
    ensures kept.Some? ==> kept == citations
  {
    if citations.Some? && |citations.value| > 0 then citations else None
  }

  predicate IsKeyError(e: Thrown) {
    e.ErrorObject? && (Contains(e.message, "API_KEY_INVALID") || Contains(e.message, "invalid API key"))
  }

  predicate IsQuotaError(e: Thrown) {
    e.ErrorObject? && (Contains(e.message, "QUOTA_EXCEEDED") || Contains(e.message, "quota"))
  }

  predicate IsSafetyError(e: Thrown) {
    e.ErrorObject? && Contains(e.message, "SAFETY")
  }

  /** The `catch` clause: the thrown error's message is matched against the
      known substrings in order, and the first match decides the status. */
  function ClassifyError(e: Thrown): (r: HttpResponse)
    ensures r.body.ErrorBody?
    ensures r.status == 401 <==> IsKeyError(e)
    ensures r.status == 429 <==> !IsKeyError(e) && IsQuotaError(e)
    ensures r.status == 400 <==> !IsKeyError(e) && !IsQuotaError(e) && IsSafetyError(e)
    ensures r.status == 500 <==> !IsKeyError(e) && !IsQuotaError(e) && !IsSafetyError(e)
  {
    if IsKeyError(e) then HttpResponse(401, ErrorBody("Invalid API key"))
    else if IsQuotaError(e) then HttpResponse(429, ErrorBody("API quota exceeded"))
    else if IsSafetyError(e) then HttpResponse(400, ErrorBody("Content filtered for safety reasons"))
    else HttpResponse(500, ErrorBody("Failed to generate response. Please try again."))
  }

  /** Whatever surrounds a matched substring, the classification still
      finds it: an error whose message embeds a key error is a key error. */
  lemma {:induction false} ClassifyEmbeddedKeyError(before: string, after: string)
    ensures ClassifyError(ErrorObject(before + "API_KEY_INVALID" + after)).status == 401
  {
    ContainsInfix(before, "API_KEY_INVALID", after);
  }

  /** `POST`: the response, and the prompt sent to the model (`None` when
      the route answers before any request is made). */
  method Post(env: Environment, systemPrompt: string, decode: Decoder, request: RequestBody, upstream: Upstream)
    returns (response: HttpResponse, sent: Option<string>)
    ensures request.Unreadable? ==> response == ClassifyError(request.error) && sent == None
    ensures request.Fields? && !IsValidMessage(request.message) ==>
              response == HttpResponse(400, ErrorBody(InvalidMessageError)) && sent == None
    ensures request.Fields? && IsValidMessage(request.message) && !GeminiKeySet(env) ==>
              response == HttpResponse(500, ErrorBody(MissingKeyError)) && sent == None
    ensures request.Fields? && IsValidMessage(request.message) && GeminiKeySet(env) ==>
              sent == Some(ConversationContext(systemPrompt, request.conversationHistory, request.message.value.str))
    ensures sent.Some? && upstream.Unreachable? ==> response == ClassifyError(upstream.error)
    ensures sent.Some? && upstream.Answered? && !IsOk(upstream.status) ==>
              response == HttpResponse(upstream.status,
                                       ErrorBody(UpstreamErrorMessage(upstream.status, upstream.errorText)))
    ensures sent.Some? && upstream.Answered? && IsOk(upstream.status) && !HasText(upstream.text) ==>
              response == HttpResponse(500, ErrorBody(NoTextMessage))
    ensures sent.Some? && upstream.Answered? && IsOk(upstream.status) && HasText(upstream.text) ==>
              var reply := ParseReply(decode, upstream.text.value);
              response == HttpResponse(200, ChatBody(reply.message, OmitEmptyCitations(reply.citations)))
  {
    sent := None;
    if request.Unreadable? {
      return ClassifyError(request.error), None;
    }
    if !IsValidMessage(request.message) {
      return HttpResponse(400, ErrorBody(InvalidMessageError)), None;
    }
    if !GeminiKeySet(env) {
      return HttpResponse(500, ErrorBody(MissingKeyError)), None;
    }
    var context := BuildContext(systemPrompt, request.conversationHistory, request.message.value.str);
    sent := Some(context);
    match upstream
    case Unreachable(e) =>
      response := ClassifyError(e);
    case Answered(status, errorText, text) =>
      if !IsOk(status) {
        response := HttpResponse(status, ErrorBody(UpstreamErrorMessage(status, errorText)));
      } else if !HasText(text) {
        response := HttpResponse(500, ErrorBody(NoTextMessage));
      } else {
        var reply := ParseReply(decode, text.value);
        response := HttpResponse(200, ChatBody(reply.message, OmitEmptyCitations(reply.citations)));
      }
  }
}
