/** `parseGeminiResponse` (src/lib/services/ai.ts, with an identical copy
    inline in src/app/api/chat/route.ts): turn the model's raw text into a
    `{message, citations?}` record, falling back to the raw text when the
    text is not the structured reply. */
module ReplyParser {
  import opened Common
  import opened Strings
  import opened Json

  /** The parsed reply. `citations` is whatever array the model produced:
      the `Citation[]` annotation in the source is a compile-time cast, so
      its elements are never checked. */
  datatype Reply = Reply(message: string, citations: Option<seq<JsonValue>>)

  const JsonFenceTag: string := "```json"
  const FenceTag: string := "```"

  /** A global regular-expression replace of `tag` followed by `\s` repeated
      (greedy) with "", for a literal `tag`: scanning left to right, every
      occurrence of `tag` is deleted together with the whitespace run after
      it, and the scan resumes after that run. */
  function RemoveTagged(s: string, tag: string): (r: string)
    requires tag != []
    ensures |r| <= |s|
    decreases |s|
  {
    if s == [] then []
    else if IsPrefix(tag, s) then RemoveTagged(TrimStart(s[|tag|..]), tag)
    else [s[0]] + RemoveTagged(s[1..], tag)
  }

  /** The cleaned text handed to the decoder: language-tagged fences first,
      then bare fences, then `trim`. It has no outer whitespace and no fence
      left in it. */
  function Clean(raw: string): (r: string)
    ensures r == [] || (!IsWhitespace(r[0]) && !IsWhitespace(r[|r| - 1]))
    ensures !Contains(r, FenceTag)
  {
    var stripped := RemoveTagged(RemoveTagged(raw, JsonFenceTag), FenceTag);
    RemovalLeavesNoFence(RemoveTagged(raw, JsonFenceTag));
    TrimKeepsAbsent(stripped, FenceTag);
    Trim(stripped)
  }

  /** The shape check on the decoded value: `message` must be a string;
      `citations` is kept only when it is an array. */
  function Structured(v: JsonValue): Option<Reply>
  {
    match Member(v, "message")
    case Some(JString(m)) =>
      Some(Reply(m, match Member(v, "citations")
                    case Some(JArray(xs)) => Some(xs)
                    case _ => None))
    case _ => None
  }

  /** `parseGeminiResponse`: total; the structured reply when the cleaned
      text decodes to one, otherwise the raw, uncleaned text with no
      citations. */
  function ParseReply(decode: Decoder, raw: string): (r: Reply)
    ensures r.citations.Some? ==>
              decode(Clean(raw)).Some? && Structured(decode(Clean(raw)).value) == Some(r)
    ensures decode(Clean(raw)).None? ==> r == Reply(raw, None)
  {
    match decode(Clean(raw))
    case Some(v) => (match Structured(v) case Some(reply) => reply case None => Reply(raw, None))
    case None => Reply(raw, None)
  }

  /** When the decoded `message` is a string, the result carries it, and
      carries `citations` exactly when the decoded `citations` is an array. */
  lemma {:induction false} ParseReplyStructured(decode: Decoder, raw: string, v: JsonValue, m: string)
    requires decode(Clean(raw)) == Some(v)
    requires Member(v, "message") == Some(JString(m))
    ensures ParseReply(decode, raw) ==
              Reply(m, if Member(v, "citations").Some? && Member(v, "citations").value.JArray?
                       then Some(Member(v, "citations").value.elements) else None)
  {
    ParseReplyOfShape(decode, raw, v, CitedReply(v, m));
  }

  /** The reply the shape check builds around a string `message`. */
  function CitedReply(v: JsonValue, m: string): (r: Reply)
    requires Member(v, "message") == Some(JString(m))
    ensures Structured(v) == Some(r)
  {
    Reply(m, if Member(v, "citations").Some? && Member(v, "citations").value.JArray?
             then Some(Member(v, "citations").value.elements) else None)
  }

  lemma {:induction false} ParseReplyOfShape(decode: Decoder, raw: string, v: JsonValue, r: Reply)
    requires decode(Clean(raw)) == Some(v)
    requires Structured(v) == Some(r)
    ensures ParseReply(decode, raw) == r
  {
  }

  /** When `message` is missing or not a string, the result is the raw text
      with no citations (a failed decode is in the contract of ParseReply). */
  lemma {:induction false} ParseReplyFallback(decode: Decoder, raw: string, v: JsonValue)
    requires decode(Clean(raw)) == Some(v)
    requires !(Member(v, "message").Some? && Member(v, "message").value.JString?)
    ensures ParseReply(decode, raw) == Reply(raw, None)
  {
  }

  /** The JSON object the system prompt asks the model to emit for a reply. */
  function ToJson(reply: Reply): JsonValue
  {
    JObject(map["message" := JString(reply.message)] +
            (if reply.citations.Some? then map["citations" := JArray(reply.citations.value)] else map[]))
  }

  /** Round trip: a reply emitted in the requested format is read back
      exactly, whatever fences and outer whitespace surround it. */
  lemma {:induction false} ParseReplyRoundTrip(decode: Decoder, raw: string, reply: Reply)
    requires decode(Clean(raw)) == Some(ToJson(reply))
    ensures ParseReply(decode, raw) == reply
  {
    StructuredToJson(reply);
    ParseReplyOfShape(decode, raw, ToJson(reply), reply);
  }

  /** The shape check accepts every reply in the requested format and
      recovers it unchanged. */
  lemma {:induction false} StructuredToJson(reply: Reply)
    ensures Structured(ToJson(reply)) == Some(reply)
  {
    var v := ToJson(reply);
    assert Member(v, "message") == Some(JString(reply.message));
    if reply.citations.Some? {
      assert Member(v, "citations") == Some(JArray(reply.citations.value));
    } else {
      assert "citations" !in v.members;
    }
  }

  /** After every bare fence has been removed, none is left: a fence that
      survived would have to start at a copied character, and the scan would
      have removed it there. */
  lemma {:induction false} RemovalLeavesNoFence(s: string)
    ensures !Contains(RemoveTagged(s, FenceTag), FenceTag)
    decreases |s|
  {
    if s == [] {
    } else if IsPrefix(FenceTag, s) {
      RemovalLeavesNoFence(TrimStart(s[3..]));
    } else {
      var r := RemoveTagged(s, FenceTag);
      CopiedHead(s);
      RemovalLeavesNoFence(s[1..]);
      NoFenceAtHead(s);
      assert r[1..] == RemoveTagged(s[1..], FenceTag);
    }
  }

  /** Where no tag starts, the scan copies one character and moves on. */
  lemma {:induction false} CopiedHead(s: string)
    requires s != [] && !IsPrefix(FenceTag, s)
    ensures RemoveTagged(s, FenceTag) == [s[0]] + RemoveTagged(s[1..], FenceTag)
  {
  }

  /** A text that does not start with a fence does not start with one once
      its fences are removed. */
  lemma {:induction false} NoFenceAtHead(s: string)
    requires !IsPrefix(FenceTag, s)
    ensures !IsPrefix(FenceTag, RemoveTagged(s, FenceTag))
  {
    var r := RemoveTagged(s, FenceTag);
    FenceChars(r);
    if s != [] {
      CopiedHead(s);
      assert r[0] == s[0];
      if s[0] == '`' && |s| >= 2 {
        BacktickNotFence(s);
        CopiedHead(s[1..]);
        assert r[1] == s[1];
        if s[1] == '`' && |s| >= 3 {
          FenceChars(s);
          BacktickNotFence(s[1..]);
          assert s[1..][1..] == s[2..];
          CopiedHead(s[2..]);
          assert r[2] == s[2];
        }
      }
    }
  }

  /** Starting with a fence is starting with three backticks. */
  lemma FenceChars(s: string)
    ensures IsPrefix(FenceTag, s) <==> |s| >= 3 && s[0] == '`' && s[1] == '`' && s[2] == '`'
  {
    if |s| >= 3 {
      assert s[..3] == [s[0], s[1], s[2]];
    }
  }

  /** A backtick that does not open a fence is not followed by one. */
  lemma {:induction false} BacktickNotFence(s: string)
    requires s != [] && s[0] == '`' && !IsPrefix(FenceTag, s)
    ensures !IsPrefix(FenceTag, s[1..])
  {
    if |s| >= 4 {
      assert s[1..][..3] == s[1..4];
      assert s[..3] == [s[0]] + s[1..3];
    }
  }

  /** Removing tags from a text whose head holds no backtick leaves that head
      as it is. */
  lemma {:induction false} RemoveTaggedAfterPlain(p: string, q: string, tag: string)
    requires tag != [] && tag[0] == '`' && '`' !in p
    ensures RemoveTagged(p + q, tag) == p + RemoveTagged(q, tag)
    decreases |p|
  {
    if p == [] {
      assert p + q == q;
    } else {
      assert (p + q)[0] == p[0];
      assert !IsPrefix(tag, p + q);
      assert (p + q)[1..] == p[1..] + q;
      RemoveTaggedAfterPlain(p[1..], q, tag);
    }
  }

  /** A text with no fence in it passes both removals unchanged. */
  lemma {:induction false} RemoveTaggedAbsent(s: string, tag: string)
    requires tag != [] && IsPrefix(FenceTag, tag)
    requires !Contains(s, FenceTag)
    ensures RemoveTagged(s, tag) == s
    decreases |s|
  {
    if s != [] {
      FenceOpensTag(s, tag);
      RemoveTaggedAbsent(s[1..], tag);
    }
  }

  lemma {:induction false} FenceOpensTag(s: string, tag: string)
    requires IsPrefix(FenceTag, tag)
    ensures IsPrefix(tag, s) ==> IsPrefix(FenceTag, s)
  {
    if IsPrefix(tag, s) {
      assert s[..3] == tag[..3];
    }
  }

  /** Cleaning is idempotent: cleaned text is already clean. */
  lemma {:induction false} CleanIdempotent(raw: string)
    ensures Clean(Clean(raw)) == Clean(raw)
  {
    var c := Clean(raw);
    RemoveTaggedAbsent(c, JsonFenceTag);
    RemoveTaggedAbsent(c, FenceTag);
    TrimOfTrimmed(c);
  }

  /** Text without backticks holds no fence marker, so cleaning it only
      trims it: nothing of the payload is lost. */
  lemma {:induction false} CleanWithoutBackticks(p: string)
    requires '`' !in p
    ensures Clean(p) == Trim(p)
  {
    RemoveTaggedAfterPlain(p, [], JsonFenceTag);
    RemoveTaggedAfterPlain(p, [], FenceTag);
    assert p + [] == p;
  }

  /** The payload `p` wrapped the way models usually fence JSON. */
  function Fenced(p: string): string
  {
    JsonFenceTag + "\n" + p + "\n" + FenceTag
  }

  /** Cleaning a fenced payload gives what cleaning the bare payload gives,
      for any payload without backticks. */
  lemma {:induction false} FencedCleansLikeBare(p: string)
    requires '`' !in p
    ensures Clean(Fenced(p)) == Clean(p)
    ensures Clean(Fenced(p)) == Trim(p)
  {
    FencedStripped(p);
    CleanWithoutBackticks(p);
  }

  /** Both removals on a fenced payload leave, once trimmed, the trimmed
      payload. */
  lemma {:induction false} FencedStripped(p: string)
    requires '`' !in p
    ensures Trim(RemoveTagged(RemoveTagged(Fenced(p), JsonFenceTag), FenceTag)) == Trim(p)
  {
    var q := TrimStart(p);
    FencedFirstPass(p);
    if q == [] {
      assert RemoveTagged("```", FenceTag) == [] by {
        assert IsPrefix(FenceTag, "```");
      }
    } else {
      FencedSecondPass(q);
      TrimAfterLineFeed(q);
    }
  }

  /** The first removal takes the opening tag with the whitespace after it
      and leaves the closing fence. */
  lemma {:induction false} FencedFirstPass(p: string)
    requires '`' !in p
    ensures RemoveTagged(Fenced(p), JsonFenceTag) ==
              if TrimStart(p) == [] then "```" else TrimStart(p) + "\n```"
  {
    var q := TrimStart(p);
    OpeningTagRemoved(p);
    TrimStartConcat(p, "\n```");
    if q == [] {
      EmptyPayloadFirstPass();
    } else {
      PayloadFirstPass(p, q);
    }
  }

  lemma EmptyPayloadFirstPass()
    ensures RemoveTagged(TrimStart("\n```"), JsonFenceTag) == "```"
  {
    assert TrimStart("\n```") == "```";
    ClosingFenceKept();
  }

  lemma {:induction false} PayloadFirstPass(p: string, q: string)
    requires '`' !in p && q == TrimStart(p) && q != []
    ensures RemoveTagged(q + "\n```", JsonFenceTag) == q + "\n```"
  {
    assert '`' !in q by {
      assert q == p[|p| - |q|..];
    }
    RemoveTaggedAfterPlain(q, "\n```", JsonFenceTag);
    ClosingFenceKept();
  }

  lemma {:induction false} OpeningTagRemoved(p: string)
    ensures RemoveTagged(Fenced(p), JsonFenceTag) == RemoveTagged(TrimStart(p + "\n```"), JsonFenceTag)
  {
    var s := Fenced(p);
    assert IsPrefix(JsonFenceTag, s) && s[7..] == "\n" + (p + "\n```");
  }

  lemma ClosingFenceKept()
    ensures RemoveTagged("```", JsonFenceTag) == "```"
    ensures RemoveTagged("\n```", JsonFenceTag) == "\n```"
  {
    assert RemoveTagged("`", JsonFenceTag) == "`";
    assert RemoveTagged("``", JsonFenceTag) == "``";
    assert RemoveTagged("```", JsonFenceTag) == "```";
  }

  /** The second removal takes the closing fence. */
  lemma {:induction false} FencedSecondPass(q: string)
    requires '`' !in q
    ensures RemoveTagged(q + "\n```", FenceTag) == q + "\n"
  {
    RemoveTaggedAfterPlain(q, "\n```", FenceTag);
    assert RemoveTagged("```", FenceTag) == [] by {
      assert IsPrefix(FenceTag, "```");
    }
    assert RemoveTagged("\n```", FenceTag) == "\n";
  }

  lemma {:induction false} TrimAfterLineFeed(q: string)
    requires q != [] && !IsWhitespace(q[0])
    ensures Trim(q + "\n") == TrimEnd(q)
  {
    assert TrimStart(q + "\n") == q + "\n";
    assert (q + "\n")[..|q|] == q;
  }

  /** So the structured result is the same for fenced and bare input. */
  lemma {:induction false} FencedParsesLikeBare(decode: Decoder, p: string)
    requires '`' !in p
    requires decode(Clean(p)).Some? && Structured(decode(Clean(p)).value).Some?
    ensures ParseReply(decode, Fenced(p)) == ParseReply(decode, p)
  {
    FencedCleansLikeBare(p);
  }
}
