/**
 * The chat forwarder of backend/app/services/claude.py.
 *
 * The service holds a fixed model catalog and a default model id. Sending a
 * message resolves the model, translates the caller's history plus the new
 * user turn into the upstream message list, posts it, and on a 2xx answer
 * extracts the reply and the token usage and appends the user turn and the
 * assistant turn to the caller's history list, in place.
 *
 * The upstream call is an input: `Upstream` is what the one POST produced.
 * The clock is an input too: `now` stamps the two appended messages.
 */
module Claude {
  import opened Wrappers

  /** The `max_tokens` ceiling every request carries. */
  const MaxTokens: int := 1024

  /** The text of the `IndexError` raised when the reply's `content` list is empty. */
  const IndexErrorText: string := "list index out of range"

  /** Price per million tokens, in and out. */
  datatype Pricing = Pricing(input: real, output: real)

  /** One entry of the configured catalog; `current` may be left out of an entry. */
  datatype ModelEntry = ModelEntry(
    id: string, name: string, description: string, pricing: Pricing, current: Option<bool>)

  /** One message of a conversation; `model` names the model that wrote an assistant message. */
  datatype Message = Message(
    role: string, content: string, timestamp: Option<int>, model: Option<string>)

  /** One element of the upstream `messages` list. */
  datatype ApiMessage = ApiMessage(role: string, content: string)

  /** The JSON body posted upstream. */
  datatype Payload = Payload(model: string, messages: seq<ApiMessage>, maxTokens: int)

  /** One element of the reply's `content` list; `text` may be missing. */
  datatype ContentBlock = ContentBlock(text: Option<string>)

  /** The reply's `usage` object; either count may be missing. */
  datatype UsageCounts = UsageCounts(inputTokens: Option<int>, outputTokens: Option<int>)

  /** The body of an upstream answer, as far as the service reads it. */
  datatype ReplyBody =
    | NotJson(message: string)
    | Json(content: Option<seq<ContentBlock>>, usage: Option<UsageCounts>)

  /** What the POST to the upstream chat API produced. */
  datatype Upstream =
    | Unreachable(message: string)                          // transport error or timeout
    | Responded(status: int, statusError: string, body: ReplyBody)  // `statusError`: what a non-2xx status raises

  /** Token counts reported back to the caller. */
  datatype TokenUsage = TokenUsage(inputTokens: int, outputTokens: int)

  /** The exception `send_message` raises; `message` is its text. */
  datatype ChatFailure =
    | TransportFailed(message: string)
    | StatusRejected(status: int, message: string)
    | BodyUnreadable(message: string)

  /** The dictionary `send_message` returns. */
  datatype ChatResult = ChatResult(
    response: string, history: seq<Message>, tokenUsage: Option<TokenUsage>, modelUsed: string)

  /** The first catalog position whose id is `id`, or `|catalog|` when there is none. */
  function FirstWithId(catalog: seq<ModelEntry>, id: string): (k: nat)
    ensures k <= |catalog|
    ensures forall j :: 0 <= j < k ==> catalog[j].id != id
    ensures k < |catalog| ==> catalog[k].id == id
    decreases |catalog|
  {
    if catalog == [] then 0
    else if catalog[0].id == id then 0
    else 1 + FirstWithId(catalog[1..], id)
  }

  /** Exact-key catalog lookup: the first entry with id `id`, absent exactly when no entry has it. */
  function FindModel(catalog: seq<ModelEntry>, id: string): (r: Option<ModelEntry>)
    ensures r.None? <==> forall j :: 0 <= j < |catalog| ==> catalog[j].id != id
    ensures r.Some? ==> r.value.id == id && r.value == catalog[FirstWithId(catalog, id)]
  {
    var k := FirstWithId(catalog, id);
    if k < |catalog| then Some(catalog[k]) else None
  }

  /** Python truthiness of an optional string: present and non-empty. */
  predicate Given(id: Option<string>) {
    id.Some? && id.value != ""
  }

  /** The model a request uses: the requested id when one is given, the default otherwise. */
  function ResolveModel(defaultModel: string, modelId: Option<string>): (model: string)
    ensures Given(modelId) ==> model == modelId.value
    ensures !Given(modelId) ==> model == defaultModel
  {
    if Given(modelId) then modelId.value else defaultModel
  }

  /** A missing history is the empty history. */
  function HistoryOrEmpty(history: Option<seq<Message>>): seq<Message> {
    if history.None? then [] else history.value
  }

  /** The history in the upstream format: role and content of each message, in order. */
  function Translate(history: seq<Message>): (ms: seq<ApiMessage>)
    ensures |ms| == |history|
    ensures forall i :: 0 <= i < |history| ==> ms[i] == ApiMessage(history[i].role, history[i].content)
    decreases |history|
  {
    if history == [] then []
    else
      var last := history[|history| - 1];
      Translate(history[..|history| - 1]) + [ApiMessage(last.role, last.content)]
  }

  /** The upstream `messages` list: the translated history followed by the new user turn. */
  function Outgoing(history: seq<Message>, message: string): (ms: seq<ApiMessage>)
    ensures |ms| == |history| + 1
    ensures forall i :: 0 <= i < |history| ==> ms[i] == ApiMessage(history[i].role, history[i].content)
    ensures ms[|history|] == ApiMessage("user", message)
  {
    Translate(history) + [ApiMessage("user", message)]
  }

  /** `raise_for_status` lets exactly the 2xx statuses through. */
  predicate IsSuccess(status: int) {
    200 <= status < 300
  }

  /**
   * The reply text: the `text` of the first `content` element, `""` when
   * `content` is missing or its first element has no `text`; an empty
   * `content` list raises `IndexError`.
   */
  function ExtractReply(content: Option<seq<ContentBlock>>): (r: Result<string, ChatFailure>)
    ensures r.Failure? <==> content == Some([])
    ensures r.Failure? ==> r.error == BodyUnreadable(IndexErrorText)
    ensures content.None? ==> r == Success("")
    ensures content.Some? && content.value != [] ==> r == Success(content.value[0].text.GetOr(""))
  {
    match content
    case None => Success("")
    case Some(blocks) =>
      if blocks == [] then Failure(BodyUnreadable(IndexErrorText))
      else Success(blocks[0].text.GetOr(""))
  }

  /** Token usage: absent exactly when the reply has no `usage`; a missing count is 0. */
  function ExtractUsage(usage: Option<UsageCounts>): (r: Option<TokenUsage>)
    ensures r.None? <==> usage.None?
    ensures r.Some? ==> r.value.inputTokens == usage.value.inputTokens.GetOr(0)
    ensures r.Some? ==> r.value.outputTokens == usage.value.outputTokens.GetOr(0)
  {
    match usage
    case None => None
    case Some(u) => Some(TokenUsage(u.inputTokens.GetOr(0), u.outputTokens.GetOr(0)))
  }

  /** The user turn appended to the history. */
  function UserTurn(message: string, now: int): Message {
    Message("user", message, Some(now), None)
  }

  /** The assistant turn appended to the history, tagged with the model that wrote it. */
  function AssistantTurn(reply: string, model: string, now: int): Message {
    Message("assistant", reply, Some(now), Some(model))
  }

  /**
   * What `send_message` returns or raises: the reference for
   * `ClaudeService.SendMessage`. It succeeds exactly on a 2xx answer with a
   * JSON body whose `content` is not an empty list; then the history has
   * grown by the user turn and the assistant turn, the earlier entries
   * untouched.
   */
  function Forward(
    defaultModel: string, message: string, history: Option<seq<Message>>,
    modelId: Option<string>, now: int, upstream: Upstream): (r: Result<ChatResult, ChatFailure>)
    ensures r.Success? <==>
      upstream.Responded? && IsSuccess(upstream.status) &&
      upstream.body.Json? && upstream.body.content != Some([])
    ensures upstream.Unreachable? ==> r == Failure(TransportFailed(upstream.message))
    ensures upstream.Responded? && !IsSuccess(upstream.status) ==>
      r == Failure(StatusRejected(upstream.status, upstream.statusError))
    ensures r.Success? ==>
      var h := HistoryOrEmpty(history);
      var res := r.value;
      res.modelUsed == ResolveModel(defaultModel, modelId) &&
      res.response == ExtractReply(upstream.body.content).value &&
      res.tokenUsage == ExtractUsage(upstream.body.usage) &&
      |res.history| == |h| + 2 &&
      res.history[..|h|] == h &&
      res.history[|h|] == UserTurn(message, now) &&
      res.history[|h| + 1] == AssistantTurn(res.response, res.modelUsed, now)
  {
    var h := HistoryOrEmpty(history);
    var model := ResolveModel(defaultModel, modelId);
    match upstream
    case Unreachable(msg) => Failure(TransportFailed(msg))
    case Responded(status, statusError, body) =>
      if !IsSuccess(status) then Failure(StatusRejected(status, statusError))
      else
        match body
        case NotJson(msg) => Failure(BodyUnreadable(msg))
        case Json(content, usage) =>
          match ExtractReply(content)
          case Failure(e) => Failure(e)
          case Success(reply) =>
            Success(ChatResult(
              reply, h + [UserTurn(message, now), AssistantTurn(reply, model, now)],
              ExtractUsage(usage), model))
  }

  /** A missing history is treated exactly as the empty history. */
  lemma ForwardMissingHistoryIsEmpty(
    defaultModel: string, message: string, modelId: Option<string>, now: int, upstream: Upstream)
    ensures Forward(defaultModel, message, None, modelId, now, upstream)
         == Forward(defaultModel, message, Some([]), modelId, now, upstream)
  {
  }

  /** The caller's conversation history: a list that `SendMessage` appends to in place. */
  class ConversationHistory {
    var messages: seq<Message>

    constructor (initial: seq<Message>)
      ensures messages == initial
    {
      messages := initial;
    }
  }

  /** The forwarder, configured with a default model id and the model catalog. */
  class ClaudeService {
    const defaultModel: string
    const availableModels: seq<ModelEntry>

    constructor (defaultModel: string, catalog: seq<ModelEntry>)
      ensures this.defaultModel == defaultModel && availableModels == catalog
    {
      this.defaultModel := defaultModel;
      availableModels := catalog;
    }

    /** `get_available_models`: the configured catalog itself, neither filtered nor reordered. */
    function GetAvailableModels(): (models: seq<ModelEntry>)
      ensures |models| == |availableModels|
      ensures forall i :: 0 <= i < |models| ==> models[i] == availableModels[i]
    {
      availableModels
    }

    /** `get_model_info`: a linear search that returns the first entry with the given id. */
    method GetModelInfo(modelId: string) returns (info: Option<ModelEntry>)
      ensures info == FindModel(availableModels, modelId)
    {
      for i := 0 to |availableModels|
        invariant forall j :: 0 <= j < i ==> availableModels[j].id != modelId
      {
        if availableModels[i].id == modelId {
          return Some(availableModels[i]);
        }
      }
      return None;
    }

    /** The message-list loop of `send_message`: one upstream entry per history message, then the user turn. */
    static method BuildMessages(h: seq<Message>, message: string) returns (messages: seq<ApiMessage>)
      ensures messages == Outgoing(h, message)
    {
      messages := [];
      for i := 0 to |h|
        invariant messages == Translate(h[..i])
      {
        assert h[..i + 1][..i] == h[..i];
        messages := messages + [ApiMessage(h[i].role, h[i].content)];
      }
      assert h[..|h|] == h;
      messages := messages + [ApiMessage("user", message)];
    }

    /**
     * `send_message`: builds and posts the payload, then on success appends the
     * user turn and the assistant turn to `history` (when the caller gave
     * one); on any modelled failure `history` is left as it was. (A first
     * `content` element whose `text` is `null` is not modelled: there the code
     * appends the user turn and then fails building the assistant turn.)
     */
    method SendMessage(
      message: string, history: ConversationHistory?, modelId: Option<string>,
      now: int, upstream: Upstream)
      returns (payload: Payload, result: Result<ChatResult, ChatFailure>)
      modifies history
      ensures var h := if history == null then [] else old(history.messages);
        payload == Payload(ResolveModel(defaultModel, modelId), Outgoing(h, message), MaxTokens)
      ensures result == Forward(
        defaultModel, message,
        if history == null then None else Some(old(history.messages)), modelId, now, upstream)
      ensures history != null ==>
        history.messages == if result.Success? then result.value.history else old(history.messages)
    {
      var h: seq<Message> := if history == null then [] else history.messages;
      var model := if Given(modelId) then modelId.value else defaultModel;

      var messages := BuildMessages(h, message);
      payload := Payload(model, messages, MaxTokens);

      match upstream {
        case Unreachable(msg) =>
          result := Failure(TransportFailed(msg));
        case Responded(status, statusError, body) =>
          if !IsSuccess(status) {
            result := Failure(StatusRejected(status, statusError));
          } else if body.NotJson? {
            result := Failure(BodyUnreadable(body.message));
          } else {
            var blocks := if body.content.None? then [ContentBlock(None)] else body.content.value;
            if blocks == [] {
              result := Failure(BodyUnreadable(IndexErrorText));
            } else {
              var reply := blocks[0].text.GetOr("");
              var tokenUsage: Option<TokenUsage> := None;
              if body.usage.Some? {
                tokenUsage := Some(TokenUsage(
                  body.usage.value.inputTokens.GetOr(0), body.usage.value.outputTokens.GetOr(0)));
              }
              var user, assistant := UserTurn(message, now), AssistantTurn(reply, model, now);
              if history != null {
                history.messages := history.messages + [user];
                history.messages := history.messages + [assistant];
              }
              result := Success(ChatResult(reply, h + [user, assistant], tokenUsage, model));
            }
          }
      }
    }
  }
}
