/** The chat route (app/api/gemini-chat+api.ts): checks the request, picks how to call the model and
    shapes the conversation history so that it starts with a user turn. The model itself, the
    environment and the request parsing are inputs. */
module GeminiChatApi {
  import opened Common
  import Seqs

  /** A JSON field as the route sees it: absent or null, a string, or some other value. */
  datatype Field = Absent | Str(s: string) | OtherValue

  /** A history item as posted by the client. */
  datatype IncomingItem = IncomingItem(role: string, content: string)

  /** The parsed body: `null`, or an object with the two fields (a missing history is `?? []`). */
  datatype Body = NullBody | Body(message: Field, conversationHistory: Option<seq<IncomingItem>>)

  /** What `request.json()` gives: the body, or a thrown error with its description. */
  datatype ParsedRequest = Parsed(body: Body) | ParseThrew(details: string)

  /** A turn of the model's chat history; `role` is "user" or "model". */
  datatype ChatTurn = ChatTurn(role: string, text: string)

  /** The call made on the model: plain generation of a prompt, or a chat started with a history
      and sent the message. */
  datatype ModelCall = Generate(prompt: string) | SendInChat(history: seq<ChatTurn>, message: string)

  /** How the model call ends: the response text, or a thrown error with its description. */
  datatype ModelOutcome = Generated(text: string) | ModelThrew(details: string)

  /** The JSON response with its HTTP status. */
  datatype Response = Response(status: int, success: bool, message: Option<string>,
                               error: Option<string>, details: Option<string>)

  const DEFAULT_SYSTEM_PROMPT: string :=
    "You are an empathetic AI psychiatrist. Respond kindly and non-judgmentally, ask open-ended questions to help the user explore feelings, avoid making definitive medical diagnoses, and provide supportive resources when appropriate."

  const MESSAGE_REQUIRED: string := "message is required"
  const MISSING_KEY: string := "Server not configured: missing GOOGLE_API_KEY"
  const INTERNAL_ERROR: string := "Internal server error"

  /** `process.env.GEMINI_SYSTEM_PROMPT || default`. */
  function SystemPrompt(env: Option<string>): (p: string)
    ensures env.Some? && env.value != [] ==> p == env.value
    ensures env.None? || env.value == [] ==> p == DEFAULT_SYSTEM_PROMPT
    ensures p != []
  {
    if env.Some? && env.value != [] then env.value else DEFAULT_SYSTEM_PROMPT
  }

  predicate IsUserItem(m: IncomingItem)
  {
    m.role == "user"
  }

  /** `role === 'user' ? 'user' : 'model'`. */
  function ToTurn(m: IncomingItem): (t: ChatTurn)
    ensures t.text == m.content
    ensures t.role == "user" <==> m.role == "user"
    ensures t.role in {"user", "model"}
  {
    ChatTurn(if m.role == "user" then "user" else "model", m.content)
  }

  function MapToTurns(ms: seq<IncomingItem>): (ts: seq<ChatTurn>)
    ensures |ts| == |ms|
    ensures forall i :: 0 <= i < |ms| ==> ts[i] == ToTurn(ms[i])
  {
    seq(|ms|, i requires 0 <= i < |ms| => ToTurn(ms[i]))
  }

  /** Mapping an item put in front puts its turn in front. */
  lemma MapToTurnsCons(m: IncomingItem, ms: seq<IncomingItem>)
    ensures MapToTurns([m] + ms) == [ToTurn(m)] + MapToTurns(ms)
  {
    var l, r := MapToTurns([m] + ms), [ToTurn(m)] + MapToTurns(ms);
    forall i | 0 <= i < |l| ensures l[i] == r[i] {
      if i > 0 { assert ([m] + ms)[i] == ms[i - 1]; }
    }
  }

  /** The history from its first user item on; empty when it has none. */
  function FromFirstUser(history: seq<IncomingItem>): (r: seq<IncomingItem>)
    ensures r == [] <==> forall i :: 0 <= i < |history| ==> !IsUserItem(history[i])
    ensures |r| <= |history| && r == history[|history| - |r|..]
    ensures r != [] ==> IsUserItem(r[0]) && forall j :: 0 <= j < |history| - |r| ==> !IsUserItem(history[j])
  {
    match Seqs.FindIndex(history, IsUserItem)
    case Some(k) => history[k..]
    case None => []
  }

  /** The model call for a valid message: plain generation without history; the system prompt
      put before the message when no user item is left; otherwise a chat whose history is the
      system prompt as a user turn followed by the history from its first user item on. */
  function CallFor(message: string, history: seq<IncomingItem>, systemPrompt: string): (call: ModelCall)
    ensures history == [] ==> call == Generate(message)
    ensures history != [] && FromFirstUser(history) == [] ==>
              call == Generate(systemPrompt + "\n\n" + message)
    ensures FromFirstUser(history) != [] ==>
              call == SendInChat([ChatTurn("user", systemPrompt)] + MapToTurns(FromFirstUser(history)), message)
  {
    if |history| > 0 then
      var sliced := FromFirstUser(history);
      if |sliced| == 0 then Generate(systemPrompt + "\n\n" + message)
      else
        var augmented := [IncomingItem("user", systemPrompt)] + sliced;
        MapToTurnsCons(IncomingItem("user", systemPrompt), sliced);
        SendInChat(MapToTurns(augmented), message)
    else Generate(message)
  }

  /** The chat history always starts with the system prompt as a user turn, its next turn is a
      user turn as well, and every role is "user" or "model". */
  lemma ChatHistoryStartsWithUser(message: string, history: seq<IncomingItem>, systemPrompt: string)
    requires CallFor(message, history, systemPrompt).SendInChat?
    ensures var h := CallFor(message, history, systemPrompt).history;
      && |h| >= 2 && h[0] == ChatTurn("user", systemPrompt) && h[1].role == "user"
      && forall i :: 0 <= i < |h| ==> h[i].role in {"user", "model"}
  {
    var sliced := FromFirstUser(history);
    var h := [ChatTurn("user", systemPrompt)] + MapToTurns(sliced);
    assert h[1] == ToTurn(sliced[0]);
    forall i | 0 <= i < |h| ensures h[i].role in {"user", "model"} {
      if i > 0 { assert h[i] == ToTurn(sliced[i - 1]); }
    }
  }

  /** The reply for a thrown error. */
  function ServerError(details: string): (r: Response)
    ensures r.status == 500 && !r.success && r.error == Some(INTERNAL_ERROR) && r.details == Some(details)
  {
    Response(500, false, None, Some(INTERNAL_ERROR), Some(details))
  }

  /** POST: a missing, empty or non-string message is a 400; a missing or empty API key a 500;
      otherwise the model is called and its text returned with 200. Anything thrown, while
      reading the body or calling the model, is a 500. */
  function Post(request: ParsedRequest, apiKey: Option<string>, promptEnv: Option<string>,
                model: ModelCall -> ModelOutcome): (r: Response)
    ensures request.ParseThrew? ==> r == ServerError(request.details)
    ensures r.status in {200, 400, 500}
    ensures r.success <==> r.status == 200
    ensures r.status == 400 <==> request.Parsed? && !ValidMessage(request.body)
    ensures r.status == 400 ==> r.error == Some(MESSAGE_REQUIRED)
    ensures request.Parsed? && ValidMessage(request.body) && (apiKey.None? || apiKey.value == []) ==>
              r == Response(500, false, None, Some(MISSING_KEY), None)
    ensures r.status == 200 ==>
              && request.Parsed? && ValidMessage(request.body) && apiKey.Some? && apiKey.value != []
              && var call := CallFor(request.body.message.s, History(request.body), SystemPrompt(promptEnv));
                 model(call).Generated? && r.message == Some(model(call).text)
    ensures request.Parsed? && ValidMessage(request.body) && apiKey.Some? && apiKey.value != [] ==>
              var outcome := model(CallFor(request.body.message.s, History(request.body), SystemPrompt(promptEnv)));
              && (outcome.Generated? ==> r.status == 200 && r.message == Some(outcome.text))
              && (outcome.ModelThrew? ==> r == ServerError(outcome.details))
  {
    match request
    case ParseThrew(details) => ServerError(details)
    case Parsed(body) =>
      if !ValidMessage(body) then Response(400, false, None, Some(MESSAGE_REQUIRED), None)
      else if apiKey.None? || apiKey.value == [] then Response(500, false, None, Some(MISSING_KEY), None)
      else
        match model(CallFor(body.message.s, History(body), SystemPrompt(promptEnv)))
        case Generated(text) => Response(200, true, Some(text), None, None)
        case ModelThrew(details) => ServerError(details)
  }

  /** `!message || typeof message !== 'string'` fails: the message is a non-empty string. */
  predicate ValidMessage(body: Body)
  {
    body.Body? && body.message.Str? && body.message.s != []
  }

  /** `body?.conversationHistory ?? []`. */
  function History(body: Body): (h: seq<IncomingItem>)
    ensures body.Body? && body.conversationHistory.Some? ==> h == body.conversationHistory.value
    ensures body.NullBody? || body.conversationHistory.None? ==> h == []
  {
    if body.Body? && body.conversationHistory.Some? then body.conversationHistory.value else []
  }

  /** A request whose history holds a user item is answered from a chat, never from plain
      generation: the model always sees the history when there is a user turn in it. */
  lemma UserHistoryUsesChat(message: string, history: seq<IncomingItem>, systemPrompt: string, i: nat)
    requires i < |history| && IsUserItem(history[i])
    ensures CallFor(message, history, systemPrompt).SendInChat?
    ensures CallFor(message, history, systemPrompt).history[1..] == MapToTurns(FromFirstUser(history))
  {
    assert FromFirstUser(history) != [];
  }
}
