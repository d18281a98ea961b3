/** The per-session conversation store and the store-mutation sequence of the
    `POST /chat` handler of index.js. The upstream model call is a parameter
    that answers a prompt with a reply or an error; each request runs as one
    atomic step. */
module ChatServer {
  import opened Messages
  import opened ContextTrim
  import opened Prompt

  /** What the upstream call (`callMistral`) yields for a prompt: the reply
      text or the error it throws. */
  datatype UpstreamResult = Reply(text: string) | UpstreamError(detail: string)

  /** The handler's JSON answer: 200 `{ reply }`, 400 `{ error }`,
      500 `{ error }` when no API token is configured, or 500
      `{ error, detail }` when the upstream call fails. */
  datatype Response =
    | Ok(reply: string)
    | BadRequest(error: string)
    | Misconfigured(error: string)
    | ServerError(error: string, detail: string)

  const MissingToken: string := "HF_TOKEN hiányzik a szerveren (.env)!"
  const MissingFields: string := "sessionId és message kötelező mezők."
  const ModelFailure: string := "Szerver hiba vagy modell hiba."

  /** `!sessionId || !message` is false: both fields present and non-empty. */
  predicate ValidRequest(sessionId: Option<string>, message: Option<string>)
  {
    sessionId.Some? && sessionId.value != "" && message.Some? && message.value != ""
  }

  /** A stored conversation as the store keeps it: the persona system message
      first, and no other system message. */
  predicate Seeded(convo: seq<Message>, persona: string)
  {
    convo != [] && convo[0] == Message(System, persona) && NoSystem(convo[1..])
  }

  /** Every conversation of the store is seeded. */
  predicate AllSeeded(store: map<string, seq<Message>>, persona: string)
  {
    forall id :: id in store ==> Seeded(store[id], persona)
  }

  lemma AllSeededUpdate(store: map<string, seq<Message>>, persona: string, id: string, convo: seq<Message>)
    requires AllSeeded(store, persona) && Seeded(convo, persona)
    ensures AllSeeded(store[id := convo], persona)
  {
  }

  lemma StoreOverwrite(store: map<string, seq<Message>>, id: string, first: seq<Message>, second: seq<Message>)
    ensures store[id := first][id := second] == store[id := second]
  {
  }

  /** The conversation `getOrCreateConversation` hands out for `id`. */
  function Existing(store: map<string, seq<Message>>, id: string, persona: string): seq<Message>
  {
    if id in store then store[id] else [Message(System, persona)]
  }

  /** The prompt the handler sends upstream for the conversation `convo`:
      the trimmed copy, its system message as the system text and the rest
      as the turns. */
  function PromptFor(convo: seq<Message>, maxTurns: nat, maxChars: nat): string
  {
    var trimmed := Trimmed(convo, maxTurns, maxChars);
    var system := FirstSystem(trimmed);
    MistralPrompt(NonSystem(trimmed), if system.Some? then system.value.content else "")
  }

  /** Appending one non-system message keeps a conversation seeded. */
  lemma SeededAppend(convo: seq<Message>, persona: string, m: Message)
    requires Seeded(convo, persona) && m.role != System
    ensures Seeded(convo + [m], persona)
  {
    assert (convo + [m])[1..] == convo[1..] + [m];
  }

  /** Trimming a seeded conversation keeps the persona message in front and
      no other system message, and with `maxTurns >= 1` at most
      `2 * maxTurns` turns behind it. */
  lemma TrimmedSeeded(convo: seq<Message>, persona: string, maxTurns: nat, maxChars: nat)
    requires Seeded(convo, persona)
    ensures var t := Trimmed(convo, maxTurns, maxChars);
      Seeded(t, persona) && (maxTurns >= 1 ==> |t| <= 2 * maxTurns + 1)
  {
    var t := Trimmed(convo, maxTurns, maxChars);
    assert FirstSystem(convo) == Some(Message(System, persona));
    TrimmedShape(convo, maxTurns, maxChars);
    TrimmedTurnBound(convo, maxTurns, maxChars);
    var k := NonSystem(t);
    assert t == [Message(System, persona)] + k;
    assert t[1..] == k;
  }

  /** The prompt for a seeded conversation that has just received a user
      message ends with that message as an open block: the newest message
      always reaches the model, however much older context is trimmed. */
  lemma PromptEndsWithNewMessage(convo: seq<Message>, persona: string, text: string, maxTurns: nat, maxChars: nat)
    requires Seeded(convo, persona)
    ensures EndsWith(PromptFor(convo + [Message(User, text)], maxTurns, maxChars), text + InstClose)
  {
    var u := Message(User, text);
    var c := convo + [u];
    SeededAppend(convo, persona, u);
    NonSystemAppend(convo, [u]);
    assert NonSystem([u]) == [u];
    var ns := NonSystem(c);
    assert ns[|ns| - 1] == u;
    TrimmedKeepsLatest(c, maxTurns, maxChars);
    var t := Trimmed(c, maxTurns, maxChars);
    TrimmedShape(c, maxTurns, maxChars);
    var kt := NonSystem(t);
    assert t == WithSystem(FirstSystem(t), kt);
    assert kt != [] && kt[|kt| - 1] == u;
    NonSystemIdempotent(t);
    var system := FirstSystem(t);
    PromptEndsOpen(kt, if system.Some? then system.value.content else "");
  }

  class ConversationStore {
    /** Session id to message list (the module-level `conversations` Map). */
    var conversations: map<string, seq<Message>>
    /** The persona system text built from the profile document. */
    const persona: string
    /** `MAX_TURNS` and `MAX_CHARS`. */
    const maxTurns: nat
    const maxChars: nat
    /** Whether `HF_TOKEN` is set (non-empty) in the environment. */
    const tokenConfigured: bool

    /** Every stored conversation starts with the persona message and holds
        no other system message. */
    ghost predicate Valid()
      reads this
    {
      AllSeeded(conversations, persona)
    }

    constructor (persona: string, maxTurns: nat, maxChars: nat, tokenConfigured: bool)
      ensures Valid() && conversations == map[]
      ensures this.persona == persona && this.maxTurns == maxTurns && this.maxChars == maxChars
      ensures this.tokenConfigured == tokenConfigured
    {
      this.persona := persona;
      this.maxTurns := maxTurns;
      this.maxChars := maxChars;
      this.tokenConfigured := tokenConfigured;
      conversations := map[];
    }

    /** `getOrCreateConversation`: an unseen id is seeded with exactly the
        persona system message; existing sessions and other keys are left
        as they are. */
    method GetOrCreateConversation(sessionId: string) returns (convo: seq<Message>)
      requires Valid()
      modifies this
      ensures Valid()
      ensures conversations == old(conversations)[sessionId := Existing(old(conversations), sessionId, persona)]
      ensures sessionId in old(conversations) ==> conversations == old(conversations)
      ensures convo == conversations[sessionId] == Existing(old(conversations), sessionId, persona)
    {
      if sessionId !in conversations {
        assert Seeded([Message(System, persona)], persona);
        AllSeededUpdate(conversations, persona, sessionId, [Message(System, persona)]);
        conversations := conversations[sessionId := [Message(System, persona)]];
      }
      convo := conversations[sessionId];
    }

    /** The `POST /chat` handler. Without a configured token, and for a
        request without a session id or message, the request is refused
        before the store is touched. Otherwise the user message is
        appended to the stored list itself (the handler pushes onto the array
        the map holds); only when the upstream answers is the reply appended
        and the trimmed list stored, so after a failure the store keeps the
        user message and the list stays untrimmed. */
    method Chat(sessionId: Option<string>, message: Option<string>, upstream: string -> UpstreamResult)
      returns (response: Response)
      requires Valid()
      modifies this
      ensures Valid()
      ensures !tokenConfigured ==>
        response == Misconfigured(MissingToken) && conversations == old(conversations)
      ensures tokenConfigured && !ValidRequest(sessionId, message) ==>
        response == BadRequest(MissingFields) && conversations == old(conversations)
      ensures tokenConfigured && ValidRequest(sessionId, message) ==>
        var id := sessionId.value;
        var convo := Existing(old(conversations), id, persona) + [Message(User, message.value)];
        match upstream(PromptFor(convo, maxTurns, maxChars))
        case Reply(reply) =>
          && response == Ok(reply)
          && conversations == old(conversations)[id := Trimmed(convo + [Message(Assistant, reply)], maxTurns, maxChars)]
        case UpstreamError(detail) =>
          && response == ServerError(ModelFailure, detail)
          && conversations == old(conversations)[id := convo]
    {
      if !tokenConfigured {
        return Misconfigured(MissingToken);
      }
      if sessionId.None? || sessionId.value == "" || message.None? || message.value == "" {
        return BadRequest(MissingFields);
      }
      var id := sessionId.value;
      ghost var before := conversations;
      var convo := GetOrCreateConversation(id);
      assert convo == Existing(before, id, persona);

      // the push lands in the list the map holds
      var user := Message(User, message.value);
      SeededAppend(convo, persona, user);
      AllSeededUpdate(conversations, persona, id, convo + [user]);
      convo := convo + [user];
      conversations := conversations[id := convo];
      assert conversations == before[id := convo];

      var trimmed := TrimContext(convo, maxTurns, maxChars);
      var systemMsg := FirstSystem(trimmed);
      var nonSystem := NonSystem(trimmed);
      var prompt := BuildMistralPrompt(nonSystem, if systemMsg.Some? then systemMsg.value.content else "");
      assert prompt == PromptFor(convo, maxTurns, maxChars);

      match upstream(prompt)
      case UpstreamError(detail) =>
        response := ServerError(ModelFailure, detail);
      case Reply(reply) =>
        var assistant := Message(Assistant, reply);
        SeededAppend(convo, persona, assistant);
        AllSeededUpdate(conversations, persona, id, convo + [assistant]);
        convo := convo + [assistant];
        StoreOverwrite(before, id, convo[..|convo| - 1], convo);
        conversations := conversations[id := convo];
        var stored := TrimContext(convo, maxTurns, maxChars);
        TrimmedSeeded(convo, persona, maxTurns, maxChars);
        AllSeededUpdate(conversations, persona, id, stored);
        StoreOverwrite(before, id, convo, stored);
        conversations := conversations[id := stored];
        response := Ok(reply);
    }
  }
}
