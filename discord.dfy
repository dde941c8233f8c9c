/**
 * The Discord bot: the `!clearhistory` command, and the handling of one
 * inbound message — ignored when the bot wrote it, answered with history in a
 * direct-message channel, answered without history in a public one — with
 * replies cut to Discord's 2000-character message limit.
 */
module Discord {
  import opened PyText
  import opened Redis
  import opened Gemini
  import opened Chunking
  import opened Wrappers

  /** Discord's message-size limit, in characters. */
  const MaxMessageLength := 2000

  /** The message that invokes the history-clearing command under the "!" prefix. */
  const ClearHistoryCommandText := "!clearhistory"

  const HistoryClearedNotice := "Your message history has been cleared."

  /** Sent in a direct-message channel when no reply could be generated. */
  const DmApology := "Sorry, I couldn't access your history. Please try again later."

  /** An inbound message: its author's id, its text, and whether it came in a direct-message channel. */
  datatype DiscordMessage = DiscordMessage(authorId: string, content: string, inDm: bool)

  /** What handling one message leaves in the store, and the messages sent back, in order. */
  datatype Step = Step(store: Keyspace, sent: seq<string>)

  /** The history a direct message is answered from: the stored window of five entries, then the new message. */
  function DmHistory(store: Keyspace, authorId: string, content: string, fetchUp: bool): seq<string>
  {
    (if fetchUp then Window(Stored(store, authorId), DefaultMaxLength) else []) + ["User: " + content]
  }

  /**
   * The direct-message branch: read the history, trim the stored list to five
   * entries, generate; on success store the new pair and send the reply in
   * chunks, on failure send the apology.
   */
  function DmStep(store: Keyspace, authorId: string, content: string, gemini: GeminiService,
                  backend: string -> Reply, net: Reachability): Step
  {
    var history := DmHistory(store, authorId, content, net.fetch);
    var trimmed := if net.trim then LTrim(store, authorId, -DefaultMaxLength, -1) else store;
    match gemini.GenerateResponse(List(history), backend)
    case Ok(reply) =>
      Step(if net.add then RPush(trimmed, authorId, ["User: " + content, "Bot: " + reply]) else trimmed,
           Chunks(reply, MaxMessageLength))
    case Err(_) => Step(trimmed, [DmApology])
  }

  /** The public-channel branch: generate from the message alone; a failure escapes the handler and nothing is sent. */
  function PublicStep(store: Keyspace, content: string, gemini: GeminiService, backend: string -> Reply): Step
  {
    match gemini.GenerateResponse(List([content]), backend)
    case Ok(reply) => Step(store, Chunks(reply, MaxMessageLength))
    case Err(_) => Step(store, [])
  }

  /** `on_message`, after command processing. */
  function OnMessageStep(store: Keyspace, botUserId: string, message: DiscordMessage, gemini: GeminiService,
                         backend: string -> Reply, net: Reachability): Step
  {
    if message.authorId == botUserId then Step(store, [])
    else if message.inDm then DmStep(store, message.authorId, message.content, gemini, backend, net)
    else PublicStep(store, message.content, gemini, backend)
  }

  /** A direct message is answered from the last five stored entries, oldest first, then "User: " and the message. */
  lemma DmGenerationInput(store: Keyspace, authorId: string, content: string)
    ensures var h := Stored(store, authorId);
      DmHistory(store, authorId, content, true) == h[|h| - Min(5, |h|)..] + ["User: " + content]
    ensures DmHistory(store, authorId, content, false) == ["User: " + content]
  {
    WindowIsLastEntries(Stored(store, authorId), DefaultMaxLength);
  }

  /**
   * The prompt for a direct message ends with the new "User: " line, after
   * the stored history, whatever the read returned.
   */
  lemma DmPromptEndsWithMessage(store: Keyspace, authorId: string, content: string, gemini: GeminiService, fetchUp: bool)
    ensures var p := gemini.Prompt(List(DmHistory(store, authorId, content, fetchUp)));
      |p| >= |"User: " + content| && p[|p| - |"User: " + content|..] == "User: " + content
  {
    var history := DmHistory(store, authorId, content, fetchUp);
    var text := MessageText(List(history));
    var p := gemini.Prompt(List(history));
    assert history[|history| - 1] == "User: " + content;
    HistoryEnds(history);
    assert p[|p| - |text|..] == text;
    assert p[|p| - |"User: " + content|..] == text[|text| - |"User: " + content|..];
  }

  /**
   * When a direct message is answered: the replies put together are the reply,
   * each at most 2000 characters; and, with the store reachable, the user's
   * list is its last five entries followed by the new User/Bot pair.
   */
  lemma DmSuccess(store: Keyspace, authorId: string, content: string, gemini: GeminiService,
                  backend: string -> Reply, net: Reachability, reply: string)
    requires gemini.GenerateResponse(List(DmHistory(store, authorId, content, net.fetch)), backend) == Ok(reply)
    ensures var step := DmStep(store, authorId, content, gemini, backend, net);
      && step.sent == Chunks(reply, MaxMessageLength)
      && Concat(step.sent) == reply
      && (forall i :: 0 <= i < |step.sent| ==> |step.sent[i]| <= MaxMessageLength)
      && (net.trim && net.add ==>
            Stored(step.store, authorId)
              == Window(Stored(store, authorId), DefaultMaxLength) + ["User: " + content, "Bot: " + reply]
            && |Stored(step.store, authorId)| <= DefaultMaxLength + 2)
  {
    ChunksShape(reply, MaxMessageLength);
    TrimMatchesWindow(store, authorId, DefaultMaxLength);
    WindowIsLastEntries(Stored(store, authorId), DefaultMaxLength);
  }

  /** When generation fails in a direct message: exactly one apology, and nothing appended (the trim still happened). */
  lemma DmFailure(store: Keyspace, authorId: string, content: string, gemini: GeminiService,
                  backend: string -> Reply, net: Reachability)
    requires gemini.GenerateResponse(List(DmHistory(store, authorId, content, net.fetch)), backend).Err?
    ensures var step := DmStep(store, authorId, content, gemini, backend, net);
      && step.sent == [DmApology]
      && Stored(step.store, authorId)
           == if net.trim then Window(Stored(store, authorId), DefaultMaxLength) else Stored(store, authorId)
  {
    TrimMatchesWindow(store, authorId, DefaultMaxLength);
  }

  /** Handling a message touches only its author's list, whatever happens. */
  lemma OnMessageTouchesOnlyAuthor(store: Keyspace, botUserId: string, message: DiscordMessage, gemini: GeminiService,
                                   backend: string -> Reply, net: Reachability, other: string)
    requires other != message.authorId
    ensures Stored(OnMessageStep(store, botUserId, message, gemini, backend, net).store, other) == Stored(store, other)
  {
  }

  /** The bot's own messages get no reply and leave the store alone. */
  lemma OwnMessagesIgnored(store: Keyspace, botUserId: string, message: DiscordMessage, gemini: GeminiService,
                           backend: string -> Reply, net: Reachability)
    requires message.authorId == botUserId
    ensures OnMessageStep(store, botUserId, message, gemini, backend, net) == Step(store, [])
  {
  }

  /**
   * In a public channel the store is never touched, and the prompt carries the
   * message alone, exactly as it was written.
   */
  lemma PublicChannel(store: Keyspace, botUserId: string, message: DiscordMessage, gemini: GeminiService,
                      backend: string -> Reply, net: Reachability)
    requires message.authorId != botUserId && !message.inDm
    ensures var step := OnMessageStep(store, botUserId, message, gemini, backend, net);
      && step.store == store
      && gemini.Prompt(List([message.content])) == gemini.Prompt(Str(message.content))
      && (gemini.GenerateResponse(Str(message.content), backend).Ok? ==>
            step.sent == Chunks(gemini.GenerateResponse(Str(message.content), backend).value, MaxMessageLength))
      && (gemini.GenerateResponse(Str(message.content), backend).Err? ==> step.sent == [])
  {
  }

  /** A direct message from a user with no stored history is answered from that message alone, and starts the list afresh. */
  lemma DmFromEmptyHistory(store: Keyspace, authorId: string, content: string, gemini: GeminiService,
                           backend: string -> Reply, net: Reachability, reply: string)
    requires Stored(store, authorId) == []
    requires net.trim && net.add
    requires gemini.GenerateResponse(List(DmHistory(store, authorId, content, net.fetch)), backend) == Ok(reply)
    ensures DmHistory(store, authorId, content, net.fetch) == ["User: " + content]
    ensures Stored(DmStep(store, authorId, content, gemini, backend, net).store, authorId)
      == ["User: " + content, "Bot: " + reply]
  {
    DmSuccess(store, authorId, content, gemini, backend, net, reply);
  }

  /**
   * Command processing does not end the handler: a `!clearhistory` sent in a
   * direct message first deletes the author's list, then is answered as a
   * direct message like any other. With Redis answering and a reply
   * generated, the author's list ends holding that exchange, not empty.
   */
  lemma ClearCommandStillAnswered(store: Keyspace, botUserId: string, authorId: string, gemini: GeminiService,
                                  backend: string -> Reply, net: Reachability)
    requires authorId != botUserId
    requires net.fetch && net.trim && net.add
    ensures gemini.GenerateResponse(List(["User: " + ClearHistoryCommandText]), backend).Ok? ==>
      && Stored(OnMessageStep(Del(store, authorId), botUserId, DiscordMessage(authorId, ClearHistoryCommandText, true),
                              gemini, backend, net).store, authorId)
         == ["User: " + ClearHistoryCommandText,
             "Bot: " + gemini.GenerateResponse(List(["User: " + ClearHistoryCommandText]), backend).value]
      && OnMessageStep(Del(store, authorId), botUserId, DiscordMessage(authorId, ClearHistoryCommandText, true),
                       gemini, backend, net).sent
         == Chunks(gemini.GenerateResponse(List(["User: " + ClearHistoryCommandText]), backend).value, MaxMessageLength)
  {
    var cleared := Del(store, authorId);
    var response := gemini.GenerateResponse(List(["User: " + ClearHistoryCommandText]), backend);
    if response.Ok? {
      assert DmHistory(cleared, authorId, ClearHistoryCommandText, true) == ["User: " + ClearHistoryCommandText];
      DmFromEmptyHistory(cleared, authorId, ClearHistoryCommandText, gemini, backend, net, response.value);
      DmSuccess(cleared, authorId, ClearHistoryCommandText, gemini, backend, net, response.value);
    }
  }

  /** `DiscordBot`: the bot with the history store and the generation service it was built with. */
  class DiscordBot {
    const redis: RedisService
    const gemini: GeminiService
    /** The bot's own user id, to skip its own messages. */
    const botUserId: string

    constructor (redis: RedisService, gemini: GeminiService, botUserId: string)
      requires gemini.texts == SourceTexts
      ensures this.redis == redis && this.gemini == gemini && this.botUserId == botUserId
    {
      this.redis := redis;
      this.gemini := gemini;
      this.botUserId := botUserId;
    }

    /** `!clearhistory`: delete the author's list, then confirm with one message. */
    method ClearHistoryCommand(authorId: string, up: bool) returns (sent: seq<string>)
      requires redis.Valid()
      modifies redis
      ensures redis.Valid()
      ensures redis.lists == if up then Del(old(redis.lists), authorId) else old(redis.lists)
      ensures up ==> Stored(redis.lists, authorId) == []
      ensures sent == [HistoryClearedNotice]
    {
      redis.ClearHistory(authorId, up);
      sent := [HistoryClearedNotice];
    }

    /** `send_response`: the reply in messages of at most 2000 characters. */
    method SendResponse(botResponse: string) returns (sent: seq<string>)
      ensures sent == Chunks(botResponse, MaxMessageLength)
      ensures Concat(sent) == botResponse
      ensures forall i :: 0 <= i < |sent| ==> |sent[i]| <= MaxMessageLength
    {
      sent := SendInChunks(botResponse, MaxMessageLength);
      ChunksShape(botResponse, MaxMessageLength);
    }

    /** `on_message`: the store afterwards and the messages sent are those of `OnMessageStep`. */
    method OnMessage(message: DiscordMessage, backend: string -> Reply, net: Reachability) returns (sent: seq<string>)
      requires redis.Valid()
      modifies redis
      ensures redis.Valid()
      ensures Step(redis.lists, sent) == OnMessageStep(old(redis.lists), botUserId, message, gemini, backend, net)
    {
      if message.authorId == botUserId {
        return [];
      }
      if message.inDm {
        var userId := message.authorId;
        var userHistory := redis.GetUserHistory(userId, DefaultMaxLength, net.fetch);
        userHistory := userHistory + ["User: " + message.content];
        redis.TrimHistory(userId, DefaultMaxLength, net.trim);
        var response := gemini.GenerateResponse(List(userHistory), backend);
        match response {
          case Ok(botResponse) =>
            redis.AddToUserHistory(userId, message.content, botResponse, net.add);
            sent := SendResponse(botResponse);
          case Err(_) =>
            sent := [DmApology];
        }
      } else {
        var response := gemini.GenerateResponse(List([message.content]), backend);
        match response {
          case Ok(botResponse) =>
            sent := SendResponse(botResponse);
          case Err(_) =>
            sent := [];
        }
      }
    }
  }
}
