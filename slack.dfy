/**
 * The Slack bot's message handler: drop an event without a user or a text;
 * otherwise read the bounded history, join it with the new text, trim the
 * stored list, post "Typing...", generate, store the new pair (twice, as the
 * handler does), and post the reply in the thread in chunks of at most 4000
 * characters — or one apology when anything after the read raised.
 */
module Slack {
  import opened Wrappers
  import opened PyText
  import opened Redis
  import opened Gemini
  import opened Chunking

  /** Slack's message-size limit used by the handler, in characters. */
  const MaxMessageLength := 4000

  const TypingNotice := "Typing..."

  /** Posted in the channel, outside the thread, when the handler raised. */
  const SlackApology := "Sorry, I encountered an error while responding."

  /** The event fields the handler reads; a missing field is `None`. */
  datatype SlackEvent = SlackEvent(
    user: Option<string>,
    text: Option<string>,
    channel: Option<string>,
    threadTs: Option<string>,
    ts: Option<string>)

  /** One call of `say`: the text, and the channel and thread it names (`None` when not given). */
  datatype Post = Post(text: string, channel: Option<string>, threadTs: Option<string>)

  /** What handling one event leaves in the store, and the posts made, in order. */
  datatype Step = Step(store: Keyspace, sent: seq<Post>)

  /** An event the handler acts on: both the user and the text are present and non-empty. */
  predicate Complete(event: SlackEvent)
  {
    Truthy(event.user) && Truthy(event.text)
  }

  /** The thread to answer in: the event's thread, or else the event's own timestamp. */
  function ThreadOf(event: SlackEvent): Option<string>
  {
    Or(event.threadTs, event.ts)
  }

  /** The text the reply is generated from: the stored window, then the new text, joined by single spaces. */
  function SlackHistory(store: Keyspace, userId: string, text: string, maxHistory: int, fetchUp: bool): string
  {
    Join(" ", (if fetchUp then Window(Stored(store, userId), maxHistory) else []) + [text])
  }

  /** Each chunk of the reply as a post in the event's thread. */
  function ThreadPosts(chunks: seq<string>, channel: Option<string>, thread: Option<string>): seq<Post>
  {
    seq(|chunks|, i requires 0 <= i < |chunks| => Post(chunks[i], channel, thread))
  }

  /** The texts of some posts, in order. */
  function PostTexts(posts: seq<Post>): seq<string>
  {
    seq(|posts|, i requires 0 <= i < |posts| => posts[i].text)
  }

  /** What the store holds for the user once the handler has stored the pair, given which appends were answered. */
  function Appended(trimmed: Keyspace, userId: string, pair: seq<string>, net: Reachability): Keyspace
    requires pair != []
  {
    var once := if net.add then RPush(trimmed, userId, pair) else trimmed;
    if net.addAgain then RPush(once, userId, pair) else once
  }

  /** `_handle_message` for one event. */
  function HandleStep(store: Keyspace, event: SlackEvent, maxHistory: int, gemini: GeminiService,
                      backend: string -> Reply, net: Reachability): Step
  {
    if !Complete(event) then Step(store, [])
    else
      var userId, text, thread := event.user.value, event.text.value, ThreadOf(event);
      var messageHistory := SlackHistory(store, userId, text, maxHistory, net.fetch);
      var trimmed := if net.trim then LTrim(store, userId, -maxHistory, -1) else store;
      var typing := Post(TypingNotice, event.channel, thread);
      match gemini.GenerateResponse(Str(messageHistory), backend)
      case Ok(reply) =>
        Step(Appended(trimmed, userId, ["User: " + text, "Bot: " + reply], net), [typing] + ThreadPosts(Chunks(reply, MaxMessageLength), event.channel, thread))
      case Err(_) =>
        Step(trimmed, [typing, Post(SlackApology, event.channel, None)])
  }

  /** An event without a user or a text is dropped: no store call, no post. */
  lemma IncompleteEventDropped(store: Keyspace, event: SlackEvent, maxHistory: int, gemini: GeminiService,
                               backend: string -> Reply, net: Reachability)
    requires event.user.None? || event.user == Some("") || event.text.None? || event.text == Some("")
    ensures HandleStep(store, event, maxHistory, gemini, backend, net) == Step(store, [])
  {
  }

  /** The reply is generated from the last `maxHistory` stored entries and the new text, joined by single spaces. */
  lemma GenerationInput(store: Keyspace, userId: string, text: string, maxHistory: int)
    requires maxHistory >= 1
    ensures var h := Stored(store, userId);
      SlackHistory(store, userId, text, maxHistory, true) == Join(" ", h[|h| - Min(maxHistory, |h|)..] + [text])
    ensures SlackHistory(store, userId, text, maxHistory, false) == text
  {
    WindowIsLastEntries(Stored(store, userId), maxHistory);
  }

  /** The thread defaults to the event's timestamp when the event's thread is absent or empty. */
  lemma ThreadDefaultsToTs(event: SlackEvent)
    ensures !Truthy(event.threadTs) ==> ThreadOf(event) == event.ts
    ensures Truthy(event.threadTs) ==> ThreadOf(event) == event.threadTs
  {
  }

  /** For a complete event the first post is "Typing..." in the event's thread, and no other user's list changes. */
  lemma TypingFirstOthersUntouched(store: Keyspace, event: SlackEvent, maxHistory: int, gemini: GeminiService,
                                   backend: string -> Reply, net: Reachability, other: string)
    requires Complete(event)
    ensures var step := HandleStep(store, event, maxHistory, gemini, backend, net);
      && |step.sent| >= 1
      && step.sent[0] == Post(TypingNotice, event.channel, ThreadOf(event))
      && (other != event.user.value ==> Stored(step.store, other) == Stored(store, other))
  {
  }

  /** When generation fails: "Typing...", then exactly one apology outside the thread; nothing appended. */
  lemma FailureApologizes(store: Keyspace, event: SlackEvent, maxHistory: int, gemini: GeminiService,
                          backend: string -> Reply, net: Reachability)
    requires Complete(event)
    requires gemini.GenerateResponse(Str(SlackHistory(store, event.user.value, event.text.value, maxHistory, net.fetch)), backend).Err?
    ensures var step := HandleStep(store, event, maxHistory, gemini, backend, net);
      var h := Stored(store, event.user.value);
      && step.sent == [Post(TypingNotice, event.channel, ThreadOf(event)), Post(SlackApology, event.channel, None)]
      && Stored(step.store, event.user.value) == (if net.trim then Window(h, maxHistory) else h)
      && (net.trim && maxHistory >= 1 ==> |Stored(step.store, event.user.value)| <= maxHistory)
  {
    TrimMatchesWindow(store, event.user.value, maxHistory);
    if maxHistory >= 1 {
      WindowIsLastEntries(Stored(store, event.user.value), maxHistory);
    }
  }

  /** The success branch of `HandleStep`, unfolded once. */
  lemma SuccessStep(store: Keyspace, event: SlackEvent, maxHistory: int, gemini: GeminiService,
                    backend: string -> Reply, net: Reachability, reply: string)
    requires Complete(event)
    requires gemini.GenerateResponse(Str(SlackHistory(store, event.user.value, event.text.value, maxHistory, net.fetch)), backend) == Ok(reply)
    ensures HandleStep(store, event, maxHistory, gemini, backend, net)
      == Step(Appended(if net.trim then LTrim(store, event.user.value, -maxHistory, -1) else store,
                       event.user.value, ["User: " + event.text.value, "Bot: " + reply], net),
              [Post(TypingNotice, event.channel, ThreadOf(event))]
                + ThreadPosts(Chunks(reply, MaxMessageLength), event.channel, ThreadOf(event)))
  {
  }

  /**
   * When generation succeeds, "Typing..." is followed by the reply's chunks
   * of at most 4000 characters, in order, in the thread; a reply that fits
   * is posted as it is, once.
   */
  lemma SuccessPostsReply(store: Keyspace, event: SlackEvent, maxHistory: int, gemini: GeminiService,
                          backend: string -> Reply, net: Reachability, reply: string)
    requires Complete(event)
    requires gemini.GenerateResponse(Str(SlackHistory(store, event.user.value, event.text.value, maxHistory, net.fetch)), backend) == Ok(reply)
    ensures HandleStep(store, event, maxHistory, gemini, backend, net).sent
      == [Post(TypingNotice, event.channel, ThreadOf(event))]
         + ThreadPosts(Chunks(reply, MaxMessageLength), event.channel, ThreadOf(event))
    ensures |reply| <= MaxMessageLength ==>
      HandleStep(store, event, maxHistory, gemini, backend, net).sent
        == [Post(TypingNotice, event.channel, ThreadOf(event)), Post(reply, event.channel, ThreadOf(event))]
  {
    SuccessStep(store, event, maxHistory, gemini, backend, net, reply);
    if |reply| <= MaxMessageLength {
      assert Chunks(reply, MaxMessageLength) == [reply];
      assert ThreadPosts([reply], event.channel, ThreadOf(event)) == [Post(reply, event.channel, ThreadOf(event))];
    }
  }

  /**
   * When generation succeeds, every post after "Typing..." is at most 4000
   * characters, goes to the event's channel and thread, and the texts of
   * those posts, put together, are the whole reply.
   */
  lemma SuccessPostsFit(store: Keyspace, event: SlackEvent, maxHistory: int, gemini: GeminiService,
                        backend: string -> Reply, net: Reachability, reply: string)
    requires Complete(event)
    requires gemini.GenerateResponse(Str(SlackHistory(store, event.user.value, event.text.value, maxHistory, net.fetch)), backend) == Ok(reply)
    ensures var sent := HandleStep(store, event, maxHistory, gemini, backend, net).sent;
      forall i :: 1 <= i < |sent| ==>
        |sent[i].text| <= MaxMessageLength && sent[i].channel == event.channel && sent[i].threadTs == ThreadOf(event)
    ensures Concat(PostTexts(HandleStep(store, event, maxHistory, gemini, backend, net).sent[1..])) == reply
  {
    var chunks := Chunks(reply, MaxMessageLength);
    var posts := ThreadPosts(chunks, event.channel, ThreadOf(event));
    SuccessStep(store, event, maxHistory, gemini, backend, net, reply);
    ChunksShape(reply, MaxMessageLength);
    var sent := [Post(TypingNotice, event.channel, ThreadOf(event))] + posts;
    assert sent[1..] == posts;
    assert PostTexts(posts) == chunks;
  }

  /**
   * When generation succeeds and Redis answers the trim and both appends, the
   * user's list is its last `maxHistory` entries followed by the User/Bot pair
   * twice.
   */
  lemma SuccessStoresPairTwice(store: Keyspace, event: SlackEvent, maxHistory: int, gemini: GeminiService,
                               backend: string -> Reply, net: Reachability, reply: string)
    requires Complete(event)
    requires gemini.GenerateResponse(Str(SlackHistory(store, event.user.value, event.text.value, maxHistory, net.fetch)), backend) == Ok(reply)
    requires net.trim && net.add && net.addAgain
    ensures Stored(HandleStep(store, event, maxHistory, gemini, backend, net).store, event.user.value)
      == Window(Stored(store, event.user.value), maxHistory)
         + ["User: " + event.text.value, "Bot: " + reply, "User: " + event.text.value, "Bot: " + reply]
  {
    var u, t := event.user.value, event.text.value;
    var pair := ["User: " + t, "Bot: " + reply];
    SuccessStep(store, event, maxHistory, gemini, backend, net, reply);
    TrimMatchesWindow(store, u, maxHistory);
    AppendedTwice(LTrim(store, u, -maxHistory, -1), u, pair, net);
  }

  /** With both appends answered, the pair follows the list twice. */
  lemma AppendedTwice(trimmed: Keyspace, userId: string, pair: seq<string>, net: Reachability)
    requires pair != [] && net.add && net.addAgain
    ensures Stored(Appended(trimmed, userId, pair, net), userId) == Stored(trimmed, userId) + pair + pair
  {
  }

  /** `SlackBot`: the handler with its store, its generation service and its history bound. */
  class SlackBot {
    const redis: RedisService
    const gemini: GeminiService
    const maxHistory: int

    constructor (gemini: GeminiService, redis: RedisService, maxHistory: int)
      requires gemini.texts == SourceTexts
      ensures this.redis == redis && this.gemini == gemini && this.maxHistory == maxHistory
    {
      this.gemini := gemini;
      this.redis := redis;
      this.maxHistory := maxHistory;
    }

    /** `_handle_message`: the store afterwards and the posts made are those of `HandleStep`. */
    method HandleMessage(event: SlackEvent, backend: string -> Reply, net: Reachability) returns (sent: seq<Post>)
      requires redis.Valid()
      modifies redis
      ensures redis.Valid()
      ensures Step(redis.lists, sent) == HandleStep(old(redis.lists), event, maxHistory, gemini, backend, net)
    {
      var userId, text, channel := event.user, event.text, event.channel;
      var threadTs := Or(event.threadTs, event.ts);
      if !Truthy(userId) || !Truthy(text) {
        return [];
      }
      var userHistory := redis.GetUserHistory(userId.value, maxHistory, net.fetch);
      userHistory := userHistory + [text.value];
      var messageHistory := Join(" ", userHistory);

      redis.TrimHistory(userId.value, maxHistory, net.trim);
      sent := [Post(TypingNotice, channel, threadTs)];
      var response := gemini.GenerateResponse(Str(messageHistory), backend);
      match response {
        case Ok(botResponse) =>
          redis.AddToUserHistory(userId.value, text.value, botResponse, net.add);
          redis.AddToUserHistory(userId.value, text.value, botResponse, net.addAgain);
          var chunks := SendInChunks(botResponse, MaxMessageLength);
          sent := sent + ThreadPosts(chunks, channel, threadTs);
        case Err(_) =>
          sent := sent + [Post(SlackApology, channel, None)];
      }
    }
  }
}
