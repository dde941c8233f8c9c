# Docs chatbot: history store, prompt and reply handling

A Dafny model of the core of a documentation chatbot that answers users on
Discord and Slack. It keeps a per-user history in Redis, wraps each message in
a prompt made of fixed texts plus the product documentation and its sitemap
links, asks a text generation backend for a reply, and posts that reply in
chunks that fit the platform's message limit.

Modules, one per source file, plus two helpers:

- `Wrappers` (`wrappers.dfy`): `Option`, for event fields that may be missing, and `Result`, for calls that may raise.
- `PyText` (`pytext.dfy`): the Python primitives the code relies on: `str.join`, the slice `h[i:]`, truthiness and `a or b`. It also defines `Split`, a newline split the code itself never calls, as an independent reference for stating that the joined sitemap links can be read back line by line. Strings are `seq<char>`, indexed by code point as Python's `str` is.
- `Redis` (`redis.dfy`), for `utils/redis.py`:
  - the server's lists as a `map<string, seq<string>>`;
  - LRANGE, RPUSH, LTRIM and DEL as functions with their documented Redis semantics, negative indexes and dropping of emptied keys included;
  - the `RedisService` class, whose methods update that map in place.
- `Gemini` (`gemini.dfy`), for `utils/gemini.py`:
  - the sitemap link formatting;
  - the context check and the five-part prompt of `generate_response`;
  - the backend call, as an oracle `string -> Reply` that returns `Text(s)` or `Failure`.
- `Chunking` (`chunking.dfy`): the reply splitting both bots do, as the loop method `SendInChunks` and the function `Chunks` it is proved against. Each bot calls it with its own limit (2000 or 4000).
- `Discord` (`discord.dfy`), for `discord_bot/discord_bot.py`: `!clearhistory` and `on_message`, which skips the bot's own messages and has a DM branch and a public branch.
- `Slack` (`slack.dfy`), for `slack_bot/slack_bot.py`: `_handle_message`.

Each handler is a method on its bot class: it changes the store and returns the
messages it sends, in order. Its `ensures` ties the new store and the messages
to a step function (`Discord.OnMessageStep`, `Slack.HandleStep`), and the
properties of a handler are lemmas about that function.

Each Redis round trip during an event either gets an answer from the server or raises a
connection error, which the service logs and swallows. The model takes this as
a parameter of each call: a `Reachability` record says, for one event, whether
the fetch, the trim and each append were answered. A call that was not answered
leaves the store as it was. A failed fetch gives `[]`.

Behaviour of the code worth noting:

- Both bots trim the stored list before generation, ahead of the append of the new turn. A list can therefore hold more than `max_length` entries after an event (`Discord.DmSuccess`), and a failed generation still trims.
- History bounds count raw entries, not User/Bot pairs.
- Replies are cut at code-point offsets. There is no attempt to keep multi-code-point characters whole.
- In a Discord public channel a failed generation is not caught. It escapes the handler, and nothing is sent.
- Command processing does not end `on_message`. A `!clearhistory` sent in a DM deletes the list, confirms, and is then answered as a DM like any other message, so the list ends holding that exchange (`Discord.ClearCommandStillAnswered`). In a public channel the command text is sent to the backend too.
- The Slack handler stores the User/Bot pair twice.
- `max_length == 0` keeps the whole list, both in the read (`history[-0:]`) and in the trim (`LTRIM key 0 -1`). The model covers this for every integer bound, without requiring `max_length >= 1`.

The fixed prompt texts (`Gemini.Preamble`, `Gemini.LinksHeader`, `Gemini.Persona`)
are copied character for character from the source. The service value carries
them in its `texts` field. Both bot constructors require that field to be
`Gemini.SourceTexts`. Lemmas about handlers can then leave the long literals
folded.

## Model

| member | source | states |
|---|---|---|
| `Redis.LRange` | utils/redis.py:28 | LRANGE never returns more than the stored list |
| `Redis.RPush` | utils/redis.py:38 | the list at the key becomes the old list followed by the values; other keys unchanged; no empty list is ever stored |
| `Redis.LTrim` | utils/redis.py:45 | the list keeps exactly what LRANGE with the same indexes returns; other keys unchanged; an emptied key is removed |
| `Redis.Del` | utils/redis.py:52 | the key is gone and reads as empty; other keys unchanged |
| `Redis.Window` | utils/redis.py:29 | the slice `history[-max_length:]`: the last `min(n, len)` entries for `n >= 1` (`WindowIsLastEntries`), the whole list for `n == 0` (`WindowZeroKeepsAll`), and exactly what the trim keeps (`TrimMatchesWindow`) |
| `Redis.RangeAll` | utils/redis.py:28 | `lrange(key, 0, -1)` reads the whole list, and `[]` for an unknown key |
| `Redis.WindowIsLastEntries` | utils/redis.py:29 | for `max_length >= 1` the read is the last `min(max_length, len)` entries in original order |
| `Redis.WindowZeroKeepsAll` | utils/redis.py:29 | `history[-0:]` is the whole list |
| `Redis.TrimMatchesWindow` | utils/redis.py:28-45 | `ltrim(key, -n, -1)` leaves exactly what `history[-n:]` reads, for every integer `n` |
| `Redis.TrimIdempotent` | utils/redis.py:45 | for `n >= 0`, trimming twice gives the same store as trimming once |
| `Redis.TrimShortIsNoOp` | utils/redis.py:45 | a list already of at most `n` entries is left unchanged, and so is the whole store |
| `Redis.ClearThenReadEmpty` | utils/redis.py:28-52 | after DEL, a read of any size returns nothing |
| `Redis.RedisService.constructor` | utils/redis.py:6-23 | the service starts over the server's existing lists |
| `Redis.RedisService.GetUserHistory` | utils/redis.py:25-32 | the bounded read when answered, the last `max_length` entries for `max_length >= 1`, `[]` for an unknown user and `[]` on a connection failure |
| `Redis.RedisService.AddToUserHistory` | utils/redis.py:35-40 | when answered, appends `"User: "+msg` then `"Bot: "+resp` after the unchanged earlier entries; otherwise nothing changes |
| `Redis.RedisService.TrimHistory` | utils/redis.py:42-47 | when answered, the list becomes its `history[-max_length:]` window; otherwise nothing changes |
| `Redis.RedisService.ClearHistory` | utils/redis.py:49-54 | when answered, the user's list is deleted; otherwise nothing changes |
| `Gemini.SitemapLinks` | utils/gemini.py:71-75 | the links string of `load_sitemap_links`: empty exactly when there are no urls (`SitemapLinksEmpty`), and read back line by line as one link line per url (`SitemapLinksLines`) |
| `Gemini.SitemapLinksEmpty` | utils/gemini.py:71-75 | the links string is empty exactly when the url list is |
| `Gemini.SitemapLinksLines` | utils/gemini.py:75 | when no url holds a newline, splitting the links string on newlines gives back exactly one `"Link: <url>"` line per url, in input order |
| `Gemini.NoUrlsNoContext` | utils/gemini.py:75-87 | links built from no urls leave the context not loaded |
| `Gemini.MessageText` | utils/gemini.py:92-93 | a string message is used unchanged, and a one-entry list gives that entry |
| `Gemini.HistoryEnds` | utils/gemini.py:92-93 | a history list joined with newlines starts with its first entry and ends with its last, so the newest line closes the text |
| `Gemini.HistoryReadBack` | utils/gemini.py:92-93 | when no entry holds a newline, splitting the joined text on newlines gives back the history, entry by entry and in order |
| `Gemini.JoinPrompt` | utils/gemini.py:96-111 | the prompt is the newline join of preamble, documentation text, links header plus links, persona and message, in that order; it ends with the message and holds the documentation text and the links at the places given |
| `Gemini.GeminiService.Prompt` | utils/gemini.py:91-111 | the prompt for a message: the five-part layout of `JoinPrompt` over the service's texts and context, ending with the message's text (`MessageText`) |
| `Gemini.GeminiService.GenerateResponse` | utils/gemini.py:82-123 | an empty documentation text or empty links give `ContextNotLoaded`; otherwise success exactly when the backend returns text for the prompt, that text is the result, and a backend failure gives `BackendError`, never partial text |
| `Gemini.ContextCheckedFirst` | utils/gemini.py:84-87 | with the context not loaded, the outcome does not depend on the backend at all, so the backend is never asked |
| `Chunking.Slices` | discord_bot/discord_bot.py:75-77 | the slices `s[i:i+limit]` for `i` in `range(0, len(s), limit)`: they join to `s` (`SlicesConcat`), are non-empty, at most the limit and full but the last (`SlicesLengths`), and number `ceil(len/limit)` (`SlicesCount`, `CeilingCount`) |
| `Chunking.Chunks` | discord_bot/discord_bot.py:74-79 | the messages sent for a reply: one when it fits, its slices otherwise; `ChunksShape` states their shape |
| `Chunking.SlicesConcat` | discord_bot/discord_bot.py:75-77 | the slices joined in order are the reply |
| `Chunking.SlicesLengths` | discord_bot/discord_bot.py:76-77 | every slice is non-empty and at most the limit; all but the last are exactly the limit |
| `Chunking.SlicesCount` | discord_bot/discord_bot.py:76 | the number of slices `k` satisfies `(k-1)*limit < len <= k*limit` |
| `Chunking.CeilingCount` | discord_bot/discord_bot.py:76 | that bound makes `k` equal to `ceil(len/limit)` |
| `Chunking.ChunksShape` | discord_bot/discord_bot.py:74-79 | the sent messages join to the reply, each is at most the limit, a reply that fits (the empty one included) is sent as one message, and a longer one as `ceil(len/limit)` messages, all but the last exactly the limit |
| `Chunking.ChunksOf4500` | discord_bot/discord_bot.py:74-77 | a 4500-character reply under 2000 is sent as 2000, 2000 and 500 characters |
| `Chunking.SendInChunks` | slack_bot/slack_bot.py:81-86 | the loop's sent messages are exactly `Chunks(reply, limit)` |
| `Discord.DmStep` | discord_bot/discord_bot.py:52-65 | the DM branch: its input, outcome and store are stated by `DmGenerationInput`, `DmSuccess`, `DmFailure` and `DmFromEmptyHistory` |
| `Discord.PublicStep` | discord_bot/discord_bot.py:66-70 | the public branch: `PublicChannel` states that the store is untouched, the prompt is the plain message's, the reply is chunked and a failure sends nothing |
| `Discord.OnMessageStep` | discord_bot/discord_bot.py:43-70 | `on_message` after command processing: `OwnMessagesIgnored`, `OnMessageTouchesOnlyAuthor` and `ClearCommandStillAnswered` state its properties |
| `Discord.DmGenerationInput` | discord_bot/discord_bot.py:53-55 | in a DM the generation input is the last 5 stored entries then `"User: "+content`; only the latter when the read fails |
| `Discord.DmPromptEndsWithMessage` | discord_bot/discord_bot.py:53-60 | the prompt for a DM ends with `"User: "+content`, after the stored history, whether or not the read succeeded |
| `Discord.DmSuccess` | discord_bot/discord_bot.py:57-62 | on success the replies join to the reply, each is at most 2000 characters, and with the store reachable the list becomes its last 5 entries plus the new User/Bot pair, at most 7 entries |
| `Discord.DmFailure` | discord_bot/discord_bot.py:57-65 | a failed generation sends exactly one apology and appends nothing; the list is the trimmed one |
| `Discord.OnMessageTouchesOnlyAuthor` | discord_bot/discord_bot.py:43-70 | no other user's list changes |
| `Discord.OwnMessagesIgnored` | discord_bot/discord_bot.py:47-49 | the bot's own messages get no reply and leave the store unchanged |
| `Discord.PublicChannel` | discord_bot/discord_bot.py:66-70 | in a public channel the store is untouched, the prompt carries only the message as written, the reply goes out in chunks, and a failure sends nothing |
| `Discord.DmFromEmptyHistory` | discord_bot/discord_bot.py:53-61 | for a user with no stored history the DM is answered from the message alone, and with the trim and the append answered the list becomes exactly the new User/Bot pair |
| `Discord.ClearCommandStillAnswered` | discord_bot/discord_bot.py:31-36 | `!clearhistory` deletes the list, and the same message is then answered as a DM. With Redis answering and a reply generated, the list ends holding `"User: !clearhistory"` and the bot's reply, and the reply goes out in chunks |
| `Discord.DiscordBot.constructor` | discord_bot/discord_bot.py:9-20 | the bot holds the store and the generation service it is given |
| `Discord.DiscordBot.ClearHistoryCommand` | discord_bot/discord_bot.py:31-36 | the author's list is deleted (when the store answers) and one confirmation is sent |
| `Discord.DiscordBot.SendResponse` | discord_bot/discord_bot.py:72-79 | the sent messages are the chunks of the reply at 2000, joining back to it |
| `Discord.DiscordBot.OnMessage` | discord_bot/discord_bot.py:43-70 | the new store and the sent messages are those of `OnMessageStep` on the old store |
| `Slack.HandleStep` | slack_bot/slack_bot.py:45-90 | `_handle_message` on one event: stated by `IncompleteEventDropped`, `GenerationInput`, `TypingFirstOthersUntouched`, `FailureApologizes`, `SuccessPostsReply`, `SuccessPostsFit` and `SuccessStoresPairTwice` |
| `Slack.IncompleteEventDropped` | slack_bot/slack_bot.py:49-56 | a missing or empty user or text means no store call and no post |
| `Slack.GenerationInput` | slack_bot/slack_bot.py:59-64 | the generation input is the last `max_history` stored entries plus the new text, joined by single spaces; only the text when the read fails |
| `Slack.ThreadDefaultsToTs` | slack_bot/slack_bot.py:52 | the thread is the event's `thread_ts`, defaulting to its `ts` when that is absent or empty |
| `Slack.TypingFirstOthersUntouched` | slack_bot/slack_bot.py:66-69 | for a complete event the first post is `"Typing..."` in the thread, and no other user's list changes |
| `Slack.FailureApologizes` | slack_bot/slack_bot.py:66-90 | a failed generation posts `"Typing..."` then exactly one apology outside the thread; nothing is appended, and the trim has already bounded the list to `max_history` |
| `Slack.SuccessPostsReply` | slack_bot/slack_bot.py:81-86 | on success `"Typing..."` is followed by one post per chunk of the reply at 4000, in order, each in the event's channel and thread; a reply that fits is posted as it is, once |
| `Slack.SuccessPostsFit` | slack_bot/slack_bot.py:81-86 | on success every post after `"Typing..."` is at most 4000 characters and goes to the event's channel and thread, and the texts of those posts put together are the whole reply |
| `Slack.SuccessStoresPairTwice` | slack_bot/slack_bot.py:67-78 | on success, with the trim and both appends answered, the list is its last `max_history` entries followed by the User/Bot pair twice |
| `Slack.SlackBot.constructor` | slack_bot/slack_bot.py:11-26 | the bot holds the store, the generation service and the history bound it is given |
| `Slack.SlackBot.HandleMessage` | slack_bot/slack_bot.py:45-90 | the new store and the posts are those of `HandleStep` on the old store |

## Left out

- Connecting to Redis and the ping in `RedisService.__init__`: network I/O. The model starts from a given keyspace.
- Redis errors other than `redis.ConnectionError`: the service catches only that class (utils/redis.py:30, 39, 46, 53). Under redis-py, a socket timeout (`socket_timeout=10`, utils/redis.py:14) raises `TimeoutError`, and a key of the wrong type raises `ResponseError`. Neither is a `ConnectionError`, so neither is swallowed. Raised from `get_user_history`, which both bots call outside their `try`, such an error ends the handler with nothing sent. Raised from the trim or an append, inside the `try`, it leads to the apology. The model's `Reachability` covers only the connection errors the service swallows.
- `_configure_genai` (temperature, safety settings, model object), `load_pdf_context` (PDF reading and Python's dict repr) and the XML parsing in `load_sitemap_links`. These are the backend SDK, floating point and file parsing. The model takes the documentation text and the url list as given.
- The `generate_content` call, `asyncio.to_thread`, and the latency timing and logging: a foreign call, threads and clocks. The backend is an oracle from the prompt to `Text` or `Failure`.
- Logging everywhere, and the `utils/logging.py` logger cache.
- Platform plumbing: handler registration, `process_commands`, `on_ready`, `close`, `start`, `_set_presence`, the `typing()` indicator and the `!help` command. `OnMessage` models what `on_message` does after `process_commands` returns. The command's own effect is `ClearHistoryCommand`. `ClearCommandStillAnswered` puts the two together for `!clearhistory` in a DM.
- A failing `send`/`say`: every post is assumed to go out. In the source, a send that raises in the Discord DM branch or in Slack would lead to the apology after partial output.
- Concurrency between events and same-user races: one event is handled at a time. `run_bots.py` startup is out of scope as well.
- `_mention_event_handler` only logs and forwards to `_handle_message`, so it has the same model as `HandleMessage`.
- A sitemap `<loc>` element with no text (`url.text` is `None`) would format as `Link: None`. The model takes the urls as strings.
- The Discord DM branch's `get_user_history(...) or []` is always a list here, so the `or []` has no effect in the model.
