# agentic-chat: the chat handler, its speaker selector, its files and its web search

This project models the core of a chat service built on an autogen `SelectorGroupChat`.
The team has four members: an intent classifier (`IntentAgent`), two responders
(`AssistantAgent` and `ReasoningAgent`) and the human (`user`). Five parts are modelled:

- **Selector** (app/api/chat.py, with a second copy in app/core/agents/orchestrator.py).
  It picks the next speaker from the last message alone:
  - after the user comes the classifier;
  - after the classifier comes the responder its decoded `"model"` field names;
  - after either responder comes the user.
  The two copies are modelled separately and proved equal.
- **Persistence** (app/api/history.py and the tail of `get_team`). Two files are kept:
  - the chat history, a JSON list of message dumps;
  - the team state.
  A missing file reads as an empty history or as a fresh team. A file that was opened for
  writing and never written is empty, and reading it raises. `/history/clear` rewrites the
  history and then removes the state file.
- **Streaming** (the websocket handler `chat`). For each user message its outer loop
  reads, it builds the team and loads the history. Then, for every stream item that is
  forwarded, it:
  1. sends the item;
  2. appends it to the history unless it is an input request;
  3. empties the state file and writes `save_state()` into it;
  4. rewrites the history file.

  Any exception in a turn sends an error frame followed by an input request, and the
  handler goes on to the next message. The replies the user gives during a turn are read
  by the team's user proxy inside the stream, so they are part of the team's run: one that
  is not a valid `TextMessage` is an exception of that turn. A frame read by the outer
  loop that is not a valid `TextMessage` ends the handler after one "Unexpected error"
  frame.
- **URL cache** (`TTLCache(maxsize=100, ttl=3600)`). It is a sequence of slots in
  least-recently-used order, with cachetools' semantics:
  - a lookup moves its key to the end;
  - a store first drops every expired slot, then evicts the least recently used slot
    when a new key meets a full cache.
- **Web search** (`get_relevant_web_pages` and its helpers). A query that looks like a
  URL is the only candidate; otherwise the search results are used. Uncached candidates
  are fetched, each truthy body is summarised, and the truthy summaries are returned and
  cached.

Where the code is imperative, the model is too:
- `Persistence.Store`, `Streaming.ChatSession` and `Caching.TtlCache` are classes whose
  methods update fields.
- The loops of the handler and of `get_relevant_web_pages` are `while` loops. Each is
  proved against a specification function (`TurnEffect`, `ServeEffect`, `Retrieve`).
- The properties are lemmas about those functions.

The search provider (whose failure, a rate limit say, propagates), the HTTP fetch, the HTML-to-markdown step, the summarising completion
call, the team's stream and `team.save_state()` are parameters (`Services`, `Run`). One
clock reading `now` serves a whole call.

Behaviour worth noting:
- **A failed state save corrupts the state file.** The state file is opened with `"w"`,
  which empties it, before `save_state()` is awaited. If `save_state()` raises, the file
  stays empty. Every later turn then fails in `get_team`, sends only the error pair, and
  changes no file (`EmptiedStateStaysBroken`). A failed write does not leave the prior
  state intact.
- **A malformed frame read by the outer loop ends the handler.** It is not merely
  rejected: one "Unexpected error" frame goes out and the handler returns. A malformed
  reply read by the user proxy during a turn only fails that turn.
- **A cached candidate makes `get_relevant_web_pages` raise.** The cached `WebPage`
  itself is placed in the list handed to `asyncio.gather`, which raises a `TypeError`
  ("An asyncio.Future, a coroutine or an awaitable is required") for it. The fetches for the other candidates have already been started.
- **A failed conversion to markdown propagates.** Stripping and conversion happen outside
  the `try`, so only a failing completion call degrades to `None`.
- **Summaries can be stored under the wrong URL.** `zip(urls, contents)` pairs the i-th
  truthy summary with the i-th candidate, not with the URL it came from. When an earlier
  candidate gave no page, a page's summary is returned, and cached, under another URL
  (`ZipMislabels`).

## Model

| member | source | states |
|---|---|---|
| Messages.Dump | app/api/chat.py:127 | the frame sent for a message carries its source, its content and the type name of its class |
| Messages.DumpsAppend | app/api/chat.py:127-130 | dumping a list of messages distributes over concatenation |
| Selector.RouteIntent | app/api/chat.py:68-74 | the classifier's decoded output names the chat responder exactly when its "model" is "chat", the reasoning responder exactly when it is "reasoning", and raises exactly when it is not a dict holding "model" |
| Selector.SelectSpeaker | app/api/chat.py:65-77 | the selector only ever names a team member, and an empty thread raises |
| Selector.UserRoutesToIntent | app/api/chat.py:66-67 | a user message is always followed by the intent classifier |
| Selector.IntentRoutesByModel | app/api/chat.py:68-74 | after the classifier, the chat responder is chosen exactly when the decoded "model" is "chat", and the reasoning responder exactly when it is "reasoning" |
| Selector.IntentFailOrNone | app/api/chat.py:68-77 | after the classifier, the selector raises exactly when the decoded content is not a dict holding "model"; any other "model" value gives no speaker |
| Selector.ResponderRoutesToUser | app/api/chat.py:75-77 | either responder hands back to the user; a source outside the team gets None |
| Selector.OnlyLastMessageMatters | app/api/chat.py:65-77 | two threads with the same last message get the same answer |
| Orchestrator.SelectSpeaker | app/core/agents/orchestrator.py:59-71 | the second copy of the selector only ever names a team member |
| Orchestrator.SelectorsAgree | app/core/agents/orchestrator.py:59-71 | the two copies of the selector agree on every decoder and every thread |
| Orchestrator.Speakers | app/api/chat.py:79-83 | the chain of speakers the selector function picks, with the model's pick when it returns None: at most `steps` names, all team members; the first is the selector's answer, or the model's pick when the selector returns None; a raising selector names nobody |
| Orchestrator.TurnReturnsToUser | app/api/chat.py:65-83 | from a user message the team goes classifier, then the responder whose name the classifier's "model" field picks (whatever other fields its output has), then user |
| Persistence.LoadHistory | app/api/history.py:14-19 | a missing history file reads as []; a stored list comes back unchanged; only an emptied file raises |
| Persistence.LoadTeam | app/api/chat.py:84-90 | no state file gives a fresh team; a stored state is loaded into the team; only an emptied file raises |
| Persistence.Store.GetHistory | app/api/history.py:14-19 | reading the history file gives LoadHistory of the current files |
| Persistence.Store.HistoryEndpoint | app/api/history.py:22-27 | GET /history returns exactly the history, or a 500 whose detail is the read error |
| Persistence.Store.GetTeam | app/api/chat.py:84-90 | the load-or-fresh step gives LoadTeam of the current files |
| Persistence.MissingFileError | app/api/history.py:34-36 | the 500's detail when the state file is missing is the FileNotFoundError text, which ends with the quoted state path |
| Persistence.Store.ClearHistory | app/api/history.py:29-36 | clearing leaves the history [] and no state file, and fails with a 500 naming the state path exactly when there was no state file |
| Persistence.Store.TruncateState | app/api/chat.py:135 | opening the state file for writing empties it and leaves the history file alone |
| Persistence.Store.WriteState | app/api/chat.py:137-138 | the state is written into the state file and the history file is left alone |
| Persistence.Store.SaveHistory | app/api/chat.py:142-144 | the history file is replaced by the whole list and the state file is left alone |
| Persistence.ClearTwice | app/api/history.py:29-36 | a second clear fails with a 500, and afterwards a fresh team and an empty history are read |
| Streaming.ErrorFrames | app/api/chat.py:146-159 | a failed turn sends two frames: an error, then an input request |
| Streaming.UnexpectedErrorFrame | app/api/chat.py:163-170 | the outer handler's last frame is an error frame from "system" |
| Streaming.Forward | app/api/chat.py:116-125 | TaskResult and ToolCallExecutionEvent are dropped, a ToolCallRequestEvent becomes the placeholder, everything else goes out unchanged |
| Streaming.SentInOrder | app/api/chat.py:115-127 | forwarded items are sent in stream order; a dropped item sends nothing |
| Streaming.SentKinds | app/api/chat.py:116-125 | no sent message is a tool call request or a tool call execution |
| Streaming.DroppedSendNothing | app/api/chat.py:116-117 | a stream of TaskResults and tool executions sends nothing |
| Streaming.ToolCallRequestIsPlaceholder | app/api/chat.py:118-122 | a tool call request is sent as the AssistantAgent's "Conducting web search..." text |
| Streaming.SentAppend | app/api/chat.py:115-127 | what is sent for two stream segments is what each segment sends, in order |
| Streaming.RecordedAppend | app/api/chat.py:128-130 | what joins the history for two batches is what each batch adds, in order |
| Streaming.RecordedIsFilter | app/api/chat.py:128-130 | the history gains exactly the sent messages that are not input requests |
| Streaming.Step | app/api/chat.py:116-144 | one loop pass: after an exception, or for a dropped item, nothing changes; at most one save per item; the history file changes only with a completed save |
| Streaming.StreamEffect | app/api/chat.py:114-159 | the stream part of a turn saves at most once per sent message and leaves the history file alone when no save completed |
| Streaming.TurnEffect | app/api/chat.py:109-159 | a turn saves at most once per sent message and leaves the history file alone when no save completed |
| Streaming.ServeEffect | app/api/chat.py:102-172 | a connection with no completed save leaves the history file as it was |
| Streaming.ClosedSaves | app/api/chat.py:127-144 | in the closed form, saves never outnumber the sent messages and the history file is untouched until one completes |
| Streaming.LoadFailureSendsErrorPair | app/api/chat.py:109-113 | a turn whose team or history cannot be loaded sends only the error pair, saves nothing and leaves both files alone |
| Streaming.TurnSavesOncePerFrame | app/api/chat.py:114-144 | with no failed save, a turn sends every forwarded message, saves once per frame, and leaves the old history plus the new non-input messages on disk; an exception from the stream adds only the error pair |
| Streaming.TurnStopsAtFailedSave | app/api/chat.py:133-159 | when save k raises, frames 0..k then the error pair go out, the history file keeps what save k-1 wrote, the state file stays empty and the next get_team raises |
| Streaming.StreamStopsAtFailedSave | app/api/chat.py:114-159 | the stream part of a turn whose k-th save raises, in closed form |
| Streaming.ReplayClosedForm | app/api/chat.py:115-144 | running the loop body over the stream gives the closed form of the messages sent: frames, history list, files and save count |
| Streaming.ReplayAfterFailure | app/api/chat.py:146 | once an exception has left the loop, later stream items change nothing |
| Streaming.EmptiedStateStaysBroken | app/api/chat.py:84-90 | once the state file is empty, every later request gets only system frames, and nothing is saved or changed on disk |
| Streaming.ChatSession.HandleTurn | app/api/chat.py:109-159 | one valid request sends TurnEffect's frames and leaves its files and save count |
| Streaming.ChatSession.ForwardStream | app/api/chat.py:114-159 | the stream loop and the error pair of a raising stream send, save and write exactly what StreamEffect says |
| Streaming.ChatSession.ForwardItems | app/api/chat.py:115-144 | the `async for` sends, saves and writes exactly what Replay of the loop body says, stopping at the first raising save |
| Streaming.ChatSession.ForwardItem | app/api/chat.py:116-144 | one loop pass is one Step of the specification |
| Streaming.ChatSession.Publish | app/api/chat.py:127-144 | the message is sent and recorded; the state is written, or on a raise the state file stays empty and the error pair follows |
| Streaming.ChatSession.Serve | app/api/chat.py:102-172 | the whole connection sends, saves and writes exactly what ServeEffect says, stopping at the first malformed frame |
| Streaming.ChatSession.ServeRequest | app/api/chat.py:109-159 | one valid request of the outer loop, followed by the rest of the exchanges |
| UrlPattern.Matches | app/core/tools/web_search.py:79-84 | the executable reading of the URL pattern |
| UrlPattern.MatchesIsLanguage | app/core/tools/web_search.py:79-82 | the matcher accepts exactly the strings of the regular expression: an optional http(s):// in any letter case, host characters, dot groups, tail characters, an optional final newline |
| UrlPattern.BodyMatchesIsBody | app/core/tools/web_search.py:80 | the scan with the longest host run accepts a body exactly when some split into host, dot groups and tail exists |
| UrlPattern.DotGroupsIsDotHost | app/core/tools/web_search.py:80 | a repetition of dot-led groups is exactly a non-empty host-character string starting with a dot |
| UrlPattern.MatchShape | app/core/tools/web_search.py:79-84 | a query taken as a URL has no whitespace before its optional final newline, has a dot before its last character, and is at least four characters long |
| Caching.Find | app/core/tools/web_search.py:89 | the lookup gives the slot holding the key, and gives nothing exactly when no slot holds it |
| Caching.Expire | app/core/tools/web_search.py:19 | expiry keeps a slot exactly when it is still alive, never grows, and keeps keys distinct |
| Caching.ExpireAppend | app/core/tools/web_search.py:19 | expiry distributes over concatenation, so the surviving slots keep their order |
| Caching.ExpireCounts | app/core/tools/web_search.py:19 | expiry keeps each live slot as often as it occurs and no expired one |
| Caching.HitIsLiveMember | app/core/tools/web_search.py:89 | `url in url_cache` holds when a live slot is held for the key, and with distinct keys any live slot for the key makes it hold |
| Caching.Stored | app/core/tools/web_search.py:113 | after a store the new slot is the most recently used, and with distinct keys every other slot was already held, is alive and has another key |
| Caching.EntryIsMember | app/core/tools/web_search.py:89-90 | with distinct keys, the entry for a key is exactly the slot holding it |
| Caching.TouchKeepsEntries | app/core/tools/web_search.py:90 | a lookup moves its key to the end, changing no entry and no size |
| Caching.StoredValid | app/core/tools/web_search.py:113 | a store keeps the size bound and distinct keys and makes the stored key most recently used |
| Caching.StoredHit | app/core/tools/web_search.py:113 | after a store the key holds the new value and is a hit exactly until now + ttl |
| Caching.StoredKeepsOthers | app/core/tools/web_search.py:113 | a store changes no other entry that it keeps |
| Caching.StoredEvictsOnlyOldest | app/core/tools/web_search.py:113 | a live key is lost only when a new key meets a full cache and that key was the least recently used |
| Caching.DistinctWithin | app/core/tools/web_search.py:19 | distinct slots whose keys lie in a set are at most that many |
| Caching.StoredKeepsWritten | app/core/tools/web_search.py:113 | a store keeps every recently written live key while fewer than maxsize keys were written |
| Caching.StoredKeysLast | app/core/tools/web_search.py:113 | the written keys, the new one included, stay the most recently used |
| Caching.TtlCache.Contains | app/core/tools/web_search.py:89 | in a valid cache, `url in url_cache` holds exactly when a slot for the key is held whose insertion time plus ttl is after now |
| Caching.TtlCache.Get | app/core/tools/web_search.py:89-90 | `url_cache[url]` after `url in url_cache` returns the stored page, moves the key to the end and keeps every entry |
| Caching.TtlCache.Set | app/core/tools/web_search.py:113 | `url_cache[url] = page` is Stored, and the cache stays valid |
| Caching.NewUrlCache | app/core/tools/web_search.py:19 | the module cache holds at most 100 entries for 3600 seconds and starts empty |
| WebSearch.FetchUrl | app/core/tools/web_search.py:43-50 | a fetch gives the body exactly for a 200 response whose text could be read, otherwise None |
| WebSearch.ExtractContent | app/core/tools/web_search.py:52-76 | a falsy body gives None; only a failing conversion raises; otherwise the summary reply, or None when the call fails |
| WebSearch.Candidates | app/core/tools/web_search.py:79-84 | a query the pattern accepts is the one candidate and no search happens; otherwise the search's answer, and a failing search is the call's failure |
| WebSearch.Uncached | app/core/tools/web_search.py:88-93 | fetches are started only for candidates that are not hits, never more than there are candidates |
| WebSearch.Retrieve | app/core/tools/web_search.py:78-116 | a failing search makes the call raise with the cache untouched and no fetch started; otherwise the call is RetrieveFrom of the candidates |
| WebSearch.RetrieveFrom | app/core/tools/web_search.py:86-116 | every started fetch is for a candidate that was not a hit, at most one per candidate |
| WebSearch.Tasks | app/core/tools/web_search.py:87-93 | the list handed to gather holds, per candidate, the cached page on a hit and the fetch otherwise |
| WebSearch.Htmls | app/core/tools/web_search.py:95 | with no hit, the gathered bodies are the fetch results in candidate order |
| WebSearch.TruthyOnly | app/core/tools/web_search.py:97-101 | only truthy bodies are extracted, never more than there are bodies |
| WebSearch.TruthyOnlyAppend | app/core/tools/web_search.py:97-101 | the truthy filter distributes over concatenation, so it keeps the bodies in order |
| WebSearch.TruthyOnlyCounts | app/core/tools/web_search.py:97-101 | the filter keeps each truthy body as often as it occurs and no falsy one |
| WebSearch.ExtractAll | app/core/tools/web_search.py:97-103 | on success, one content per truthy body, each the extraction of that body |
| WebSearch.ExtractAllFailurePersists | app/core/tools/web_search.py:103 | an extraction that raises makes the whole gather raise with its error |
| WebSearch.Sources | app/core/tools/web_search.py:106-107 | the positions of truthy contents, which lie below the zipped length |
| WebSearch.LastWrite | app/core/tools/web_search.py:113 | the last page written under a URL exists exactly for the returned URLs |
| WebSearch.UrlQueryIsSoleCandidate | app/core/tools/web_search.py:79-84 | a query that is a URL is the only candidate, is in the pattern's language and contains a dot |
| WebSearch.LookedUpKeepsEntries | app/core/tools/web_search.py:88-90 | the lookups reorder the cache but change no entry and no size |
| WebSearch.FetchAccounting | app/core/tools/web_search.py:88-93 | a fetch is started once per occurrence of a candidate exactly when it is not a hit |
| WebSearch.CacheHitFailsCall | app/core/tools/web_search.py:89-95 | a cached candidate makes the call raise the gather's TypeError, storing nothing and changing no entry |
| WebSearch.LabelledSources | app/core/tools/web_search.py:105-114 | the results are the truthy contents in order, each labelled with the URL at the same zip position, and every truthy content yields one |
| WebSearch.PagesFromContents | app/core/tools/web_search.py:97-114 | each page carries a candidate URL and the summary of the truthy body at that position, with at most one page per truthy body and per candidate |
| WebSearch.RetrievedPagesLabelled | app/core/tools/web_search.py:86-116 | a call that succeeds on its candidates had no hit and returns at most one page per candidate, each stamped now and labelled as PagesFromContents says |
| WebSearch.ZipMislabels | app/core/tools/web_search.py:84-114 | with the first of two search results unreachable, the second page's summary is returned and cached under the first URL |
| WebSearch.ZipPairsFirstUrl | app/core/tools/web_search.py:86-114 | the fetch-and-store part of ZipMislabels for the candidates [u1, u2] |
| WebSearch.WriteBackKeeps | app/core/tools/web_search.py:105-114 | writing back at most maxsize pages keeps the cache valid, leaves each written URL holding its last page, and leaves every other kept entry unchanged |
| WebSearch.RetrievedPagesCached | app/core/tools/web_search.py:105-116 | after a successful call every returned page's URL is cached with its last page, and every other entry still held is unchanged |
| WebSearch.GetRelevantWebPages | app/core/tools/web_search.py:78-116 | the procedure returns, fetches and leaves in the cache exactly what Retrieve says, failing search included |
| WebSearch.LookUpAll | app/core/tools/web_search.py:87-93 | the lookup loop builds Tasks, reports the started fetches and leaves the lookups' cache |
| WebSearch.LookUpOne | app/core/tools/web_search.py:88-93 | one candidate is a cache read on a hit and a started fetch otherwise |
| WebSearch.AwaitFetches | app/core/tools/web_search.py:95 | gather raises its TypeError exactly when a cached page is in the list; otherwise it gives the fetched bodies in order |
| WebSearch.ExtractContents | app/core/tools/web_search.py:97-103 | the extraction gather gives ExtractAll |
| WebSearch.StoreResults | app/core/tools/web_search.py:105-116 | the result loop returns the labelled pages and writes each back into the cache in order |
| WebSearch.StoreOne | app/core/tools/web_search.py:106-114 | one zipped pair: a truthy summary is cached and collected |

## Left out

- File and network I/O, `aiofiles`, `websocket.receive_json`/`send_json` and the HTTP session are modelled by their effects only: the frames sent, the file contents and the fetch outcomes.
- A `send_json` that fails (a client gone mid-turn), the `WebSocketDisconnect` branch, and the bare `except: pass` around the last send are not modelled; the end of the exchange list is the disconnect.
- Concurrency is not modelled. This covers the `asyncio.gather` fan-outs, the `create_task` scheduling order, the `TCPConnector(limit=5)` bound and the `@limits`/`@sleep_and_retry` rate limiter; the model runs everything sequentially in candidate order.
- `@lru_cache` on `fetch_url` caches the coroutine object, so a URL that appears twice among the uncached candidates would await one coroutine twice. The model fetches each occurrence once.
- The team's internals (`run_stream`, the selector call inside it, `save_state`/`load_state`, the LLM clients and the completion SDK) are parameters of a `Run`, and the selector is modelled on its own. app/core/agents/prompts.py, app/core/models/llm.py and app/core/agents/assistant_agent.py are not part of this model.
- app/core/tools/policy_search.py and the embedding model are not part of this model.
- The `googlesearch` provider, BeautifulSoup stripping, `markdownify` and TLS settings are parameters (`Services.search`, `Services.markdown`) or left out.
- `\w` is modelled as ASCII letters, digits and `_`; Python's Unicode word characters beyond ASCII are not modelled, nor is case folding beyond the letters of "https" (U+017F for 's' is included).
- Timestamps and the TTL clock are one integer `now` per call. Float event-loop time and time passing between a lookup and the following read are not modelled.
- The cache's expiry is modelled as a filter over all slots. cachetools walks its time-ordered list and stops at the first live entry, which is the same under a monotonic clock; a clock that goes backwards is not modelled.
- `TTLCache(maxsize=0)` and the ValueError cachetools raises for an item larger than `maxsize` are not modelled; `TtlCache.constructor` requires a positive size and ttl.
- Request validation by pydantic is an `Inbound` value that is valid or malformed; the error text is an input.
- The user proxy's own reads during a turn (app/api/chat.py:97-100) are folded into the team's `Run`: the replies it reads are among the stream's items, and a reply that fails validation is `Run.raised`, which the turn answers with the error pair.
- Frames keep only the "type", "source" and "content" keys of `model_dump()`; the other keys (`models_usage`, `metadata` and the like) are not modelled.
- Orchestrator.Speakers: when the selector function returns None the group chat asks its model, modelled as an arbitrary choice `pick` of the thread; autogen's parsing of the model's answer, its retries and its fallback speaker are not modelled (a pick outside the team ends the chain), and each chosen member answers with exactly one `TextMessage` (tool calls and multi-message replies are not modelled).
- The state path is a `Store` constant standing for the `STATE_PATH` setting; reading the environment is not modelled.
- `print` and `logger` calls are omitted.
- WebSearch.RetrievedPagesCached: requires that the candidates, when the search succeeds, fit in the cache (at most `maxsize` of them); with more, a later write-back can evict an earlier returned page, and the lemma says nothing then.
- WebSearch.WriteBackKeeps: requires a positive ttl so that pages stored at `now` are alive at `now`.
