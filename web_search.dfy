/** `get_relevant_web_pages` and its helpers (app/core/tools/web_search.py).

    The search provider, the HTTP fetch, the HTML stripping with conversion to
    markdown, and the summarising completion call are parameters (`Services`).
    The `asyncio.gather` fan-outs are sequential maps that keep candidate order,
    and one clock reading `now` serves the whole call. */
module WebSearch {
  import opened Wrappers
  import opened UrlPattern
  import opened Caching

  datatype WebPage = WebPage(url: string, content: string, timestamp: int)

  /** What `session.get(url, timeout=5, ...)` gave: a response whose `text()`
      succeeded or raised, or an exception before any response. */
  datatype HttpOutcome = Response(status: int, text: Result<string>) | Unreachable(error: string)

  /** The summarising completion call: the first choice's message content, which
      may be None, or the exception it raised. */
  datatype Completion = Reply(content: Option<string>) | CallFailed(error: string)

  datatype Services = Services(
    search: (string, nat, string) -> Result<seq<string>>,
    fetch: string -> HttpOutcome,
    markdown: string -> Result<string>,
    summarise: string -> Completion)

  /** An entry of the list handed to the first `gather`: the cached page itself
      (line 90) or the fetch started for an uncached URL (lines 92-93). */
  datatype Task = CachedPage(page: WebPage) | Fetching(html: Option<string>)

  const NumResults: nat := 3
  const Region: string := "my"

  /** `asyncio.gather` refuses a list entry that is not awaitable, such as a
      `WebPage`: `str(e)` of the TypeError it raises. */
  const GatherError: string := "An asyncio.Future, a coroutine or an awaitable is required"

  /** Python truthiness of an optional string. */
  predicate Truthy(s: Option<string>) {
    s.Some? && s.value != ""
  }

  // ---------------------------------------------------------------------------
  // The helpers

  /** `fetch_url` (lines 43-50): the body of a 200 response, otherwise None. */
  function FetchUrl(o: HttpOutcome): (r: Option<string>)
    ensures r.Some? <==> o.Response? && o.status == 200 && o.text.Success?
    ensures r.Some? ==> r.value == o.text.value
  {
    match o
    case Response(status, text) =>
      if status == 200 && text.Success? then Some(text.value) else None
    case Unreachable(_) => None
  }

  const PromptLead: string :=
    "Summarize the following content in 300 words specifically for information related to the '"
  const PromptQueryEnd: string := "':\n"

  /** The completion prompt of line 70. */
  function Prompt(query: string, markdown: string): string {
    PromptLead + query + PromptQueryEnd + markdown
  }

  /** `extract_content` (lines 52-76). Stripping and markdown conversion happen
      outside the `try`, so their failure propagates; a failing completion call
      gives None. */
  function ExtractContent(html: Option<string>, query: string, env: Services): (r: Result<Option<string>>)
    ensures !Truthy(html) ==> r == Success(None)
    ensures r.Failure? <==> Truthy(html) && env.markdown(html.value).Failure?
    ensures Truthy(html) && env.markdown(html.value).Success? ==>
      var reply := env.summarise(Prompt(query, env.markdown(html.value).value));
      r == Success(if reply.Reply? then reply.content else None)
  {
    if !Truthy(html) then Success(None)
    else
      match env.markdown(html.value)
      case Failure(e) => Failure(e)
      case Success(markdown) =>
        match env.summarise(Prompt(query, markdown))
        case Reply(content) => Success(content)
        case CallFailed(_) => Success(None)
  }

  /** The candidate URLs of line 84: a query the URL pattern accepts is the one
      candidate and no search is made; otherwise the search provider's answer, whose
      failure (a rate limit, say) propagates out of the call. */
  function Candidates(query: string, env: Services): (r: Result<seq<string>>)
    ensures r.Failure? ==> !Matches(query) && r == env.search(query, NumResults, Region)
    ensures Matches(query) ==> r == Success([query])
    ensures !Matches(query) ==> r == env.search(query, NumResults, Region)
  {
    if Matches(query) then Success([query]) else env.search(query, NumResults, Region)
  }

  // ---------------------------------------------------------------------------
  // The steps of get_relevant_web_pages, as folds over the candidates

  /** Some candidate is a cache hit. */
  predicate AnyHit(slots: seq<Slot<WebPage>>, urls: seq<string>, ttl: int, now: int) {
    exists i :: 0 <= i < |urls| && Hit(slots, urls[i], ttl, now)
  }

  /** The candidates for which a fetch is started (line 92), in order. */
  function Uncached(slots: seq<Slot<WebPage>>, urls: seq<string>, ttl: int, now: int): (u: seq<string>)
    ensures |u| <= |urls|
    ensures forall i :: 0 <= i < |u| ==> u[i] in urls && !Hit(slots, u[i], ttl, now)
  {
    if urls == [] then []
    else
      var last := urls[|urls| - 1];
      Uncached(slots, urls[..|urls| - 1], ttl, now) + (if Hit(slots, last, ttl, now) then [] else [last])
  }

  /** The cache after the lookups of line 90, each marking its key most recently used. */
  function LookedUp(slots: seq<Slot<WebPage>>, urls: seq<string>, ttl: int, now: int): seq<Slot<WebPage>> {
    if urls == [] then slots
    else
      var s := LookedUp(slots, urls[..|urls| - 1], ttl, now);
      var last := urls[|urls| - 1];
      if Hit(s, last, ttl, now) then Touch(s, Find(s, last).value) else s
  }

  /** The list handed to the first `gather` (lines 88-93). */
  function Tasks(slots: seq<Slot<WebPage>>, urls: seq<string>, ttl: int, now: int, env: Services): (t: seq<Task>)
    ensures |t| == |urls|
    ensures forall i :: 0 <= i < |urls| ==>
      t[i] == if Hit(slots, urls[i], ttl, now) then CachedPage(Entry(slots, urls[i]).value.value)
              else Fetching(FetchUrl(env.fetch(urls[i])))
  {
    if urls == [] then []
    else
      var last := urls[|urls| - 1];
      Tasks(slots, urls[..|urls| - 1], ttl, now, env)
      + [if Hit(slots, last, ttl, now) then CachedPage(Entry(slots, last).value.value)
         else Fetching(FetchUrl(env.fetch(last)))]
  }

  /** `htmls` when no candidate was cached. */
  function Htmls(urls: seq<string>, env: Services): (hs: seq<Option<string>>)
    ensures |hs| == |urls|
    ensures forall i :: 0 <= i < |urls| ==> hs[i] == FetchUrl(env.fetch(urls[i]))
  {
    if urls == [] then []
    else Htmls(urls[..|urls| - 1], env) + [FetchUrl(env.fetch(urls[|urls| - 1]))]
  }

  /** The truthy HTML bodies (the `if html` of line 100). */
  function TruthyOnly(htmls: seq<Option<string>>): (t: seq<Option<string>>)
    ensures |t| <= |htmls|
    ensures forall k :: 0 <= k < |t| ==> Truthy(t[k])
  {
    if htmls == [] then []
    else
      var last := htmls[|htmls| - 1];
      TruthyOnly(htmls[..|htmls| - 1]) + (if Truthy(last) then [last] else [])
  }

  /** The filter distributes over concatenation, so it keeps the bodies in order. */
  lemma {:induction false} TruthyOnlyAppend(a: seq<Option<string>>, b: seq<Option<string>>)
    ensures TruthyOnly(a + b) == TruthyOnly(a) + TruthyOnly(b)
  {
    if b != [] {
      var init := b[..|b| - 1];
      assert (a + b)[..|a + b| - 1] == a + init;
      assert (a + b)[|a + b| - 1] == b[|b| - 1];
      TruthyOnlyAppend(a, init);
    } else {
      assert a + b == a;
    }
  }

  /** The filter keeps every truthy body as often as it occurs and no falsy one. */
  lemma {:induction false} TruthyOnlyCounts(htmls: seq<Option<string>>)
    ensures forall x :: multiset(TruthyOnly(htmls))[x] == if Truthy(x) then multiset(htmls)[x] else 0
  {
    if htmls != [] {
      var init := htmls[..|htmls| - 1];
      var last := htmls[|htmls| - 1];
      TruthyOnlyCounts(init);
      LastSplit(htmls);
      assert multiset(htmls) == multiset(init) + multiset{last};
    }
  }

  /** `contents` (lines 97-103): one extraction per truthy HTML body, in order;
      the first extraction that raises makes the `gather` raise. */
  function ExtractAll(htmls: seq<Option<string>>, query: string, env: Services): (r: Result<seq<Option<string>>>)
    ensures r.Success? ==> |r.value| == |TruthyOnly(htmls)|
    ensures r.Success? ==> forall k :: 0 <= k < |r.value| ==>
      ExtractContent(TruthyOnly(htmls)[k], query, env) == Success(r.value[k])
  {
    if htmls == [] then Success([])
    else
      var last := htmls[|htmls| - 1];
      match ExtractAll(htmls[..|htmls| - 1], query, env)
      case Failure(e) => Failure(e)
      case Success(contents) =>
        if !Truthy(last) then Success(contents)
        else
          match ExtractContent(last, query, env)
          case Failure(e) => Failure(e)
          case Success(c) => Success(contents + [c])
  }

  /** The pages of lines 105-114 for the first `n` pairs of `zip(urls, contents)`. */
  function Labelled(urls: seq<string>, contents: seq<Option<string>>, n: nat, now: int): seq<WebPage>
    requires n <= |urls| && n <= |contents|
  {
    if n == 0 then []
    else
      Labelled(urls, contents, n - 1, now)
      + (if Truthy(contents[n - 1]) then [WebPage(urls[n - 1], contents[n - 1].value, now)] else [])
  }

  /** The positions `i < n` whose content is truthy, in increasing order. */
  function Sources(contents: seq<Option<string>>, n: nat): (ix: seq<nat>)
    requires n <= |contents|
    ensures |ix| <= n
    ensures forall k :: 0 <= k < |ix| ==> ix[k] < n && Truthy(contents[ix[k]])
  {
    if n == 0 then []
    else Sources(contents, n - 1) + (if Truthy(contents[n - 1]) then [n - 1] else [])
  }

  /** The cache after the write-backs of line 113. */
  function WriteBack(slots: seq<Slot<WebPage>>, pages: seq<WebPage>, now: int, ttl: int, maxSize: nat): seq<Slot<WebPage>>
    requires maxSize > 0
  {
    if pages == [] then slots
    else
      var last := pages[|pages| - 1];
      Stored(WriteBack(slots, pages[..|pages| - 1], now, ttl, maxSize), last.url, last, now, ttl, maxSize)
  }

  /** Shortest of the two lists, as `zip` pairs them. */
  function Min(a: nat, b: nat): nat {
    if a < b then a else b
  }

  /** Everything one call does. */
  datatype Retrieval = Retrieval(result: Result<seq<WebPage>>, slots: seq<Slot<WebPage>>, fetched: seq<string>)

  /** `get_relevant_web_pages(query)` at time `now` against the cache slots `slots`:
      the outcome, the cache afterwards and the URLs a fetch was started for. */
  function Retrieve(slots: seq<Slot<WebPage>>, query: string, now: int, env: Services, ttl: int, maxSize: nat)
    : (r: Retrieval)
    requires maxSize > 0
    ensures Candidates(query, env).Failure? ==> r == Retrieval(Failure(Candidates(query, env).error), slots, [])
    ensures Candidates(query, env).Success? ==> r == RetrieveFrom(slots, Candidates(query, env).value, query, now, env, ttl, maxSize)
  {
    match Candidates(query, env)
    case Failure(e) => Retrieval(Failure(e), slots, [])
    case Success(urls) => RetrieveFrom(slots, urls, query, now, env, ttl, maxSize)
  }

  /** Lines 86-116, once the candidates `urls` are known: a fetch is started for
      every candidate that is not a cache hit, and for no other URL. */
  function RetrieveFrom(slots: seq<Slot<WebPage>>, urls: seq<string>, query: string, now: int, env: Services,
                        ttl: int, maxSize: nat): (r: Retrieval)
    requires maxSize > 0
    ensures forall i :: 0 <= i < |r.fetched| ==> r.fetched[i] in urls && !Hit(slots, r.fetched[i], ttl, now)
    ensures |r.fetched| <= |urls|
  {
    var looked := LookedUp(slots, urls, ttl, now);
    var fetched := Uncached(slots, urls, ttl, now);
    if AnyHit(slots, urls, ttl, now) then Retrieval(Failure(GatherError), looked, fetched)
    else
      match ExtractAll(Htmls(urls, env), query, env)
      case Failure(e) => Retrieval(Failure(e), looked, fetched)
      case Success(contents) =>
        var pages := Labelled(urls, contents, Min(|urls|, |contents|), now);
        Retrieval(Success(pages), WriteBack(looked, pages, now, ttl, maxSize), fetched)
  }

  // ---------------------------------------------------------------------------
  // The procedure

  /** A prefix whose extraction failed fails the whole `gather` with the same error. */
  lemma {:induction false} ExtractAllFailurePersists(htmls: seq<Option<string>>, i: nat, query: string, env: Services)
    requires i <= |htmls| && ExtractAll(htmls[..i], query, env).Failure?
    ensures ExtractAll(htmls, query, env) == ExtractAll(htmls[..i], query, env)
    decreases |htmls| - i
  {
    if i < |htmls| {
      assert htmls[..i + 1][..i] == htmls[..i];
      ExtractAllFailurePersists(htmls, i + 1, query, env);
    } else {
      assert htmls[..i] == htmls;
    }
  }

  /** One candidate more for the folds of lines 87-93. */
  lemma LookUpStep(slots: seq<Slot<WebPage>>, urls: seq<string>, i: nat, ttl: int, now: int, env: Services)
    requires i < |urls|
    ensures var s := LookedUp(slots, urls[..i], ttl, now);
      LookedUp(slots, urls[..i + 1], ttl, now)
      == if Hit(s, urls[i], ttl, now) then Touch(s, Find(s, urls[i]).value) else s
    ensures Tasks(slots, urls[..i + 1], ttl, now, env) == Tasks(slots, urls[..i], ttl, now, env)
      + [if Hit(slots, urls[i], ttl, now) then CachedPage(Entry(slots, urls[i]).value.value)
         else Fetching(FetchUrl(env.fetch(urls[i])))]
    ensures Uncached(slots, urls[..i + 1], ttl, now) == Uncached(slots, urls[..i], ttl, now)
      + (if Hit(slots, urls[i], ttl, now) then [] else [urls[i]])
  {
    assert urls[..i + 1][..i] == urls[..i];
  }

  /** `get_relevant_web_pages` (lines 78-116) against the cache `cache`. */
  method GetRelevantWebPages(cache: TtlCache<WebPage>, query: string, now: int, env: Services)
    returns (r: Result<seq<WebPage>>, fetched: seq<string>)
    requires cache.Valid()
    modifies cache
    ensures cache.Valid()
    ensures Retrieval(r, cache.slots, fetched) == Retrieve(old(cache.slots), query, now, env, cache.ttl, cache.maxSize)
  {
    var candidates := if Matches(query) then Success([query]) else env.search(query, NumResults, Region);
    if candidates.Failure? {
      return Failure(candidates.error), [];
    }
    var urls := candidates.value;
    ghost var slots0 := cache.slots;
    var tasks;
    tasks, fetched := LookUpAll(cache, urls, now, env);
    var htmls := AwaitFetches(tasks);
    if htmls.Failure? {
      var i :| 0 <= i < |tasks| && tasks[i].CachedPage?;
      assert Hit(slots0, urls[i], cache.ttl, now);
      return Failure(htmls.error), fetched;
    }
    assert !AnyHit(slots0, urls, cache.ttl, now) by {
      forall i | 0 <= i < |urls| ensures !Hit(slots0, urls[i], cache.ttl, now) {
        assert tasks[i].Fetching?;
      }
    }
    assert htmls.value == Htmls(urls, env);
    var contents := ExtractContents(htmls.value, query, env);
    if contents.Failure? {
      return Failure(contents.error), fetched;
    }
    var results := StoreResults(cache, urls, contents.value, now);
    r := Success(results);
  }

  /** Lines 87-93: for each candidate, the cached page (a lookup) or a started fetch. */
  method LookUpAll(cache: TtlCache<WebPage>, urls: seq<string>, now: int, env: Services)
    returns (tasks: seq<Task>, fetched: seq<string>)
    requires cache.Valid()
    modifies cache
    ensures cache.Valid()
    ensures cache.slots == LookedUp(old(cache.slots), urls, cache.ttl, now)
    ensures tasks == Tasks(old(cache.slots), urls, cache.ttl, now, env)
    ensures forall i :: 0 <= i < |urls| ==> (tasks[i].CachedPage? <==> Hit(old(cache.slots), urls[i], cache.ttl, now))
    ensures fetched == Uncached(old(cache.slots), urls, cache.ttl, now)
  {
    ghost var slots0 := cache.slots;
    tasks := [];
    fetched := [];
    var i := 0;
    while i < |urls|
      invariant 0 <= i <= |urls|
      invariant cache.Valid()
      invariant cache.slots == LookedUp(slots0, urls[..i], cache.ttl, now)
      invariant forall k :: Entry(cache.slots, k) == Entry(slots0, k)
      invariant tasks == Tasks(slots0, urls[..i], cache.ttl, now, env)
      invariant fetched == Uncached(slots0, urls[..i], cache.ttl, now)
    {
      LookUpStep(slots0, urls, i, cache.ttl, now, env);
      var task, started := LookUpOne(cache, urls[i], now, env);
      tasks := tasks + [task];
      fetched := fetched + started;
      i := i + 1;
    }
    assert urls[..|urls|] == urls;
  }

  /** One candidate of lines 88-93: the cached page, read through the cache, or
      a started fetch. */
  method LookUpOne(cache: TtlCache<WebPage>, url: string, now: int, env: Services)
    returns (task: Task, started: seq<string>)
    requires cache.Valid()
    modifies cache
    ensures cache.Valid()
    ensures var s := old(cache.slots);
      cache.slots == if Hit(s, url, cache.ttl, now) then Touch(s, Find(s, url).value) else s
    ensures forall k :: Entry(cache.slots, k) == Entry(old(cache.slots), k)
    ensures task == if Hit(old(cache.slots), url, cache.ttl, now) then CachedPage(Entry(old(cache.slots), url).value.value)
      else Fetching(FetchUrl(env.fetch(url)))
    ensures started == if Hit(old(cache.slots), url, cache.ttl, now) then [] else [url]
  {
    if cache.Contains(url, now) {
      var page := cache.Get(url, now);
      task, started := CachedPage(page), [];
    } else {
      task, started := Fetching(FetchUrl(env.fetch(url))), [url];
    }
  }

  /** Line 95: the first `gather`, which raises on a cached page. */
  method AwaitFetches(tasks: seq<Task>) returns (r: Result<seq<Option<string>>>)
    ensures r.Failure? ==> r.error == GatherError && exists i :: 0 <= i < |tasks| && tasks[i].CachedPage?
    ensures r.Success? ==> |r.value| == |tasks|
    ensures r.Success? ==> forall i :: 0 <= i < |tasks| ==> tasks[i].Fetching? && r.value[i] == tasks[i].html
  {
    var htmls: seq<Option<string>> := [];
    var i := 0;
    while i < |tasks|
      invariant 0 <= i <= |tasks|
      invariant |htmls| == i
      invariant forall j :: 0 <= j < i ==> tasks[j].Fetching? && htmls[j] == tasks[j].html
    {
      if tasks[i].CachedPage? {
        return Failure(GatherError);
      }
      htmls := htmls + [tasks[i].html];
      i := i + 1;
    }
    r := Success(htmls);
  }

  /** Lines 97-103: one extraction per truthy body, in order; the first that raises
      is the outcome. */
  method ExtractContents(htmls: seq<Option<string>>, query: string, env: Services)
    returns (r: Result<seq<Option<string>>>)
    ensures r == ExtractAll(htmls, query, env)
  {
    var contents: seq<Option<string>> := [];
    var i := 0;
    while i < |htmls|
      invariant 0 <= i <= |htmls|
      invariant ExtractAll(htmls[..i], query, env) == Success(contents)
    {
      assert htmls[..i + 1][..i] == htmls[..i];
      if Truthy(htmls[i]) {
        var content := ExtractContent(htmls[i], query, env);
        if content.Failure? {
          ExtractAllFailurePersists(htmls, i + 1, query, env);
          return Failure(content.error);
        }
        contents := contents + [content.value];
      }
      i := i + 1;
    }
    assert htmls[..|htmls|] == htmls;
    r := Success(contents);
  }

  /** Lines 105-116: pair `urls` with `contents`, and cache and collect each truthy
      summary under the URL it is paired with. */
  method StoreResults(cache: TtlCache<WebPage>, urls: seq<string>, contents: seq<Option<string>>, now: int)
    returns (results: seq<WebPage>)
    requires cache.Valid()
    modifies cache
    ensures cache.Valid()
    ensures results == Labelled(urls, contents, Min(|urls|, |contents|), now)
    ensures cache.slots == WriteBack(old(cache.slots), results, now, cache.ttl, cache.maxSize)
  {
    results := [];
    var n := Min(|urls|, |contents|);
    var i := 0;
    while i < n
      invariant 0 <= i <= n
      invariant cache.Valid()
      invariant results == Labelled(urls, contents, i, now)
      invariant cache.slots == WriteBack(old(cache.slots), results, now, cache.ttl, cache.maxSize)
    {
      results := StoreOne(cache, urls, contents, i, now, results, old(cache.slots));
      i := i + 1;
    }
  }

  /** One pair of lines 105-114: a truthy summary is cached and collected. */
  method StoreOne(cache: TtlCache<WebPage>, urls: seq<string>, contents: seq<Option<string>>, i: nat, now: int,
                  results: seq<WebPage>, ghost slots0: seq<Slot<WebPage>>)
    returns (results': seq<WebPage>)
    requires cache.Valid() && i < |urls| && i < |contents|
    requires results == Labelled(urls, contents, i, now)
    requires cache.slots == WriteBack(slots0, results, now, cache.ttl, cache.maxSize)
    modifies cache
    ensures cache.Valid()
    ensures results' == Labelled(urls, contents, i + 1, now)
    ensures cache.slots == WriteBack(slots0, results', now, cache.ttl, cache.maxSize)
  {
    results' := results;
    if Truthy(contents[i]) {
      var page := WebPage(urls[i], contents[i].value, now);
      cache.Set(urls[i], page, now);
      results' := results + [page];
      assert results'[..|results|] == results;
    }
  }

  // ---------------------------------------------------------------------------
  // What one call promises

  /** A query that is itself a URL is the one candidate, and no search is made. */
  lemma UrlQueryIsSoleCandidate(query: string, env: Services)
    requires Matches(query)
    ensures Candidates(query, env) == Success([query])
    ensures InLanguage(query)
    ensures exists q :: 0 <= q < |query| - 1 && query[q] == '.'
  {
    MatchesIsLanguage(query);
    MatchShape(query);
  }

  /** The lookups reorder the cache but change no entry and no size. */
  lemma {:induction false} LookedUpKeepsEntries(slots: seq<Slot<WebPage>>, urls: seq<string>, ttl: int, now: int)
    requires Distinct(slots)
    ensures var s := LookedUp(slots, urls, ttl, now);
      Distinct(s) && |s| == |slots| && forall k :: Entry(s, k) == Entry(slots, k)
  {
    if urls != [] {
      var s := LookedUp(slots, urls[..|urls| - 1], ttl, now);
      LookedUpKeepsEntries(slots, urls[..|urls| - 1], ttl, now);
      var last := urls[|urls| - 1];
      if Hit(s, last, ttl, now) {
        forall k ensures Entry(Touch(s, Find(s, last).value), k) == Entry(s, k) {
          TouchKeepsEntries(s, Find(s, last).value, k);
        }
        TouchKeepsEntries(s, Find(s, last).value, last);
      }
    }
  }

  /** A fetch is started for a URL once per occurrence among the candidates
      exactly when it is not a cache hit. */
  lemma {:induction false} FetchAccounting(slots: seq<Slot<WebPage>>, urls: seq<string>, ttl: int, now: int, u: string)
    ensures multiset(Uncached(slots, urls, ttl, now))[u]
      == if Hit(slots, u, ttl, now) then 0 else multiset(urls)[u]
  {
    if urls != [] {
      var init := urls[..|urls| - 1];
      var last := urls[|urls| - 1];
      FetchAccounting(slots, init, ttl, now, u);
      LastSplit(urls);
      assert multiset(urls) == multiset(init) + multiset{last};
      assert multiset(Uncached(slots, urls, ttl, now)) == multiset(Uncached(slots, init, ttl, now))
        + multiset(if Hit(slots, last, ttl, now) then [] else [last]);
    }
  }

  /** A cached candidate makes the call raise after the lookups: nothing is
      returned, no page is stored, and only the recency order of the cache moves. */
  lemma CacheHitFailsCall(slots: seq<Slot<WebPage>>, query: string, now: int, env: Services, ttl: int, maxSize: nat)
    requires maxSize > 0 && Distinct(slots)
    requires Candidates(query, env).Success? && AnyHit(slots, Candidates(query, env).value, ttl, now)
    ensures var r := Retrieve(slots, query, now, env, ttl, maxSize);
      r.result == Failure(GatherError) && |r.slots| == |slots| && forall k :: Entry(r.slots, k) == Entry(slots, k)
  {
    LookedUpKeepsEntries(slots, Candidates(query, env).value, ttl, now);
  }

  /** The pages are the truthy contents in order, each labelled with the URL at
      the same position of `urls`, and every truthy content among the first `n`
      gives a page. */
  lemma {:induction false} LabelledSources(urls: seq<string>, contents: seq<Option<string>>, n: nat, now: int)
    requires n <= |urls| && n <= |contents|
    ensures var pages, ix := Labelled(urls, contents, n, now), Sources(contents, n);
      && |pages| == |ix|
      && (forall k :: 0 <= k < |ix| ==> pages[k] == WebPage(urls[ix[k]], contents[ix[k]].value, now))
      && (forall k, l :: 0 <= k < l < |ix| ==> ix[k] < ix[l])
      && (forall i :: 0 <= i < n && Truthy(contents[i]) ==> i in ix)
  {
    if n > 0 {
      LabelledSources(urls, contents, n - 1, now);
    }
  }

  /** The pages built from successful extractions: each carries one of `urls` and
      the summary of the truthy body at that URL's position among the truthy
      bodies, which is not necessarily the body fetched from that URL. */
  lemma PagesFromContents(urls: seq<string>, htmls: seq<Option<string>>, query: string, now: int, env: Services)
    requires ExtractAll(htmls, query, env).Success?
    ensures var truthy, contents := TruthyOnly(htmls), ExtractAll(htmls, query, env).value;
      var pages := Labelled(urls, contents, Min(|urls|, |contents|), now);
      && |pages| <= |truthy|
      && |pages| <= |urls|
      && forall k :: 0 <= k < |pages| ==> pages[k].timestamp == now && exists i ::
           0 <= i < |urls| && i < |truthy| && pages[k].url == urls[i]
           && ExtractContent(truthy[i], query, env) == Success(Some(pages[k].content))
  {
    var truthy, contents := TruthyOnly(htmls), ExtractAll(htmls, query, env).value;
    var n := Min(|urls|, |contents|);
    var pages := Labelled(urls, contents, n, now);
    LabelledSources(urls, contents, n, now);
    var ix := Sources(contents, n);
    forall k | 0 <= k < |pages|
      ensures pages[k].timestamp == now && exists i ::
        0 <= i < |urls| && i < |truthy| && pages[k].url == urls[i]
        && ExtractContent(truthy[i], query, env) == Success(Some(pages[k].content))
    {
      var i := ix[k];
      assert ExtractContent(truthy[i], query, env) == Success(contents[i]);
    }
  }

  /** A call whose candidates are `urls` succeeds only when no candidate was cached,
      and then returns at most one page per candidate, each labelled as
      `PagesFromContents` says. */
  lemma RetrievedPagesLabelled(slots: seq<Slot<WebPage>>, urls: seq<string>, query: string, now: int, env: Services,
                               ttl: int, maxSize: nat)
    requires maxSize > 0
    ensures var r := RetrieveFrom(slots, urls, query, now, env, ttl, maxSize).result;
      r.Success? ==>
        && !AnyHit(slots, urls, ttl, now)
        && |r.value| <= |TruthyOnly(Htmls(urls, env))| <= |urls|
        && forall k :: 0 <= k < |r.value| ==> r.value[k].timestamp == now && exists i ::
             0 <= i < |urls| && i < |TruthyOnly(Htmls(urls, env))| && r.value[k].url == urls[i]
             && ExtractContent(TruthyOnly(Htmls(urls, env))[i], query, env) == Success(Some(r.value[k].content))
  {
    var htmls := Htmls(urls, env);
    if !AnyHit(slots, urls, ttl, now) && ExtractAll(htmls, query, env).Success? {
      PagesFromContents(urls, htmls, query, now, env);
    }
  }

  /** Two search results, the first giving no page and the second a page whose
      summary is non-empty: that summary is returned, and cached, under the first
      URL, and the second URL gets nothing. */
  lemma ZipMislabels(query: string, env: Services, u1: string, u2: string, html: string, md: string,
                     summary: string, now: int, ttl: int, maxSize: nat)
    requires !Matches(query) && env.search(query, NumResults, Region) == Success([u1, u2])
    requires FetchUrl(env.fetch(u1)).None?
    requires env.fetch(u2) == Response(200, Success(html)) && html != ""
    requires env.markdown(html) == Success(md) && env.summarise(Prompt(query, md)) == Reply(Some(summary))
    requires summary != "" && maxSize > 0
    ensures var r := Retrieve([], query, now, env, ttl, maxSize);
      r.result == Success([WebPage(u1, summary, now)])
      && Entry(r.slots, u1) == Some(Slot(u1, WebPage(u1, summary, now), now))
  {
    assert Candidates(query, env) == Success([u1, u2]);
    ZipPairsFirstUrl(query, env, u1, u2, html, md, summary, now, ttl, maxSize);
  }

  /** The fetch-and-store part of `ZipMislabels`. */
  lemma ZipPairsFirstUrl(query: string, env: Services, u1: string, u2: string, html: string, md: string,
                         summary: string, now: int, ttl: int, maxSize: nat)
    requires FetchUrl(env.fetch(u1)).None?
    requires env.fetch(u2) == Response(200, Success(html)) && html != ""
    requires env.markdown(html) == Success(md) && env.summarise(Prompt(query, md)) == Reply(Some(summary))
    requires summary != "" && maxSize > 0
    ensures var r := RetrieveFrom([], [u1, u2], query, now, env, ttl, maxSize);
      r.result == Success([WebPage(u1, summary, now)])
      && Entry(r.slots, u1) == Some(Slot(u1, WebPage(u1, summary, now), now))
  {
    var urls := [u1, u2];
    assert !AnyHit([], urls, ttl, now);
    var htmls := Htmls(urls, env);
    assert htmls == [None, Some(html)];
    assert htmls[..1] == [None] && htmls[..1][..0] == [];
    assert ExtractAll(htmls[..1], query, env) == Success([]);
    assert ExtractContent(htmls[1], query, env) == Success(Some(summary));
    assert [] + [Some(summary)] == [Some(summary)];
    assert ExtractAll(htmls, query, env) == Success([Some(summary)]);
    var pages := [WebPage(u1, summary, now)];
    assert Labelled(urls, [Some(summary)], 1, now) == pages;
    LookedUpKeepsEntries([], urls, ttl, now);
    assert pages[..0] == [];
    assert WriteBack([], pages, now, ttl, maxSize) == Stored([], u1, pages[0], now, ttl, maxSize);
    StoredHit([], u1, pages[0], now, ttl, maxSize, now);
  }

  // ---------------------------------------------------------------------------
  // What the write-backs leave in the cache

  /** The URLs of `pages`. */
  function UrlSet(pages: seq<WebPage>): (u: set<string>)
    ensures |u| <= |pages|
  {
    if pages == [] then {} else UrlSet(pages[..|pages| - 1]) + {pages[|pages| - 1].url}
  }

  /** The last page of `pages` with URL `u`: the one a write-back leaves under `u`. */
  function LastWrite(pages: seq<WebPage>, u: string): (r: Option<WebPage>)
    ensures r.Some? <==> u in UrlSet(pages)
    ensures r.Some? ==> r.value.url == u
  {
    if pages == [] then None
    else if pages[|pages| - 1].url == u then Some(pages[|pages| - 1])
    else LastWrite(pages[..|pages| - 1], u)
  }

  /** Writing back at most `maxSize` pages into a valid cache keeps it valid and
      leaves every written URL holding its last page, stored at `now`; every other
      key is either gone or unchanged. */
  lemma {:induction false} WriteBackKeeps(slots: seq<Slot<WebPage>>, pages: seq<WebPage>, now: int, ttl: int, maxSize: nat)
    requires maxSize > 0 && ttl > 0 && |slots| <= maxSize && Distinct(slots) && |pages| <= maxSize
    ensures var w := WriteBack(slots, pages, now, ttl, maxSize);
      && |w| <= maxSize && Distinct(w) && KeysLast(w, UrlSet(pages))
      && (forall u :: u in UrlSet(pages) ==> Entry(w, u) == Some(Slot(u, LastWrite(pages, u).value, now)))
      && (forall k :: k !in UrlSet(pages) && Entry(w, k).Some? ==> Entry(w, k) == Entry(slots, k))
  {
    if pages != [] {
      var init := pages[..|pages| - 1];
      var last := pages[|pages| - 1];
      var prev := WriteBack(slots, init, now, ttl, maxSize);
      WriteBackKeeps(slots, init, now, ttl, maxSize);
      var w := Stored(prev, last.url, last, now, ttl, maxSize);
      StoredValid(prev, last.url, last, now, ttl, maxSize);
      StoredKeysLast(prev, UrlSet(init), last.url, last, now, ttl, maxSize);
      StoredHit(prev, last.url, last, now, ttl, maxSize, now);
      forall u | u in UrlSet(pages) ensures Entry(w, u) == Some(Slot(u, LastWrite(pages, u).value, now)) {
        if u != last.url {
          StoredKeepsWritten(prev, UrlSet(init), last.url, last, now, ttl, maxSize, u);
        }
      }
      forall k | k !in UrlSet(pages) && Entry(w, k).Some? ensures Entry(w, k) == Entry(slots, k) {
        StoredKeepsOthers(prev, last.url, last, now, ttl, maxSize, k);
      }
    }
  }

  /** When the candidates fit in the cache, every page a call returns is then
      cached under its URL (the last page for a repeated URL), stored at `now`, and
      every other entry still held is unchanged. */
  lemma RetrievedPagesCached(slots: seq<Slot<WebPage>>, query: string, now: int, env: Services, ttl: int, maxSize: nat)
    requires maxSize > 0 && ttl > 0 && |slots| <= maxSize && Distinct(slots)
    requires Candidates(query, env).Success? ==> |Candidates(query, env).value| <= maxSize
    ensures var r := Retrieve(slots, query, now, env, ttl, maxSize);
      && |r.slots| <= maxSize && Distinct(r.slots)
      && (r.result.Success? ==> forall p :: p in r.result.value ==>
            LastWrite(r.result.value, p.url).Some?
            && Entry(r.slots, p.url) == Some(Slot(p.url, LastWrite(r.result.value, p.url).value, now)))
      && (forall k :: Entry(r.slots, k).Some? && (r.result.Success? ==> k !in UrlSet(r.result.value)) ==>
            Entry(r.slots, k) == Entry(slots, k))
  {
    var r := Retrieve(slots, query, now, env, ttl, maxSize);
    if Candidates(query, env).Success? {
      var urls := Candidates(query, env).value;
      LookedUpKeepsEntries(slots, urls, ttl, now);
      RetrievedPagesLabelled(slots, urls, query, now, env, ttl, maxSize);
    }
    if r.result.Success? {
      var urls := Candidates(query, env).value;
      var looked := LookedUp(slots, urls, ttl, now);
      WriteBackKeeps(looked, r.result.value, now, ttl, maxSize);
      forall p | p in r.result.value ensures p.url in UrlSet(r.result.value) {
        PageUrlListed(r.result.value, p);
      }
    }
  }

  lemma {:induction false} PageUrlListed(pages: seq<WebPage>, p: WebPage)
    requires p in pages
    ensures p.url in UrlSet(pages)
  {
    if pages[|pages| - 1] != p {
      assert p in pages[..|pages| - 1];
      PageUrlListed(pages[..|pages| - 1], p);
    }
  }
}
