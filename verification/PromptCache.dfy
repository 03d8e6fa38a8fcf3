/** The prompt cache: completions kept for a while, cache-break detection, and running statistics. */
module PromptCache {
  import opened Prelude

  /** A request as the cache sees it: its key and the hashes of its parts. */
  datatype Fingerprint = Fingerprint(model: int, system: int, tools: int, messages: int)
  datatype Request = Request(key: string, fingerprint: Fingerprint)
  datatype Usage = Usage(cacheCreation: nat, cacheRead: nat)

  datatype Config = Config(completionTtl: int, promptTtl: int, breakMinDrop: int)

  const VERSION: nat := 1

  datatype Tracked = Tracked(observedAt: int, version: nat, fingerprint: Fingerprint, cacheRead: nat)
  datatype BreakReason = VersionChanged | PartsChanged(parts: seq<string>) | TtlExpiry(elapsed: int) | StableDrop
  datatype CacheBreak =
    CacheBreak(unexpected: bool, reason: BreakReason, previousRead: nat, currentRead: nat, drop: nat)

  function Changed(p: Fingerprint, c: Fingerprint): seq<string> {
    (if p.model != c.model then ["model changed"] else [])
    + (if p.system != c.system then ["system prompt changed"] else [])
    + (if p.tools != c.tools then ["tool definitions changed"] else [])
    + (if p.messages != c.messages then ["message payload changed"] else [])
  }

  function Drop(previous: Tracked, current: Tracked): nat {
    if previous.cacheRead > current.cacheRead then previous.cacheRead - current.cacheRead else 0
  }

  function DetectCacheBreak(config: Config, previous: Option<Tracked>, current: Tracked): Option<CacheBreak> {
    if previous.None? then None
    else
      var p := previous.value;
      var found := (unexpected, reason) =>
        Some(CacheBreak(unexpected, reason, p.cacheRead, current.cacheRead, Drop(p, current)));
      if p.version != current.version then found(false, VersionChanged)
      else if Drop(p, current) < config.breakMinDrop then None
      else
        var parts := Changed(p.fingerprint, current.fingerprint);
        var elapsed := current.observedAt - p.observedAt;
        if parts != [] then found(false, PartsChanged(parts))
        else if elapsed > config.promptTtl then found(false, TtlExpiry(elapsed))
        else found(true, StableDrop)
  }

  /** Cached tokens read before and not now. */
  function Lost(previous: nat, current: nat): int {
    if current < previous then previous - current else 0
  }

  /** A break is reported as unexpected exactly when the same prompt lost enough cached tokens within its lifetime. */
  lemma UnexpectedExactly(config: Config, previous: Tracked, current: Tracked)
    requires previous.version == current.version
    ensures var found := DetectCacheBreak(config, Some(previous), current);
            var lost := Lost(previous.cacheRead, current.cacheRead);
            && (found.Some? <==> lost >= config.breakMinDrop)
            && (found.Some? && found.value.unexpected <==>
                  && lost >= config.breakMinDrop
                  && previous.fingerprint == current.fingerprint
                  && current.observedAt - previous.observedAt <= config.promptTtl)
  {
    var p, c := previous.fingerprint, current.fingerprint;
    assert Changed(p, c) == [] <==> p == c;
  }

  /**
   * What a break reports: the token counts, and as its reason a new version, else the parts that changed, else the
   * time that passed when it is more than the lifetime, else nothing that explains it.
   */
  lemma BreakMeans(config: Config, previous: Tracked, current: Tracked)
    ensures var found := DetectCacheBreak(config, Some(previous), current);
            var p, c := previous.fingerprint, current.fingerprint;
            var lost, elapsed := Lost(previous.cacheRead, current.cacheRead), current.observedAt - previous.observedAt;
            && DetectCacheBreak(config, None, current).None?
            && (found.None? <==> previous.version == current.version && lost < config.breakMinDrop)
            && (found.Some? ==>
                  && found.value.previousRead == previous.cacheRead && found.value.currentRead == current.cacheRead
                  && found.value.drop == lost
                  && if previous.version != current.version then found.value.reason == VersionChanged
                     else if p != c then
                       found.value.reason.PartsChanged? && NamesChanges(found.value.reason.parts, p, c)
                     else if elapsed > config.promptTtl then found.value.reason == TtlExpiry(elapsed)
                     else found.value.reason == StableDrop)
            && (found.Some? ==> (found.value.unexpected <==> found.value.reason == StableDrop))
  {
    hide NamesChanges;
    var p, c := previous.fingerprint, current.fingerprint;
    ChangesNamed(p, c);
  }

  /** Exactly the parts that differ are named, each once. */
  ghost predicate NamesChanges(parts: seq<string>, p: Fingerprint, c: Fingerprint) {
    && (("model changed" in parts) <==> p.model != c.model)
    && (("system prompt changed" in parts) <==> p.system != c.system)
    && (("tool definitions changed" in parts) <==> p.tools != c.tools)
    && (("message payload changed" in parts) <==> p.messages != c.messages)
    && forall i, j :: 0 <= i < j < |parts| ==> parts[i] != parts[j]
  }

  lemma ChangesNamed(p: Fingerprint, c: Fingerprint)
    ensures NamesChanges(Changed(p, c), p, c)
    ensures Changed(p, c) == [] <==> p == c
  {
    NamesDiffer();
  }

  lemma NamesDiffer()
    ensures |"model changed"| < |"system prompt changed"| < |"message payload changed"| < |"tool definitions changed"|
  {
  }

  datatype Stats = Stats(
    trackedRequests: nat, hits: nat, misses: nat, writes: nat, expectedInvalidations: nat, unexpectedBreaks: nat,
    totalCreation: nat, totalRead: nat, lastCreation: Option<nat>, lastRead: Option<nat>,
    lastRequestHash: Option<string>, lastCompletionKey: Option<string>, lastBreakReason: Option<BreakReason>)

  const EMPTY_STATS := Stats(0, 0, 0, 0, 0, 0, 0, 0, None, None, None, None, None)

  function ApplyUsage(s: Stats, usage: Usage, key: string): Stats {
    s.(totalCreation := s.totalCreation + usage.cacheCreation, totalRead := s.totalRead + usage.cacheRead,
       lastCreation := Some(usage.cacheCreation), lastRead := Some(usage.cacheRead), lastRequestHash := Some(key))
  }

  datatype Entry<R> = Entry(cachedAt: int, version: nat, response: R)

  // ----- the history a cache is measured against

  /** One recorded response. */
  datatype Stored<R> = Stored(key: string, at: int, response: R)

  function Latest<R>(history: seq<Stored<R>>, key: string): Option<Stored<R>> {
    if history == [] then None
    else if history[|history| - 1].key == key then Some(history[|history| - 1])
    else Latest(history[..|history| - 1], key)
  }

  /** The latest response recorded under a key, if it was recorded less than `ttl` ago. */
  function Remembered<R>(history: seq<Stored<R>>, key: string, now: int, ttl: int): Option<R> {
    var latest := Latest(history, key);
    if latest.Some? && now - latest.value.at < ttl then Some(latest.value.response) else None
  }

  lemma LatestSnoc<R>(history: seq<Stored<R>>, s: Stored<R>, key: string)
    ensures Latest(history + [s], key) == if s.key == key then Some(s) else Latest(history, key)
  {
    assert (history + [s])[..|history|] == history;
  }

  /** Latest is the last record under the key: nothing after it has that key. */
  lemma {:induction false} LatestIsLast<R>(history: seq<Stored<R>>, key: string)
    ensures match Latest(history, key)
            case None => forall i :: 0 <= i < |history| ==> history[i].key != key
            case Some(s) => exists i :: 0 <= i < |history| && history[i] == s && s.key == key
                                        && forall j :: i < j < |history| ==> history[j].key != key
  {
    if history != [] {
      var front := history[..|history| - 1];
      LatestIsLast(front, key);
      if Latest(front, key).Some? {
        var i :| 0 <= i < |front| && front[i] == Latest(front, key).value
                 && forall j :: i < j < |front| ==> front[j].key != key;
        assert history[i] == front[i];
      }
    }
  }

  /** A response is remembered exactly when the last record of its key holds it and is younger than the lifetime. */
  lemma RememberedExactly<R>(history: seq<Stored<R>>, key: string, now: int, ttl: int)
    ensures var found := Remembered(history, key, now, ttl);
            if found.Some? then exists i :: LastRecord(history, key, i) && history[i].response == found.value
                                            && now < history[i].at + ttl
            else forall i :: LastRecord(history, key, i) ==> now >= history[i].at + ttl
  {
    LatestIsLast(history, key);
    if Latest(history, key).Some? {
      var i :| 0 <= i < |history| && history[i] == Latest(history, key).value && history[i].key == key
               && forall j :: i < j < |history| ==> history[j].key != key;
      assert LastRecord(history, key, i);
    }
  }

  ghost predicate LastRecord<R>(history: seq<Stored<R>>, key: string, i: int) {
    0 <= i < |history| && history[i].key == key && forall j :: i < j < |history| ==> history[j].key != key
  }

  /** The completions agree with the history up to entries that have already expired. */
  ghost predicate Agree<R>(completions: map<string, Entry<R>>, history: seq<Stored<R>>, now: int, ttl: int) {
    && (forall key :: key in completions ==> Backed(completions[key], Latest(history, key)))
    && forall key :: key !in completions ==> Remembered(history, key, now, ttl) == None
  }

  ghost predicate Backed<R>(entry: Entry<R>, latest: Option<Stored<R>>) {
    && entry.version == VERSION
    && latest.Some? && latest.value.at == entry.cachedAt && latest.value.response == entry.response
  }

  lemma TimePasses<R>(completions: map<string, Entry<R>>, history: seq<Stored<R>>, now: int, later: int, ttl: int)
    requires Agree(completions, history, now, ttl) && now <= later
    ensures Agree(completions, history, later, ttl)
  {
    forall key | key !in completions ensures Remembered(history, key, later, ttl) == None {
      assert Remembered(history, key, now, ttl) == None;
    }
  }

  lemma ExpiryIsUnobservable<R>(completions: map<string, Entry<R>>, history: seq<Stored<R>>, now: int, ttl: int,
                                key: string)
    requires Agree(completions, history, now, ttl) && key in completions
    requires now - completions[key].cachedAt >= ttl
    ensures Agree(completions - {key}, history, now, ttl)
  {
    var rest := completions - {key};
    assert Backed(completions[key], Latest(history, key));
    forall k | k !in rest ensures Remembered(history, k, now, ttl) == None {
    }
  }

  lemma RecordingAgrees<R>(completions: map<string, Entry<R>>, history: seq<Stored<R>>, now: int, ttl: int, key: string,
                           response: R)
    requires Agree(completions, history, now, ttl)
    ensures Agree(completions[key := Entry(now, VERSION, response)], history + [Stored(key, now, response)], now, ttl)
  {
    var next, longer := completions[key := Entry(now, VERSION, response)], history + [Stored(key, now, response)];
    forall k ensures Latest(longer, k) == if k == key then Some(Stored(key, now, response)) else Latest(history, k) {
      LatestSnoc(history, Stored(key, now, response), k);
    }
    forall k | k in next ensures Backed(next[k], Latest(longer, k)) {
      assert k != key ==> Backed(completions[k], Latest(history, k));
    }
    forall k | k !in next ensures Remembered(longer, k, now, ttl) == None {
      assert Remembered(history, k, now, ttl) == None;
    }
  }

  /** A cache over empty in-memory storage. Ghost fields keep the history and the calls made. */
  class Cache<R> {
    const config: Config
    var completions: map<string, Entry<R>>
    var stats: Stats
    var previous: Option<Tracked>
    ghost var history: seq<Stored<R>>
    ghost var lookups: nat
    ghost var now: int

    ghost predicate Valid()
      reads this
    {
      && Agree(completions, history, now, config.completionTtl)
      && stats.hits + stats.misses == lookups
      && stats.writes == |history|
      && stats.expectedInvalidations + stats.unexpectedBreaks
         <= (if stats.trackedRequests == 0 then 0 else stats.trackedRequests - 1)
      && (previous.Some? <==> stats.trackedRequests > 0)
      && (previous.Some? ==> previous.value.version == VERSION)
    }

    constructor (config: Config, start: int)
      ensures Valid() && this.config == config && history == [] && lookups == 0 && now == start && stats == EMPTY_STATS
    {
      this.config := config;
      completions := map[];
      stats := EMPTY_STATS;
      previous := None;
      history, lookups, now := [], 0, start;
    }

    /** The answer is the latest unexpired record of the key; deleting expired entries never shows. */
    method LookupCompletion(request: Request, nowSecs: int) returns (found: Option<R>)
      requires Valid() && now <= nowSecs
      modifies this
      ensures Valid() && now == nowSecs && history == old(history) && previous == old(previous)
      ensures lookups == old(lookups) + 1
      ensures found == Remembered(history, request.key, nowSecs, config.completionTtl)
      ensures stats == old(stats).(hits := old(stats).hits + (if found.Some? then 1 else 0),
                                   misses := old(stats).misses + (if found.Some? then 0 else 1),
                                   lastCompletionKey := Some(request.key))
    {
      hide Remembered, Backed;
      TimePasses(completions, history, now, nowSecs, config.completionTtl);
      now, lookups := nowSecs, lookups + 1;
      var key := request.key;
      stats := stats.(lastCompletionKey := Some(key));
      if key !in completions {
        stats := stats.(misses := stats.misses + 1);
        return None;
      }
      var entry := completions[key];
      BackedEntry(entry, history, key, nowSecs, config.completionTtl);
      if entry.version != VERSION {
        assert false;
      }
      if nowSecs - entry.cachedAt >= config.completionTtl {
        stats := stats.(misses := stats.misses + 1);
        ExpiryIsUnobservable(completions, history, nowSecs, config.completionTtl, key);
        completions := completions - {key};
        return None;
      }
      stats := stats.(hits := stats.hits + 1);
      return Some(entry.response);
    }

    /** Records usage, and the response when there is one. */
    method Record(request: Request, usage: Usage, response: Option<R>, nowSecs: int) returns (found: Option<CacheBreak>)
      requires Valid() && now <= nowSecs
      modifies this
      ensures Valid() && now == nowSecs && lookups == old(lookups)
      ensures history == old(history)
                         + (if response.Some? then [Stored(request.key, nowSecs, response.value)] else [])
      ensures previous == Some(Tracked(nowSecs, VERSION, request.fingerprint, usage.cacheRead))
      ensures found == DetectCacheBreak(config, old(previous), previous.value)
      ensures stats.trackedRequests == old(stats).trackedRequests + 1
      ensures stats.unexpectedBreaks
              == old(stats).unexpectedBreaks + (if found.Some? && found.value.unexpected then 1 else 0)
      ensures stats.expectedInvalidations
              == old(stats).expectedInvalidations + (if found.Some? && !found.value.unexpected then 1 else 0)
      ensures stats.totalCreation == old(stats).totalCreation + usage.cacheCreation
      ensures stats.totalRead == old(stats).totalRead + usage.cacheRead
      ensures stats.hits == old(stats).hits && stats.misses == old(stats).misses
      ensures stats.lastCreation == Some(usage.cacheCreation) && stats.lastRead == Some(usage.cacheRead)
      ensures stats.lastRequestHash == Some(request.key) && stats.lastCompletionKey == old(stats).lastCompletionKey
      ensures stats.writes == old(stats).writes + (if response.Some? then 1 else 0)
      ensures stats.lastBreakReason == if found.Some? then Some(found.value.reason) else old(stats).lastBreakReason
    {
      hide DetectCacheBreak, Agree;
      TimePasses(completions, history, now, nowSecs, config.completionTtl);
      now := nowSecs;
      var current := Tracked(nowSecs, VERSION, request.fingerprint, usage.cacheRead);
      found := DetectCacheBreak(config, previous, current);
      FirstNeverBreaks(config, current);
      stats := ApplyUsage(stats.(trackedRequests := stats.trackedRequests + 1), usage, request.key);
      if found.Some? {
        if found.value.unexpected {
          stats := stats.(unexpectedBreaks := stats.unexpectedBreaks + 1);
        } else {
          stats := stats.(expectedInvalidations := stats.expectedInvalidations + 1);
        }
        stats := stats.(lastBreakReason := Some(found.value.reason));
      }
      previous := Some(current);
      if response.Some? {
        RecordingAgrees(completions, history, nowSecs, config.completionTtl, request.key, response.value);
        completions := completions[request.key := Entry(nowSecs, VERSION, response.value)];
        history := history + [Stored(request.key, nowSecs, response.value)];
        stats := stats.(writes := stats.writes + 1);
      }
    }
  }

  lemma FirstNeverBreaks(config: Config, current: Tracked)
    ensures DetectCacheBreak(config, None, current) == None
  {
  }

  lemma BackedEntry<R>(entry: Entry<R>, history: seq<Stored<R>>, key: string, now: int, ttl: int)
    requires Backed(entry, Latest(history, key))
    ensures entry.version == VERSION
    ensures Remembered(history, key, now, ttl) == if now - entry.cachedAt >= ttl then None else Some(entry.response)
  {
  }
}
