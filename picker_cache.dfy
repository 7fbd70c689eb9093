/** `CacheLayer`: the picker's caches of session metadata (by file path),
    message previews (by session id) and message summaries (by file path),
    with hit and miss counters, and the prefetching of previews the picker
    does while the user moves around.

    The time stamps stored beside previews and summaries are left out: they
    come from the clock and nothing reads them. */
module PickerCache {
  import opened Wrappers
  import opened Sessions

  /** `MessageSummary` without its time stamp. */
  datatype MessageSummary = MessageSummary(messageCount: nat, lastRole: string)

  /** How many recent messages a prefetch keeps. */
  const PrefetchLimit: nat := 6

  /** Prefetching one session's preview: a cached preview is kept; otherwise
      the last `PrefetchLimit` messages of its file are stored. `load` gives
      the messages a session file holds. */
  function PrefetchOne(cache: map<string, seq<Message>>, s: SessionInfo, load: string -> seq<Message>): map<string, seq<Message>> {
    if s.id in cache then cache else cache[s.id := KeepLast(load(s.path), PrefetchLimit)]
  }

  /** Prefetching a list of sessions, first to last. */
  function PrefetchAll(cache: map<string, seq<Message>>, ss: seq<SessionInfo>, load: string -> seq<Message>): map<string, seq<Message>>
    decreases |ss|
  {
    if ss == [] then cache
    else PrefetchOne(PrefetchAll(cache, ss[..|ss| - 1], load), ss[|ss| - 1], load)
  }

  /** How many of those prefetches missed the cache (each lookup that hits
      counts as a hit instead). */
  function MissCount(cache: map<string, seq<Message>>, ss: seq<SessionInfo>, load: string -> seq<Message>): nat
    decreases |ss|
  {
    if ss == [] then 0
    else
      var init := ss[..|ss| - 1];
      MissCount(cache, init, load) + if ss[|ss| - 1].id in PrefetchAll(cache, init, load) then 0 else 1
  }

  /** The ids of a list of sessions. */
  function Ids(ss: seq<SessionInfo>): set<string> {
    set s | s in ss :: s.id
  }

  /** After prefetching, exactly the ids cached before and the ids prefetched
      are cached. */
  lemma {:induction false} PrefetchAllKeys(cache: map<string, seq<Message>>, ss: seq<SessionInfo>, load: string -> seq<Message>)
    decreases |ss|
    ensures PrefetchAll(cache, ss, load).Keys == cache.Keys + Ids(ss)
  {
    if ss != [] {
      var init, s := ss[..|ss| - 1], ss[|ss| - 1];
      var prev := PrefetchAll(cache, init, load);
      assert prev.Keys == cache.Keys + Ids(init) by {
        PrefetchAllKeys(cache, init, load);
      }
      assert PrefetchAll(cache, ss, load).Keys == prev.Keys + {s.id};
      assert Ids(ss) == Ids(init) + {s.id} by {
        assert ss == init + [s];
        IdsSnoc(init, s);
      }
    }
  }

  lemma IdsSnoc(ss: seq<SessionInfo>, s: SessionInfo)
    ensures Ids(ss + [s]) == Ids(ss) + {s.id}
  {
    var xs := ss + [s];
    forall k | k in Ids(xs)
      ensures k in Ids(ss) + {s.id}
    {
      var x :| x in xs && x.id == k;
      if x != s {
        assert x in ss;
      }
    }
    forall k | k in Ids(ss)
      ensures k in Ids(xs)
    {
      var x :| x in ss && x.id == k;
      assert x in xs;
    }
    assert s in xs;
  }

  /** Prefetching never replaces a preview that was already cached. */
  lemma {:induction false} PrefetchAllKeeps(cache: map<string, seq<Message>>, ss: seq<SessionInfo>, load: string -> seq<Message>)
    decreases |ss|
    ensures forall k :: k in cache ==> k in PrefetchAll(cache, ss, load) && PrefetchAll(cache, ss, load)[k] == cache[k]
  {
    if ss != [] {
      PrefetchAllKeeps(cache, ss[..|ss| - 1], load);
    }
  }

  /** Each new preview holds the last `PrefetchLimit` messages of the file of a
      prefetched session with that id. */
  lemma {:induction false} PrefetchAllLoads(cache: map<string, seq<Message>>, ss: seq<SessionInfo>, load: string -> seq<Message>)
    decreases |ss|
    ensures forall k :: k in PrefetchAll(cache, ss, load) && k !in cache ==>
      exists i :: 0 <= i < |ss| && ss[i].id == k && PrefetchAll(cache, ss, load)[k] == KeepLast(load(ss[i].path), PrefetchLimit)
  {
    if ss != [] {
      var init := ss[..|ss| - 1];
      PrefetchAllLoads(cache, init, load);
      var prev := PrefetchAll(cache, init, load);
      var r := PrefetchAll(cache, ss, load);
      forall k | k in r && k !in cache
        ensures exists i :: 0 <= i < |ss| && ss[i].id == k && r[k] == KeepLast(load(ss[i].path), PrefetchLimit)
      {
        if k in prev {
          var i :| 0 <= i < |init| && init[i].id == k && prev[k] == KeepLast(load(init[i].path), PrefetchLimit);
          assert ss[i] == init[i];
        } else {
          assert ss[|ss| - 1].id == k;
        }
      }
    }
  }

  /** The misses counted are exactly the previews added. */
  lemma {:induction false} MissCountIsNewEntries(cache: map<string, seq<Message>>, ss: seq<SessionInfo>, load: string -> seq<Message>)
    decreases |ss|
    ensures cache.Keys <= PrefetchAll(cache, ss, load).Keys
    ensures MissCount(cache, ss, load) == |PrefetchAll(cache, ss, load).Keys - cache.Keys|
    ensures MissCount(cache, ss, load) <= |ss|
  {
    if ss != [] {
      var init, s := ss[..|ss| - 1], ss[|ss| - 1];
      var prev, before := PrefetchAll(cache, init, load), MissCount(cache, init, load);
      assert cache.Keys <= prev.Keys && before == |prev.Keys - cache.Keys| && before <= |init| by {
        MissCountIsNewEntries(cache, init, load);
      }
      if s.id in prev {
        assert PrefetchAll(cache, ss, load) == prev;
        assert MissCount(cache, ss, load) == before;
      } else {
        var next := prev[s.id := KeepLast(load(s.path), PrefetchLimit)];
        assert PrefetchAll(cache, ss, load) == next;
        assert MissCount(cache, ss, load) == before + 1;
        assert next.Keys == prev.Keys + {s.id};
        OneMoreKey(cache.Keys, prev.Keys, s.id);
      }
    }
  }

  /** Adding a key that is new to a set of keys adds one key beyond `base`. */
  lemma OneMoreKey(base: set<string>, keys: set<string>, k: string)
    requires base <= keys && k !in keys
    ensures |(keys + {k}) - base| == |keys - base| + 1
  {
    assert (keys + {k}) - base == (keys - base) + {k};
  }

  /** Prefetching one session is prefetching the list holding it alone. */
  lemma PrefetchSingle(cache: map<string, seq<Message>>, s: SessionInfo, load: string -> seq<Message>)
    ensures PrefetchAll(cache, [s], load) == PrefetchOne(cache, s, load)
    ensures MissCount(cache, [s], load) == if s.id in cache then 0 else 1
  {
    assert [s][..0] == [];
  }

  /** Prefetching a list and then one more session is prefetching the longer
      list. */
  lemma PrefetchSnoc(cache: map<string, seq<Message>>, ss: seq<SessionInfo>, s: SessionInfo, load: string -> seq<Message>)
    ensures PrefetchAll(cache, ss + [s], load) == PrefetchOne(PrefetchAll(cache, ss, load), s, load)
    ensures MissCount(cache, ss + [s], load) ==
      MissCount(cache, ss, load) + if s.id in PrefetchAll(cache, ss, load) then 0 else 1
  {
    assert (ss + [s])[..|ss|] == ss;
  }

  /** Prefetching one list after another is prefetching both, in order. */
  lemma {:induction false} PrefetchConcat(cache: map<string, seq<Message>>, xs: seq<SessionInfo>, ys: seq<SessionInfo>, load: string -> seq<Message>)
    decreases |ys|
    ensures PrefetchAll(PrefetchAll(cache, xs, load), ys, load) == PrefetchAll(cache, xs + ys, load)
    ensures MissCount(cache, xs, load) + MissCount(PrefetchAll(cache, xs, load), ys, load) == MissCount(cache, xs + ys, load)
  {
    if ys != [] {
      var init, y := ys[..|ys| - 1], ys[|ys| - 1];
      PrefetchConcat(cache, xs, init, load);
      ConcatLast(xs, ys);
      PrefetchSnoc(cache, xs + init, y, load);
    } else {
      assert xs + ys == xs;
    }
  }

  /** Splitting off the last element of the second part of a concatenation. */
  lemma ConcatLast(xs: seq<SessionInfo>, ys: seq<SessionInfo>)
    requires ys != []
    ensures xs + ys == (xs + ys[..|ys| - 1]) + [ys[|ys| - 1]]
  {
    assert ys == ys[..|ys| - 1] + [ys[|ys| - 1]];
  }

  /** The preview cache with its two counters. */
  datatype Previews = Previews(cache: map<string, seq<Message>>, hits: nat, misses: nat)

  /** The preview cache and counters after prefetching `ss`: one lookup per
      session, counted as a hit or a miss, and a new preview per miss. */
  function Prefetch(p: Previews, ss: seq<SessionInfo>, load: string -> seq<Message>): Previews {
    var n := MissCount(p.cache, ss, load);
    MissCountIsNewEntries(p.cache, ss, load);
    Previews(PrefetchAll(p.cache, ss, load), p.hits + (|ss| - n), p.misses + n)
  }

  /** Every prefetch lookup is counted once, as a hit or a miss; the cache
      then holds the ids it held and the ids prefetched, and each miss added
      one preview. */
  lemma PrefetchCounts(p: Previews, ss: seq<SessionInfo>, load: string -> seq<Message>)
    ensures Prefetch(p, ss, load).hits + Prefetch(p, ss, load).misses == p.hits + p.misses + |ss|
    ensures Prefetch(p, ss, load).cache.Keys == p.cache.Keys + Ids(ss)
    ensures Prefetch(p, ss, load).misses == p.misses + |Prefetch(p, ss, load).cache.Keys - p.cache.Keys|
  {
    MissCountIsNewEntries(p.cache, ss, load);
    PrefetchAllKeys(p.cache, ss, load);
  }

  /** Prefetching nothing changes nothing. */
  lemma PrefetchNothing(p: Previews, load: string -> seq<Message>)
    ensures Prefetch(p, [], load) == p
  {
  }

  /** Prefetching one list of sessions and then another is prefetching the
      two lists one after the other. */
  lemma PrefetchThen(p: Previews, xs: seq<SessionInfo>, ys: seq<SessionInfo>, load: string -> seq<Message>)
    ensures Prefetch(Prefetch(p, xs, load), ys, load) == Prefetch(p, xs + ys, load)
  {
    var mid := PrefetchAll(p.cache, xs, load);
    var nx, ny := MissCount(p.cache, xs, load), MissCount(mid, ys, load);
    assert nx <= |xs| && ny <= |ys| by {
      MissCountIsNewEntries(p.cache, xs, load);
      MissCountIsNewEntries(mid, ys, load);
    }
    assert PrefetchAll(mid, ys, load) == PrefetchAll(p.cache, xs + ys, load)
      && nx + ny == MissCount(p.cache, xs + ys, load) by {
      PrefetchConcat(p.cache, xs, ys, load);
    }
  }

  class CacheLayer {
    var metaCache: map<string, SessionInfo>
    var previewCache: map<string, seq<Message>>
    var summaryCache: map<string, MessageSummary>
    var metaHits: nat
    var metaMisses: nat
    var previewHits: nat
    var previewMisses: nat

    /** `CacheLayer::new`: empty caches, zero counters. */
    constructor ()
      ensures metaCache == map[] && previewCache == map[] && summaryCache == map[]
      ensures metaHits == 0 && metaMisses == 0 && previewHits == 0 && previewMisses == 0
    {
      metaCache, previewCache, summaryCache := map[], map[], map[];
      metaHits, metaMisses, previewHits, previewMisses := 0, 0, 0, 0;
    }

    /** Nothing but the preview cache and its counters changed. */
    twostate predicate OnlyPreviewsChanged()
      reads this
    {
      && metaCache == old(metaCache) && summaryCache == old(summaryCache)
      && metaHits == old(metaHits) && metaMisses == old(metaMisses)
    }

    /** Nothing in the cache layer changed. */
    twostate predicate Kept()
      reads this
    {
      OnlyPreviewsChanged() && PreviewState() == old(PreviewState())
    }

    /** The preview cache and its counters. */
    function PreviewState(): Previews
      reads this
    {
      Previews(previewCache, previewHits, previewMisses)
    }

    /** The previews of `ss` were prefetched, first to last: the effect of one
        `get_preview` lookup per session and a `cache_preview` per miss. */
    twostate predicate Prefetched(ss: seq<SessionInfo>, load: string -> seq<Message>)
      reads this
    {
      OnlyPreviewsChanged() && PreviewState() == Prefetch(old(PreviewState()), ss, load)
    }

    /** `get_or_insert_meta`: a cached entry is returned and counted as a hit;
        otherwise `default` is stored, returned and counted as a miss. */
    method GetOrInsertMeta(path: string, default: SessionInfo) returns (info: SessionInfo)
      modifies this
      ensures old(path in metaCache) ==>
        && info == old(metaCache[path]) && metaCache == old(metaCache)
        && metaHits == old(metaHits) + 1 && metaMisses == old(metaMisses)
      ensures old(path !in metaCache) ==>
        && info == default && metaCache == old(metaCache)[path := default]
        && metaHits == old(metaHits) && metaMisses == old(metaMisses) + 1
      ensures previewCache == old(previewCache) && summaryCache == old(summaryCache)
      ensures previewHits == old(previewHits) && previewMisses == old(previewMisses)
    {
      if path in metaCache {
        metaHits := metaHits + 1;
        info := metaCache[path];
      } else {
        metaMisses := metaMisses + 1;
        metaCache := metaCache[path := default];
        info := default;
      }
    }

    /** `get_preview`: the cached preview, counted as a hit, or `None`, counted
        as a miss. The cache itself does not change. */
    method GetPreview(sessionId: string) returns (r: Option<seq<Message>>)
      modifies this
      ensures OnlyPreviewsChanged() && previewCache == old(previewCache)
      ensures r == if sessionId in previewCache then Some(previewCache[sessionId]) else None
      ensures r.Some? ==> previewHits == old(previewHits) + 1 && previewMisses == old(previewMisses)
      ensures r.None? ==> previewHits == old(previewHits) && previewMisses == old(previewMisses) + 1
    {
      if sessionId in previewCache {
        previewHits := previewHits + 1;
        r := Some(previewCache[sessionId]);
      } else {
        previewMisses := previewMisses + 1;
        r := None;
      }
    }

    /** `cache_preview`: stores (or replaces) the preview of a session. */
    method CachePreview(sessionId: string, messages: seq<Message>)
      modifies this
      ensures OnlyPreviewsChanged() && previewHits == old(previewHits) && previewMisses == old(previewMisses)
      ensures previewCache == old(previewCache)[sessionId := messages]
    {
      previewCache := previewCache[sessionId := messages];
    }

    /** `get_summary`: the cached summary, if any; no counter moves. */
    function GetSummary(path: string): Option<MessageSummary>
      reads this
    {
      if path in summaryCache then Some(summaryCache[path]) else None
    }

    /** `cache_summary`: stores (or replaces) the summary of a file. */
    method CacheSummary(path: string, messageCount: nat, lastRole: string)
      modifies this
      ensures summaryCache == old(summaryCache)[path := MessageSummary(messageCount, lastRole)]
      ensures GetSummary(path) == Some(MessageSummary(messageCount, lastRole))
      ensures metaCache == old(metaCache) && previewCache == old(previewCache)
      ensures metaHits == old(metaHits) && metaMisses == old(metaMisses)
      ensures previewHits == old(previewHits) && previewMisses == old(previewMisses)
    {
      summaryCache := summaryCache[path := MessageSummary(messageCount, lastRole)];
    }

    /** `remove_preview`: forgets one session's preview. */
    method RemovePreview(sessionId: string)
      modifies this
      ensures OnlyPreviewsChanged() && previewHits == old(previewHits) && previewMisses == old(previewMisses)
      ensures previewCache == old(previewCache) - {sessionId}
    {
      previewCache := previewCache - {sessionId};
    }

    /** `clear`: empties the three caches; the counters keep their values. */
    method Clear()
      modifies this
      ensures metaCache == map[] && previewCache == map[] && summaryCache == map[]
      ensures metaHits == old(metaHits) && metaMisses == old(metaMisses)
      ensures previewHits == old(previewHits) && previewMisses == old(previewMisses)
    {
      metaCache, previewCache, summaryCache := map[], map[], map[];
    }

    /** `stats`: (meta hits, meta misses, preview hits, preview misses). */
    function Stats(): (nat, nat, nat, nat)
      reads this
    {
      (metaHits, metaMisses, previewHits, previewMisses)
    }
  }

  /** A metadata lookup that misses stores the default, so the next lookup of
      the same path hits and returns it, whatever default it is given. */
  method MetaLookupTwice(cache: CacheLayer, path: string, first: SessionInfo, second: SessionInfo)
      returns (a: SessionInfo, b: SessionInfo)
    requires path !in cache.metaCache
    modifies cache
    ensures a == first && b == first
    ensures cache.metaCache == old(cache.metaCache)[path := first]
    ensures cache.metaHits == old(cache.metaHits) + 1 && cache.metaMisses == old(cache.metaMisses) + 1
  {
    a := cache.GetOrInsertMeta(path, first);
    b := cache.GetOrInsertMeta(path, second);
  }
}
