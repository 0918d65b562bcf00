/** The response cache and its in-flight set (ai/governance.py). Expired entries are deleted lazily, by
    whoever looks; while clock readings arrive in order, answers are those of a log of every effective put. */
module ResponseCache {
  import opened Wrappers
  import opened AiTypes

  datatype CacheEntry = CacheEntry(response: Response, expiresAt: int)

  datatype Put = Put(fingerprint: Fingerprint, entry: CacheEntry)

  /** The last put for a fingerprint, however long ago. */
  function LastPut(log: seq<Put>, fingerprint: Fingerprint): Option<CacheEntry> {
    if log == [] then None
    else if log[|log| - 1].fingerprint == fingerprint then Some(log[|log| - 1].entry)
    else LastPut(log[..|log| - 1], fingerprint)
  }

  /** What a cache that never deleted anything would answer: the last put, if it has not expired. */
  function Lookup(log: seq<Put>, fingerprint: Fingerprint, now: int): Option<Response> {
    var last := LastPut(log, fingerprint);
    if last.Some? && now < last.value.expiresAt then Some(last.value.response) else None
  }

  /** Failures and non-positive lifetimes are not stored -- and do not disturb what is stored. */
  function Store(log: seq<Put>, fingerprint: Fingerprint, response: Response, ttlSeconds: int, now: int): seq<Put> {
    if !response.success || ttlSeconds <= 0 then log
    else log + [Put(fingerprint, CacheEntry(response, now + ttlSeconds * SECOND))]
  }

  lemma LastPutSnoc(log: seq<Put>, put: Put, fingerprint: Fingerprint)
    ensures LastPut(log + [put], fingerprint) ==
            if put.fingerprint == fingerprint then Some(put.entry) else LastPut(log, fingerprint)
  {
    assert (log + [put])[..|log|] == log;
  }

  /** Entry i is about this question and no later one is. */
  ghost predicate LatestFor(log: seq<Put>, fingerprint: Fingerprint, i: int) {
    0 <= i < |log| && log[i].fingerprint == fingerprint && forall j | i < j < |log| :: log[j].fingerprint != fingerprint
  }

  lemma {:induction false} LastPutMeaning(log: seq<Put>, fingerprint: Fingerprint)
    ensures LastPut(log, fingerprint).Some? <==> exists i :: LatestFor(log, fingerprint, i)
    ensures forall i | LatestFor(log, fingerprint, i) :: LastPut(log, fingerprint) == Some(log[i].entry)
  {
    if log != [] {
      var front, last := SplitLast(log);
      LastPutSnoc(front, last, fingerprint);
      if last.fingerprint == fingerprint {
        assert LatestFor(log, fingerprint, |log| - 1);
      } else {
        LastPutMeaning(front, fingerprint);
        forall i ensures LatestFor(log, fingerprint, i) <==> LatestFor(front, fingerprint, i) {
          LatestSnoc(front, last, fingerprint, i);
        }
      }
    }
  }

  lemma LatestSnoc(front: seq<Put>, last: Put, fingerprint: Fingerprint, i: int)
    requires last.fingerprint != fingerprint
    ensures LatestFor(front + [last], fingerprint, i) <==> LatestFor(front, fingerprint, i)
  {
    var log := front + [last];
    if 0 <= i < |front| {
      assert log[i] == front[i];
      assert forall j | i < j < |front| :: log[j] == front[j];
    }
  }

  /** The meaning of a hit, with no recursion: the latest put for this very question is still alive, and its
      response is the answer. */
  lemma HitMeansLivePut(log: seq<Put>, fingerprint: Fingerprint, now: int)
    ensures Lookup(log, fingerprint, now).Some? <==>
            exists i :: LatestFor(log, fingerprint, i) && now < log[i].entry.expiresAt
    ensures forall i | LatestFor(log, fingerprint, i) && now < log[i].entry.expiresAt ::
              Lookup(log, fingerprint, now) == Some(log[i].entry.response)
  {
    hide LastPut, LatestFor;
    LastPutMeaning(log, fingerprint);
  }

  // ----- the entries themselves -----

  type Entries = map<Fingerprint, CacheEntry>

  /** What a look-up answers, and what it leaves: an expired entry is deleted on sight. */
  function GetFrom(entries: Entries, fingerprint: Fingerprint, now: int): (Option<Response>, Entries) {
    if fingerprint !in entries then (None, entries)
    else if entries[fingerprint].expiresAt <= now then (None, entries - {fingerprint})
    else (Some(entries[fingerprint].response), entries)
  }

  function PutInto(entries: Entries, fingerprint: Fingerprint, response: Response, ttlSeconds: int, now: int): Entries {
    if !response.success || ttlSeconds <= 0 then entries
    else entries[fingerprint := CacheEntry(response, now + ttlSeconds * SECOND)]
  }

  /** Every entry is its fingerprint's latest put; some fingerprints may have been deleted. */
  ghost predicate FromLog(entries: Entries, log: seq<Put>) {
    forall f | f in entries :: LastPut(log, f) == Some(entries[f])
  }

  /** What is missing has expired by now, or was never put. */
  ghost predicate Current(entries: Entries, log: seq<Put>, now: int) {
    && FromLog(entries, log)
    && forall f: Fingerprint :: f !in entries && LastPut(log, f).Some? ==> LastPut(log, f).value.expiresAt <= now
  }

  /** While clock readings arrive in order, deleting changes no answer. */
  lemma GetIsExact(entries: Entries, log: seq<Put>, fingerprint: Fingerprint, latest: int, now: int)
    requires Current(entries, log, latest) && latest <= now
    ensures var (found, after) := GetFrom(entries, fingerprint, now);
      found == Lookup(log, fingerprint, now) && Current(after, log, now)
  {
    hide LastPut;
  }

  /** Whatever order they arrive in, an answer is the latest put for the question, and was alive at the
      reading the look-up was made with. */
  lemma FoundIsLatestAndAlive(entries: Entries, log: seq<Put>, fingerprint: Fingerprint, now: int)
    requires FromLog(entries, log)
    ensures var (found, after) := GetFrom(entries, fingerprint, now);
      && FromLog(after, log)
      && (found.Some? ==> exists i :: LatestFor(log, fingerprint, i) && now < log[i].entry.expiresAt
                                      && log[i].entry.response == found.value)
  {
    hide LastPut, LatestFor;
    LastPutMeaning(log, fingerprint);
  }

  lemma PutIsLogged(
    entries: Entries, log: seq<Put>, fingerprint: Fingerprint, response: Response, ttlSeconds: int, latest: int,
    now: int)
    requires FromLog(entries, log)
    ensures FromLog(PutInto(entries, fingerprint, response, ttlSeconds, now),
      Store(log, fingerprint, response, ttlSeconds, now))
    ensures Current(entries, log, latest) && latest <= now ==>
              Current(PutInto(entries, fingerprint, response, ttlSeconds, now),
                Store(log, fingerprint, response, ttlSeconds, now), now)
  {
    hide LastPut;
    var put := Put(fingerprint, CacheEntry(response, now + ttlSeconds * SECOND));
    forall f: Fingerprint
      ensures LastPut(log + [put], f) == if f == fingerprint then Some(put.entry) else LastPut(log, f)
    {
      LastPutSnoc(log, put, f);
    }
  }

  class Cache {
    const defaultTtl: int
    var entries: Entries
    var inFlight: set<Fingerprint>
    ghost var log: seq<Put>

    ghost predicate Valid()
      reads this`entries, this`log
    {
      FromLog(entries, log)
    }

    constructor (defaultTtl: int)
      ensures Valid() && log == [] && entries == map[] && inFlight == {} && this.defaultTtl == defaultTtl
    {
      this.defaultTtl := defaultTtl;
      entries, inFlight, log := map[], {}, [];
    }

    method Get(fingerprint: Fingerprint, now: int) returns (found: Option<Response>)
      requires Valid()
      modifies this`entries
      ensures Valid()
      ensures (found, entries) == GetFrom(old(entries), fingerprint, now)
    {
      hide LastPut;
      if fingerprint !in entries {
        return None;
      }
      var entry := entries[fingerprint];
      if entry.expiresAt <= now {
        entries := entries - {fingerprint};
        return None;
      }
      return Some(entry.response);
    }

    method PutResponse(fingerprint: Fingerprint, response: Response, ttlSeconds: Option<int>, now: int)
      requires Valid()
      modifies this`entries, this`log
      ensures Valid()
      ensures var ttl := if ttlSeconds.Some? then ttlSeconds.value else defaultTtl;
        && entries == PutInto(old(entries), fingerprint, response, ttl, now)
        && log == Store(old(log), fingerprint, response, ttl, now)
    {
      hide FromLog;
      var ttl := if ttlSeconds.Some? then ttlSeconds.value else defaultTtl;
      PutIsLogged(entries, log, fingerprint, response, ttl, now, now);
      if !response.success {
        return;
      }
      if ttl <= 0 {
        return;
      }
      var entry := CacheEntry(response, now + ttl * SECOND);
      entries := entries[fingerprint := entry];
      log := log + [Put(fingerprint, entry)];
    }

    /** Claims a fingerprint; false when an identical request is already running. */
    method Begin(fingerprint: Fingerprint) returns (claimed: bool)
      modifies this`inFlight
      ensures claimed <==> fingerprint !in old(inFlight)
      ensures inFlight == old(inFlight) + {fingerprint} && (!claimed ==> inFlight == old(inFlight))
    {
      if fingerprint in inFlight {
        return false;
      }
      inFlight := inFlight + {fingerprint};
      return true;
    }

    method End(fingerprint: Fingerprint)
      modifies this`inFlight
      ensures inFlight == old(inFlight) - {fingerprint}
    {
      inFlight := inFlight - {fingerprint};
    }
  }
}
