/**
 RunReport is a run of the reader machine: string keys refine the components of Coherence's
 cache keys as long as no two parameter sets in use have the same hash.
 */
module ReadConformance {
  import opened Ordering
  import opened Snapshots
  import opened Reports
  import opened Keys
  import opened Coherence
  import opened Report
  import Redis

  /** The version keys of the served reports hold the machine's versions. */
  ghost predicate SameVersions(texts: map<string, nat>, versions: map<Slug, nat>) {
    forall slug :: Supported(slug) ==>
      && (VersionKey(SlugName(slug)) in texts <==> slug in versions)
      && (slug in versions ==> texts[VersionKey(SlugName(slug))] == versions[slug])
  }

  lemma SetKeepsVersions(texts: map<string, nat>, versions: map<Slug, nat>, slug: Slug, v: nat)
    requires SameVersions(texts, versions) && Supported(slug)
    ensures SameVersions(texts[VersionKey(SlugName(slug)) := v], versions[slug := v])
  {
    forall x | Supported(x) && VersionKey(SlugName(x)) == VersionKey(SlugName(slug)) ensures x == slug {
      PrefixEqual("report:version:", SlugName(x), SlugName(slug));
      SlugNames(x, slug);
    }
  }

  // ----- entries -----

  function TextOf(digest: Digest, key: CacheKey): string {
    ReportKeyText(SlugName(key.slug), key.version, digest(key.params))
  }

  /** The hash of p is well formed and differs from the hash of every other parameter set in the cache. */
  ghost predicate NoCollision(digest: Digest, entries: map<CacheKey, Entry>, p: RunParams) {
    |digest(p)| == 64
    && forall key :: key in entries ==>
         |digest(key.params)| == 64 && (digest(key.params) == digest(p) ==> key.params == p)
  }

  ghost predicate SameEntries(digest: Digest, texts: map<string, seq<ResultRow>>, entries: map<CacheKey, Entry>) {
    && (forall key :: key in entries ==>
          Supported(key.slug) && TextOf(digest, key) in texts && texts[TextOf(digest, key)] == entries[key].rows)
    && (forall text :: text in texts ==> HasText(digest, entries, text))
  }

  ghost predicate HasText(digest: Digest, entries: map<CacheKey, Entry>, text: string) {
    exists key :: key in entries && TextOf(digest, key) == text
  }

  lemma TextIsKey(digest: Digest, entries: map<CacheKey, Entry>, key: CacheKey, key': CacheKey)
    requires key in entries && Supported(key.slug) && Supported(key'.slug) && NoCollision(digest, entries, key'.params)
    requires TextOf(digest, key) == TextOf(digest, key')
    ensures key == key'
  {
    ReportKeyInjective(SlugName(key.slug), key.version, digest(key.params),
                       SlugName(key'.slug), key'.version, digest(key'.params));
    SlugNames(key.slug, key'.slug);
  }

  /** A text is present exactly when its key is. */
  lemma LookupText(digest: Digest, texts: map<string, seq<ResultRow>>, entries: map<CacheKey, Entry>, key: CacheKey)
    requires SameEntries(digest, texts, entries) && Supported(key.slug) && NoCollision(digest, entries, key.params)
    ensures TextOf(digest, key) in texts <==> key in entries
  {
    if TextOf(digest, key) in texts {
      var key' :| key' in entries && TextOf(digest, key') == TextOf(digest, key);
      TextIsKey(digest, entries, key', key);
    }
  }

  lemma StoreText(digest: Digest, texts: map<string, seq<ResultRow>>, entries: map<CacheKey, Entry>, key: CacheKey,
                  e: Entry)
    requires SameEntries(digest, texts, entries) && Supported(key.slug) && NoCollision(digest, entries, key.params)
    ensures SameEntries(digest, texts[TextOf(digest, key) := e.rows], entries[key := e])
  {
    var text, texts', entries' := TextOf(digest, key), texts[TextOf(digest, key) := e.rows], entries[key := e];
    forall k | k in entries && k != key ensures TextOf(digest, k) != text {
      if TextOf(digest, k) == text {
        TextIsKey(digest, entries, k, key);
      }
    }
    forall x | x in texts' ensures HasText(digest, entries', x) {
      HasTextGrows(digest, entries, key, e, x);
    }
  }

  lemma HasTextGrows(digest: Digest, entries: map<CacheKey, Entry>, key: CacheKey, e: Entry, text: string)
    requires HasText(digest, entries, text) || text == TextOf(digest, key)
    ensures HasText(digest, entries[key := e], text)
  {
    if text == TextOf(digest, key) {
      assert key in entries[key := e];
    } else {
      var k :| k in entries && TextOf(digest, k) == text;
      assert k in entries[key := e];
    }
  }

  // ----- the steps of one read -----

  /** The machine state c shows the stored state st. */
  ghost predicate Mirrors(c: Cached, st: State, digest: Digest) {
    c.time.table == st.table && SameVersions(st.versions, c.time.versions) && SameEntries(digest, st.entries, c.entries)
  }

  /** The machine can go from c to m by these steps. */
  ghost predicate Reaches(c: Cached, steps: seq<CacheStep>, m: Cached) {
    Valid(c, steps) && After(c, steps) == m
  }

  lemma Take(c: Cached, before: seq<CacheStep>, m: Cached, step: CacheStep) returns (steps: seq<CacheStep>, m': Cached)
    requires Reaches(c, before, m) && Enabled(m, step)
    ensures Reaches(c, steps, m') && m' == Step(m, step) && steps == before + [step]
  {
    Extend(c, before, step);
    steps, m' := before + [step], Step(m, step);
  }

  /** The steps of GetVersion, with the replies of the call: read, and initialise on nil. */
  function VersionSteps(versions: map<string, nat>, slug: Slug, r: nat, replies: VersionReplies): seq<CacheStep> {
    [ReadVersion(r, replies.ok)]
    + if replies.ok && VersionKey(SlugName(slug)) !in versions then [InitVersion(r, replies.init)] else []
  }

  /** The call goes on with a version. */
  predicate HasAnswer(versions: map<string, nat>, slug: Slug, replies: VersionReplies) {
    Redis.Versioned(versions, SlugName(slug), replies.ok, replies.init).1.Success?
  }

  /** The steps of a lookup. */
  function LookSteps(st: State, slug: Slug, r: nat, replies: RunReplies): seq<CacheStep> {
    VersionSteps(st.versions, slug, r, replies.read)
    + if HasAnswer(st.versions, slug, replies.read) then [GetEntry(r, replies.get)] else []
  }

  function StoreSteps(st: State, slug: Slug, r: nat, replies: RunReplies): seq<CacheStep> {
    VersionSteps(st.versions, slug, r, replies.again)
    + if HasAnswer(st.versions, slug, replies.again) then [SetEntry(r, replies.put)] else []
  }

  function FetchSteps(st: State, slug: Slug, p: RunParams, r: nat, replies: RunReplies): seq<CacheStep> {
    var ok := ScanOk(st.table, slug, p, replies);
    [RunRead(r, ok)] + if ok && replies.caching then StoreSteps(st, slug, r, replies) else []
  }

  /** The steps of a RunReport call, one for each remote call that it makes, with the reply that it got. */
  function ReadSteps(st: State, digest: Digest, slug: Slug, p: RunParams, r: nat, replies: RunReplies): seq<CacheStep> {
    [Begin(r, slug, p, replies.caching)]
    + if replies.caching then SoughtSteps(st, digest, slug, p, r, replies) else FetchSteps(st, slug, p, r, replies)
  }

  function SoughtSteps(st: State, digest: Digest, slug: Slug, p: RunParams, r: nat, replies: RunReplies)
    : seq<CacheStep>
  {
    var (st', hit) := Looked(st, digest, slug, p, replies);
    LookSteps(st, slug, r, replies) + if IsHit(hit) then [] else FetchSteps(st', slug, p, r, replies)
  }

  lemma VersionTaken(c: Cached, before: seq<CacheStep>, m: Cached, st: State, digest: Digest, r: nat,
                     replies: VersionReplies)
    returns (steps: seq<CacheStep>, m': Cached)
    requires Reaches(c, before, m) && Mirrors(m, st, digest)
    requires r in m.readers && (m.readers[r].AskRead? || m.readers[r].AskStore?) && Supported(m.readers[r].slug)
    ensures steps == before + VersionSteps(st.versions, m.readers[r].slug, r, replies)
    ensures
      var reader := m.readers[r];
      var (versions, version) := Redis.Versioned(st.versions, SlugName(reader.slug), replies.ok, replies.init);
      && Reaches(c, steps, m') && m'.entries == m.entries && Mirrors(m', st.(versions := versions), digest)
      && r in m'.readers
      && (reader.AskRead? ==>
            m'.readers[r] == if version.Success? then Lookup(reader.slug, reader.p, version.value)
                             else Query(reader.slug, reader.p, true))
      && (reader.AskStore? ==>
            if version.Success? then
              && m'.readers[r].Storing? && m'.readers[r].version == version.value
              && m'.readers[r].slug == reader.slug && m'.readers[r].p == reader.p && m'.readers[r].rows == reader.rows
            else m'.readers[r] == Served(reader.slug, reader.p, reader.rows, reader.queriedAt, false))
  {
    var reader := m.readers[r];
    steps, m' := Take(c, before, m, ReadVersion(r, replies.ok));
    if replies.ok && reader.slug !in m.time.versions {
      SetKeepsVersions(st.versions, m.time.versions, reader.slug, 1);
      steps, m' := Take(c, steps, m', InitVersion(r, replies.init));
    }
  }

  /** The version read and the lookup. */
  lemma LookTaken(c: Cached, before: seq<CacheStep>, m: Cached, st: State, digest: Digest, r: nat, replies: RunReplies)
    returns (steps: seq<CacheStep>, m': Cached)
    requires Reaches(c, before, m) && Mirrors(m, st, digest)
    requires r in m.readers && m.readers[r].AskRead? && Supported(m.readers[r].slug)
    requires NoCollision(digest, m.entries, Normalize(m.readers[r].p))
    ensures steps == before + LookSteps(st, m.readers[r].slug, r, replies)
    ensures
      var AskRead(slug, p) := m.readers[r];
      var (st', hit) := Looked(st, digest, slug, p, replies);
      && Reaches(c, steps, m') && m'.entries == m.entries && Mirrors(m', st', digest)
      && if IsHit(hit) then ServedAs(m', r, slug, p, Answer(hit.value.value, true))
         else r in m'.readers && m'.readers[r] == Query(slug, p, true)
  {
    var AskRead(slug, p) := m.readers[r];
    var (versions, version) := Redis.Versioned(st.versions, SlugName(slug), replies.read.ok, replies.read.init);
    var read := VersionSteps(st.versions, slug, r, replies.read);
    steps, m' := VersionTaken(c, before, m, st, digest, r, replies.read);
    if version.Success? {
      steps, m' := EntryTaken(c, before + read, m', st.(versions := versions), digest, r, replies.get);
      StepsChain(before, read, [GetEntry(r, replies.get)]);
    } else {
      StepsChain(before, read, []);
    }
  }

  lemma EntryTaken(c: Cached, before: seq<CacheStep>, m: Cached, st: State, digest: Digest, r: nat, ok: bool)
    returns (steps: seq<CacheStep>, m': Cached)
    requires Reaches(c, before, m) && Mirrors(m, st, digest)
    requires r in m.readers && m.readers[r].Lookup? && Supported(m.readers[r].slug)
    requires NoCollision(digest, m.entries, Normalize(m.readers[r].p))
    ensures
      var Lookup(slug, p, version) := m.readers[r];
      var text := EntryKey(digest, slug, version, p);
      && steps == before + [GetEntry(r, ok)]
      && Reaches(c, steps, m') && m'.entries == m.entries && Mirrors(m', st, digest)
      && if ok && text in st.entries then ServedAs(m', r, slug, p, Answer(st.entries[text], true))
         else r in m'.readers && m'.readers[r] == Query(slug, p, true)
  {
    var Lookup(slug, p, version) := m.readers[r];
    LookupText(digest, st.entries, m.entries, KeyFor(slug, version, p));
    steps, m' := Take(c, before, m, GetEntry(r, ok));
  }

  /** The query, and on success the second version read and the store. */
  lemma FetchTaken(c: Cached, before: seq<CacheStep>, m: Cached, st: State, digest: Digest, r: nat, replies: RunReplies)
    returns (steps: seq<CacheStep>, m': Cached)
    requires Reaches(c, before, m) && Mirrors(m, st, digest)
    requires r in m.readers && m.readers[r].Query? && m.readers[r].caching == replies.caching
    requires Supported(m.readers[r].slug)
    requires NoCollision(digest, m.entries, Normalize(m.readers[r].p))
    ensures steps == before + FetchSteps(st, m.readers[r].slug, m.readers[r].p, r, replies)
    ensures
      var Query(slug, p, _) := m.readers[r];
      var (st', answer) := Fetched(st, digest, slug, p, replies);
      && Reaches(c, steps, m') && Mirrors(m', st', digest)
      && if answer.Success? then ServedAs(m', r, slug, p, answer.value) else r !in m'.readers
  {
    var Query(slug, p, caching) := m.readers[r];
    var ok := ScanOk(st.table, slug, p, replies);
    steps, m' := Take(c, before, m, RunRead(r, ok));
    if ok && replies.caching {
      steps, m' := StoreTaken(c, steps, m', st, digest, r, replies);
    }
  }

  lemma StoreTaken(c: Cached, before: seq<CacheStep>, m: Cached, st: State, digest: Digest, r: nat, replies: RunReplies)
    returns (steps: seq<CacheStep>, m': Cached)
    requires Reaches(c, before, m) && Mirrors(m, st, digest)
    requires r in m.readers && m.readers[r].AskStore? && Supported(m.readers[r].slug)
    requires NoCollision(digest, m.entries, Normalize(m.readers[r].p))
    ensures steps == before + StoreSteps(st, m.readers[r].slug, r, replies)
    ensures
      var AskStore(slug, p, rows, _) := m.readers[r];
      && Reaches(c, steps, m') && Mirrors(m', Report.Cached(st, digest, slug, p, rows, replies), digest)
      && ServedAs(m', r, slug, p, Answer(rows, false))
  {
    var AskStore(slug, p, rows, _) := m.readers[r];
    steps, m' := VersionTaken(c, before, m, st, digest, r, replies.again);
    var reader := m'.readers[r];
    if reader.Storing? {
      StoreText(digest, st.entries, m.entries, KeyFor(slug, reader.version, p),
                Entry(rows, reader.queriedAt, reader.readAt));
      steps, m' := Take(c, steps, m', SetEntry(r, replies.put));
    }
  }

  /** Reader r has been answered. */
  ghost predicate ServedAs(c: Cached, r: nat, slug: Slug, p: RunParams, answer: Answer) {
    && r in c.readers && c.readers[r].Served? && c.readers[r].slug == slug && c.readers[r].p == p
    && c.readers[r].rows == answer.rows && c.readers[r].cacheHit == answer.cacheHit
  }

  /**
   Every valid RunReport call, whatever the replies, is the run of the reader machine with
   these steps, for the parameters that were sent, and has the same answer.
   */
  lemma ReadIsRun(c: Cached, st: State, digest: Digest, slug: Slug, raw: RawParams, p: RunParams, maxRangeDays: int,
                  replies: RunReplies, r: nat)
    returns (steps: seq<CacheStep>, m: Cached)
    requires Mirrors(c, st, digest) && r !in c.readers && Supported(slug)
    requires replies.lookup.None? && Admissible(raw, maxRangeDays) && AskedFor(raw, p)
    requires NoCollision(digest, c.entries, Normalize(p))
    ensures steps == ReadSteps(st, digest, slug, p, r, replies)
    ensures
      var (st', answer) := Answered(st, digest, slug, raw, maxRangeDays, replies);
      && Reaches(c, steps, m) && Mirrors(m, st', digest)
      && (if answer.Success? then ServedAs(m, r, slug, p, answer.value) else r !in m.readers)
  {
    ValidateExact(raw, maxRangeDays);
    steps, m := Take(c, [], c, Begin(r, slug, p, replies.caching));
    if replies.caching {
      steps, m := SoughtIsRun(c, steps, m, st, digest, r, replies);
    } else {
      steps, m := FetchTaken(c, steps, m, st, digest, r, replies);
    }
  }

  /** The part of a cached read after its beginning. */
  lemma SoughtIsRun(c: Cached, before: seq<CacheStep>, m: Cached, st: State, digest: Digest, r: nat,
                    replies: RunReplies)
    returns (steps: seq<CacheStep>, m': Cached)
    requires Reaches(c, before, m) && Mirrors(m, st, digest)
    requires r in m.readers && m.readers[r].AskRead? && Supported(m.readers[r].slug) && replies.caching
    requires NoCollision(digest, m.entries, Normalize(m.readers[r].p))
    ensures steps == before + SoughtSteps(st, digest, m.readers[r].slug, m.readers[r].p, r, replies)
    ensures
      var AskRead(slug, p) := m.readers[r];
      var (st', answer) := Sought(st, digest, slug, p, replies);
      && Reaches(c, steps, m') && Mirrors(m', st', digest)
      && if answer.Success? then ServedAs(m', r, slug, p, answer.value) else r !in m'.readers
  {
    var AskRead(slug, p) := m.readers[r];
    var (st', hit) := Looked(st, digest, slug, p, replies);
    var look, fetch := LookSteps(st, slug, r, replies), FetchSteps(st', slug, p, r, replies);
    steps, m' := LookTaken(c, before, m, st, digest, r, replies);
    if IsHit(hit) {
      StepsChain(before, look, []);
    } else {
      steps, m' := FetchTaken(c, before + look, m', st', digest, r, replies);
      StepsChain(before, look, fetch);
    }
  }

  lemma StepsChain(before: seq<CacheStep>, some: seq<CacheStep>, more: seq<CacheStep>)
    ensures before + some + more == before + (some + more)
    ensures before + (some + []) == before + some
  {
    assert some + [] == some;
  }

  lemma HitIsPastResult(c: Cached, st: State, digest: Digest, slug: Slug, version: nat, p: RunParams)
    requires Coherent(c) && Mirrors(c, st, digest) && Supported(slug) && NoCollision(digest, c.entries, Normalize(p))
    requires EntryKey(digest, slug, version, p) in st.entries
    ensures exists at: nat :: PastResult(c.time.past, slug, p, st.entries[EntryKey(digest, slug, version, p)], at)
  {
    var key := KeyFor(slug, version, p);
    LookupText(digest, st.entries, c.entries, key);
    assert EntryOk(c.time, key, c.entries[key]);
    EntryIsPastResult(c.time, key, c.entries[key], p);
  }

  lemma EntryIsPastResult(t: Timeline, key: CacheKey, e: Entry, p: RunParams)
    requires EntryOk(t, key, e) && key.params == Normalize(p)
    ensures exists at: nat :: PastResult(t.past, key.slug, p, e.rows, at)
  {
    SameNormalForm(t.past, key.slug, key.params, p, e.rows, e.queriedAt);
    assert PastResult(t.past, key.slug, p, e.rows, e.queriedAt);
  }

  /** So every answer is the report, for the parameters that were sent, of some table state that existed. */
  lemma AnswerIsPastResult(c: Cached, st: State, digest: Digest, slug: Slug, raw: RawParams, p: RunParams,
                           maxRangeDays: int, replies: RunReplies)
    requires Coherent(c) && Mirrors(c, st, digest) && Supported(slug) && AskedFor(raw, p)
    requires NoCollision(digest, c.entries, Normalize(p))
    requires Answered(st, digest, slug, raw, maxRangeDays, replies).1.Success?
    ensures
      var answer := Answered(st, digest, slug, raw, maxRangeDays, replies).1.value;
      exists at: nat :: PastResult(c.time.past, slug, p, answer.rows, at)
  {
    ValidateExact(raw, maxRangeDays);
    var (st', hit) := Looked(st, digest, slug, p, replies);
    if replies.caching && IsHit(hit) {
      var version := Redis.Versioned(st.versions, SlugName(slug), replies.read.ok, replies.read.init).1.value;
      HitIsPastResult(c, st, digest, slug, version, p);
    } else {
      assert PastResult(c.time.past, slug, p, RunQuery(st.table, slug, p), |c.time.past| - 1);
    }
  }
}
