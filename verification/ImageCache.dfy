/** The in-memory LRU of fetched images (internal/provider/imagecache.go). The list is a sequence, most
    recently used first, beside it the map and the byte counter the original keeps; the clock is a
    parameter. The object refines a recency list, over which the promises about runs are stated. */
module ImageCache {
  import opened Basics

  datatype Entry = Entry(url: string, mediaType: string, data: string, bytes: nat, expires: int)

  datatype Config = Config(maxEntries: nat, maxBytes: nat, ttl: int)

  const DEFAULT_ENTRIES := 64
  const DEFAULT_BYTES := 0x400_0000
  const DEFAULT_TTL := 600_000_000_000

  function ConfigOf(maxEntries: int, maxBytes: int, ttl: int): (c: Config)
    ensures c.maxEntries > 0 && c.maxBytes > 0 && c.ttl > 0
  {
    Config(if maxEntries <= 0 then DEFAULT_ENTRIES else maxEntries,
           if maxBytes <= 0 then DEFAULT_BYTES else maxBytes,
           if ttl <= 0 then DEFAULT_TTL else ttl)
  }

  // ----- the recency list

  function Size(es: seq<Entry>): nat {
    if |es| == 0 then 0 else es[0].bytes + Size(es[1..])
  }

  function Without(es: seq<Entry>, url: string): seq<Entry> {
    if |es| == 0 then []
    else if es[0].url == url then Without(es[1..], url)
    else [es[0]] + Without(es[1..], url)
  }

  function Find(es: seq<Entry>, url: string): Option<Entry> {
    if |es| == 0 then None
    else if es[0].url == url then Some(es[0])
    else Find(es[1..], url)
  }

  predicate Fits(c: Config, es: seq<Entry>) { |es| <= c.maxEntries && Size(es) <= c.maxBytes }

  /** The longest prefix that fits: what is dropped is the shortest least recently used suffix. */
  function Trim(c: Config, es: seq<Entry>): (kept: seq<Entry>)
    ensures kept <= es && Fits(c, kept)
  {
    if Fits(c, es) then es else Trim(c, es[..|es| - 1])
  }

  datatype Op = Get(now: int, url: string) | Put(now: int, url: string, mediaType: string, data: string)

  predicate Fresh(e: Entry, now: int) { now <= e.expires }

  function After(c: Config, es: seq<Entry>, op: Op): seq<Entry> {
    match op
    case Get(now, url) =>
      (match Find(es, url)
       case None => es
       case Some(e) => if Fresh(e, now) then [e] + Without(es, url) else Without(es, url))
    case Put(now, url, mediaType, data) =>
      if |data| > c.maxBytes then es
      else Trim(c, [Entry(url, mediaType, data, |data|, now + c.ttl)] + Without(es, url))
  }

  function Hit(es: seq<Entry>, now: int, url: string): Option<Entry> {
    match Find(es, url)
    case Some(e) => if Fresh(e, now) then Some(e) else None
    case None => None
  }

  ghost predicate Distinct(es: seq<Entry>) {
    forall i, j :: 0 <= i < j < |es| ==> es[i].url != es[j].url
  }

  ghost predicate Good(c: Config, es: seq<Entry>) { Distinct(es) && Fits(c, es) }

  // ----- facts about the list

  lemma {:induction false} FindMeaning(es: seq<Entry>, url: string)
    ensures Find(es, url).Some? ==> Find(es, url).value in es && Find(es, url).value.url == url
    ensures Find(es, url).None? <==> forall e :: e in es ==> e.url != url
  {
    if |es| > 0 {
      FindMeaning(es[1..], url);
      assert forall e :: e in es <==> e == es[0] || e in es[1..];
    }
  }

  lemma {:induction false} FindAt(es: seq<Entry>, i: nat)
    requires Distinct(es) && i < |es|
    ensures Find(es, es[i].url) == Some(es[i])
  {
    if i > 0 {
      FindAt(es[1..], i - 1);
    }
  }

  lemma {:induction false} WithoutAt(es: seq<Entry>, i: nat)
    requires Distinct(es) && i < |es|
    ensures Without(es, es[i].url) == es[..i] + es[i + 1..]
  {
    if i == 0 {
      WithoutAbsent(es[1..], es[0].url);
    } else {
      WithoutAt(es[1..], i - 1);
      assert es[1..][..i - 1] == es[1..i] && es[1..][i..] == es[i + 1..];
    }
  }

  lemma {:induction false} WithoutAbsent(es: seq<Entry>, url: string)
    requires forall i :: 0 <= i < |es| ==> es[i].url != url
    ensures Without(es, url) == es
  {
    if |es| > 0 {
      WithoutAbsent(es[1..], url);
    }
  }

  lemma {:induction false} SizeSplit(a: seq<Entry>, b: seq<Entry>)
    ensures Size(a + b) == Size(a) + Size(b)
  {
    if |a| == 0 {
      assert a + b == b;
    } else {
      SizeSplit(a[1..], b);
      assert (a + b)[1..] == a[1..] + b;
    }
  }

  /** Nothing more could have been kept: any longer prefix breaks a limit. */
  lemma {:induction false} TrimIsLongest(c: Config, es: seq<Entry>, k: nat)
    requires k <= |es| && Fits(c, es[..k])
    ensures k <= |Trim(c, es)|
  {
    if Fits(c, es) {
    } else {
      assert es[..|es|] == es;
      assert k < |es|;
      assert es[..|es| - 1][..k] == es[..k];
      TrimIsLongest(c, es[..|es| - 1], k);
    }
  }

  /** The entry just stored always survives. */
  lemma NewestSurvives(c: Config, e: Entry, es: seq<Entry>)
    requires c.maxEntries > 0 && e.bytes <= c.maxBytes
    ensures |Trim(c, [e] + es)| >= 1 && Trim(c, [e] + es)[0] == e
  {
    assert ([e] + es)[..1] == [e] && [e][1..] == [];
    TrimIsLongest(c, [e] + es, 1);
  }

  lemma {:induction false} WithoutMembers(es: seq<Entry>, url: string, e: Entry)
    ensures e in Without(es, url) <==> e in es && e.url != url
  {
    if |es| > 0 {
      WithoutMembers(es[1..], url, e);
      assert e in es <==> e == es[0] || e in es[1..];
    }
  }

  lemma {:induction false} WithoutDistinct(es: seq<Entry>, url: string)
    requires Distinct(es)
    ensures Distinct(Without(es, url))
    ensures forall i :: 0 <= i < |Without(es, url)| ==> Without(es, url)[i].url != url
  {
    if |es| > 0 {
      var rest := Without(es[1..], url);
      WithoutDistinct(es[1..], url);
      forall i | 0 <= i < |rest| ensures rest[i].url != es[0].url {
        WithoutMembers(es[1..], url, rest[i]);
      }
    }
  }

  lemma {:induction false} WithoutSize(es: seq<Entry>, url: string)
    requires Distinct(es)
    ensures match Find(es, url)
      case None => Without(es, url) == es
      case Some(e) => Size(Without(es, url)) == Size(es) - e.bytes && |Without(es, url)| == |es| - 1
  {
    if |es| > 0 {
      if es[0].url == url {
        WithoutAbsent(es[1..], url);
      } else {
        WithoutSize(es[1..], url);
        assert ([es[0]] + Without(es[1..], url))[1..] == Without(es[1..], url);
      }
    }
  }

  lemma StepGood(c: Config, es: seq<Entry>, op: Op)
    requires Good(c, es)
    ensures Good(c, After(c, es, op))
  {
    WithoutDistinct(es, op.url);
    WithoutSize(es, op.url);
    if op.Get? && Hit(es, op.now, op.url).Some? {
      var e := Find(es, op.url).value;
      FindMeaning(es, op.url);
      assert ([e] + Without(es, op.url))[1..] == Without(es, op.url);
    }
  }

  // ----- runs

  function State(c: Config, ops: seq<Op>): seq<Entry> {
    if |ops| == 0 then [] else After(c, State(c, ops[..|ops| - 1]), ops[|ops| - 1])
  }

  /** The last put of `url` that was stored at all; a put too large for the cache is ignored and leaves
      the older entry in place. */
  function LastStored(c: Config, ops: seq<Op>, url: string): Option<Entry> {
    if |ops| == 0 then None
    else
      var op := ops[|ops| - 1];
      if op.Put? && op.url == url && |op.data| <= c.maxBytes
      then Some(Entry(url, op.mediaType, op.data, |op.data|, op.now + c.ttl))
      else LastStored(c, ops[..|ops| - 1], url)
  }

  /** In every state of every run both limits hold, no url is there twice, and what is there under a url
      is what was stored last. */
  lemma {:induction false} RunIsSound(c: Config, ops: seq<Op>, url: string)
    requires c.maxEntries > 0
    ensures Good(c, State(c, ops))
    ensures Find(State(c, ops), url).Some? ==> Find(State(c, ops), url) == LastStored(c, ops, url)
  {
    if |ops| > 0 {
      var before, op := ops[..|ops| - 1], ops[|ops| - 1];
      RunIsSound(c, before, url);
      StepGood(c, State(c, before), op);
      if Find(State(c, ops), url).Some? {
        FindAfter(c, State(c, before), op, url);
      }
    }
  }

  /** Where an entry found after an operation comes from. */
  lemma FindAfter(c: Config, es: seq<Entry>, op: Op, url: string)
    requires c.maxEntries > 0 && Good(c, es) && Find(After(c, es, op), url).Some?
    ensures if op.Put? && op.url == url && |op.data| <= c.maxBytes
            then Find(After(c, es, op), url) == Some(Entry(url, op.mediaType, op.data, |op.data|, op.now + c.ttl))
            else Find(After(c, es, op), url) == Find(es, url)
  {
    var es' := After(c, es, op);
    StepGood(c, es, op);
    FindMeaning(es', url);
    var e := Find(es', url).value;
    WithoutMembers(es, op.url, e);
    FindMeaning(es, op.url);
    if op.Put? && |op.data| <= c.maxBytes {
      var first := Entry(op.url, op.mediaType, op.data, |op.data|, op.now + c.ttl);
      assert e == first || e in Without(es, op.url);
      if op.url == url {
        assert e == first;
      }
    }
    if !(op.Put? && op.url == url && |op.data| <= c.maxBytes) {
      assert e in es;
      var i :| 0 <= i < |es| && es[i] == e;
      FindAt(es, i);
    }
  }

  /** So a hit is always the last stored value, and never a stale one. */
  lemma HitIsLastStored(c: Config, ops: seq<Op>, now: int, url: string)
    requires c.maxEntries > 0 && Hit(State(c, ops), now, url).Some?
    ensures Hit(State(c, ops), now, url) == LastStored(c, ops, url)
    ensures now <= Hit(State(c, ops), now, url).value.expires
  {
    RunIsSound(c, ops, url);
  }

  /** The last put of `url`, stored or not. */
  function LastPut(ops: seq<Op>, url: string): Option<Op> {
    if |ops| == 0 then None
    else
      var op := ops[|ops| - 1];
      if op.Put? && op.url == url then Some(op) else LastPut(ops[..|ops| - 1], url)
  }

  lemma {:induction false} StoredWasPut(c: Config, ops: seq<Op>, url: string)
    ensures LastPut(ops, url).Some? ==> LastPut(ops, url).value.Put?
    ensures LastStored(c, ops, url).Some? ==>
      |LastStored(c, ops, url).value.data| <= c.maxBytes && LastPut(ops, url).Some?
    ensures LastPut(ops, url).Some? && |LastPut(ops, url).value.data| <= c.maxBytes ==>
      var p := LastPut(ops, url).value;
      LastStored(c, ops, url) == Some(Entry(url, p.mediaType, p.data, |p.data|, p.now + c.ttl))
  {
    if |ops| > 0 {
      StoredWasPut(c, ops[..|ops| - 1], url);
    }
  }

  /** A hit is what was put last if and only if that value was not too large for the cache. */
  lemma HitIsLastPutIff(c: Config, ops: seq<Op>, now: int, url: string)
    requires c.maxEntries > 0 && Hit(State(c, ops), now, url).Some?
    ensures LastPut(ops, url).Some? && LastPut(ops, url).value.Put?
    ensures var p := LastPut(ops, url).value;
      Hit(State(c, ops), now, url).value == Entry(url, p.mediaType, p.data, |p.data|, p.now + c.ttl) <==> |p.data| <= c.maxBytes
  {
    HitIsLastStored(c, ops, now, url);
    StoredWasPut(c, ops, url);
  }

  /** Otherwise it is an older one: a value is put, then a larger one than the cache takes, and the first is read. */
  lemma OversizedPutIsIgnored(c: Config, large: string)
    requires c.maxEntries > 0 && c.maxBytes > 0 && c.ttl >= 0 && |large| > c.maxBytes
    ensures var ops := [Put(0, "u", "image/png", "a"), Put(0, "u", "image/png", large)];
      Hit(State(c, ops), 0, "u") == Some(Entry("u", "image/png", "a", 1, c.ttl))
  {
    var first, second := Put(0, "u", "image/png", "a"), Put(0, "u", "image/png", large);
    var ops := [first, second];
    assert ops[..1] == [first] && [first][..0] == [];
    var e := Entry("u", "image/png", "a", 1, c.ttl);
    assert [e] + [] == [e] && Size([e]) == 1;
    assert State(c, [first]) == [e];
    assert State(c, ops) == [e];
  }

  // ----- least recently used

  /** The operation puts `url` into the cache, or is a hit on it. */
  predicate Uses(c: Config, before: seq<Op>, op: Op, url: string) {
    op.url == url && if op.Put? then |op.data| <= c.maxBytes else Hit(State(c, before), op.now, url).Some?
  }

  /** When `url` was last used, counted in operations; -1 if never. */
  function LastUse(c: Config, ops: seq<Op>, url: string): int {
    if |ops| == 0 then -1
    else if Uses(c, ops[..|ops| - 1], ops[|ops| - 1], url) then |ops| - 1
    else LastUse(c, ops[..|ops| - 1], url)
  }

  lemma {:induction false} UsedBefore(c: Config, ops: seq<Op>, url: string)
    ensures -1 <= LastUse(c, ops, url) < |ops|
  {
    if |ops| > 0 {
      UsedBefore(c, ops[..|ops| - 1], url);
    }
  }

  /** Each was used, and each after the next. */
  ghost predicate ByUse(c: Config, ops: seq<Op>, es: seq<Entry>) {
    && (forall i :: 0 <= i < |es| ==> LastUse(c, ops, es[i].url) >= 0)
    && (forall i, j :: 0 <= i < j < |es| ==> LastUse(c, ops, es[i].url) > LastUse(c, ops, es[j].url))
  }

  lemma {:induction false} WithoutByUse(c: Config, ops: seq<Op>, es: seq<Entry>, url: string)
    requires ByUse(c, ops, es)
    ensures ByUse(c, ops, Without(es, url))
  {
    if |es| > 0 {
      var rest := Without(es[1..], url);
      WithoutByUse(c, ops, es[1..], url);
      forall i | 0 <= i < |rest| ensures LastUse(c, ops, es[0].url) > LastUse(c, ops, rest[i].url) {
        WithoutMembers(es[1..], url, rest[i]);
      }
    }
  }

  /** An operation uses its own url at most. */
  lemma OthersUnused(c: Config, ops: seq<Op>, op: Op, es: seq<Entry>)
    requires ByUse(c, ops, es) && forall i :: 0 <= i < |es| ==> !Uses(c, ops, op, es[i].url)
    ensures ByUse(c, ops + [op], es)
  {
    assert (ops + [op])[..|ops|] == ops;
  }

  lemma UsedFirst(c: Config, ops: seq<Op>, op: Op, e: Entry, es: seq<Entry>)
    requires ByUse(c, ops, es) && Uses(c, ops, op, e.url) && forall i :: 0 <= i < |es| ==> es[i].url != op.url
    ensures ByUse(c, ops + [op], [e] + es)
  {
    OthersUnused(c, ops, op, es);
    assert (ops + [op])[..|ops|] == ops;
    forall i | 0 <= i < |es| ensures LastUse(c, ops + [op], es[i].url) < |ops| {
      UsedBefore(c, ops, es[i].url);
    }
  }

  /** The list before the last operation trims it. */
  function Untrimmed(c: Config, es: seq<Entry>, op: Op): seq<Entry> {
    if op.Put? && |op.data| <= c.maxBytes
    then [Entry(op.url, op.mediaType, op.data, |op.data|, op.now + c.ttl)] + Without(es, op.url)
    else After(c, es, op)
  }

  lemma StepByUse(c: Config, ops: seq<Op>, op: Op, es: seq<Entry>)
    requires c.maxEntries > 0 && es == State(c, ops) && Good(c, es) && ByUse(c, ops, es)
    ensures ByUse(c, ops + [op], Untrimmed(c, es, op))
  {
    WithoutDistinct(es, op.url);
    WithoutByUse(c, ops, es, op.url);
    FindMeaning(es, op.url);
    if op.Put? && |op.data| <= c.maxBytes {
      UsedFirst(c, ops, op, Untrimmed(c, es, op)[0], Without(es, op.url));
    } else if op.Get? && Hit(es, op.now, op.url).Some? {
      UsedFirst(c, ops, op, Find(es, op.url).value, Without(es, op.url));
    } else if op.Get? && Find(es, op.url).Some? {
      OthersUnused(c, ops, op, Without(es, op.url));
    } else {
      OthersUnused(c, ops, op, es);
    }
  }

  lemma PrefixByUse(c: Config, ops: seq<Op>, es: seq<Entry>, kept: seq<Entry>)
    requires ByUse(c, ops, es) && kept <= es
    ensures ByUse(c, ops, kept)
  {
  }

  /** In every state of every run the entries stand in the order of their last use, the latest first. */
  lemma {:induction false} RecencyOrder(c: Config, ops: seq<Op>)
    requires c.maxEntries > 0
    ensures ByUse(c, ops, State(c, ops))
  {
    if |ops| > 0 {
      var before, op := ops[..|ops| - 1], ops[|ops| - 1];
      RecencyOrder(c, before);
      RunIsSound(c, before, "");
      StepByUse(c, before, op, State(c, before));
      assert before + [op] == ops;
      PrefixByUse(c, ops, Untrimmed(c, State(c, before), op), State(c, ops));
    }
  }

  /** Whatever an operation evicts was last used before everything it keeps. */
  lemma EvictsLeastRecent(c: Config, ops: seq<Op>, op: Op, kept: Entry, evicted: Entry)
    requires c.maxEntries > 0
    requires kept in State(c, ops + [op])
    requires evicted in Untrimmed(c, State(c, ops), op) && evicted !in State(c, ops + [op])
    ensures LastUse(c, ops + [op], evicted.url) < LastUse(c, ops + [op], kept.url)
  {
    assert (ops + [op])[..|ops|] == ops;
    RecencyOrder(c, ops);
    RunIsSound(c, ops, "");
    StepByUse(c, ops, op, State(c, ops));
    var all, left := Untrimmed(c, State(c, ops), op), State(c, ops + [op]);
    assert left <= all;
    var i :| 0 <= i < |left| && left[i] == kept;
    var j :| 0 <= j < |all| && all[j] == evicted;
    assert forall m :: 0 <= m < |left| ==> left[m] == all[m] && left[m] in left;
  }

  /** Before trimming only the operation's own url is touched: a read takes its entry out once it has expired, a value
      that is stored takes its place, one that is too large leaves it. */
  lemma StillListed(c: Config, es: seq<Entry>, op: Op, e: Entry)
    requires Good(c, es) && e in es
    ensures e.url != op.url ==> e in Untrimmed(c, es, op)
    ensures e.url == op.url && op.Get? ==> (e in Untrimmed(c, es, op) <==> op.now <= e.expires)
    ensures e.url == op.url && op.Put? && |op.data| > c.maxBytes ==> e in Untrimmed(c, es, op)
  {
    WithoutMembers(es, op.url, e);
    var i :| 0 <= i < |es| && es[i] == e;
    if e.url == op.url {
      FindAt(es, i);
    }
    FindMeaning(es, op.url);
  }

  /** Trimming keeps an entry exactly when it fits together with everything used since. */
  lemma StaysIff(c: Config, ops: seq<Op>, op: Op, i: nat)
    requires c.maxEntries > 0 && i < |Untrimmed(c, State(c, ops), op)|
    ensures var all := Untrimmed(c, State(c, ops), op);
      all[i] in State(c, ops + [op]) <==> Fits(c, all[..i + 1])
  {
    assert (ops + [op])[..|ops|] == ops;
    RunIsSound(c, ops, "");
    RunIsSound(c, ops + [op], "");
    var es, all := State(c, ops), Untrimmed(c, State(c, ops), op);
    if op.Put? && |op.data| <= c.maxBytes {
      if Fits(c, all[..i + 1]) {
        TrimIsLongest(c, all, i + 1);
        assert Trim(c, all)[i] == all[i];
      } else if all[i] in Trim(c, all) {
        StepByUseAt(c, ops, op, i);
      }
    } else {
      FitsPrefix(c, all, i + 1);
    }
  }

  lemma {:induction false} FitsPrefix(c: Config, es: seq<Entry>, n: nat)
    requires Fits(c, es) && n <= |es|
    ensures Fits(c, es[..n])
  {
    SizeSplit(es[..n], es[n..]);
    assert es[..n] + es[n..] == es;
  }

  /** The i-th entry is kept only as part of a prefix that fits. */
  lemma StepByUseAt(c: Config, ops: seq<Op>, op: Op, i: nat)
    requires c.maxEntries > 0 && op.Put? && |op.data| <= c.maxBytes && i < |Untrimmed(c, State(c, ops), op)|
    requires var all := Untrimmed(c, State(c, ops), op); all[i] in Trim(c, all)
    ensures Fits(c, Untrimmed(c, State(c, ops), op)[..i + 1])
  {
    RunIsSound(c, ops, "");
    RecencyOrder(c, ops);
    StepByUse(c, ops, op, State(c, ops));
    var all := Untrimmed(c, State(c, ops), op);
    var kept := Trim(c, all);
    var j :| 0 <= j < |kept| && kept[j] == all[i];
    assert kept[j] == all[j];
    FitsPrefix(c, kept, i + 1);
    assert kept[..i + 1] == all[..i + 1];
  }

  /** And a value that is there is a hit until it expires. */
  lemma HitIff(c: Config, ops: seq<Op>, now: int, url: string)
    requires c.maxEntries > 0
    ensures Hit(State(c, ops), now, url).Some? <==>
      (exists i :: 0 <= i < |State(c, ops)| && State(c, ops)[i].url == url) && LastStored(c, ops, url).Some? && now <= LastStored(c, ops, url).value.expires
  {
    RunIsSound(c, ops, url);
    FindMeaning(State(c, ops), url);
  }

  // ----- the object

  class Cache {
    const c: Config
    var order: seq<Entry>
    var entries: map<string, Entry>
    var bytes: int

    /** Map and list hold the same entries, and the counter is the sum of their sizes. */
    ghost predicate Valid()
      reads this
    {
      && c.maxEntries > 0 && Good(c, order)
      && Indexed(order, entries)
      && bytes == Size(order)
    }

    constructor (maxEntries: int, maxBytes: int, ttl: int)
      ensures Valid() && order == [] && c == ConfigOf(maxEntries, maxBytes, ttl)
    {
      c := ConfigOf(maxEntries, maxBytes, ttl);
      order, entries, bytes := [], map[], 0;
    }

    /** Drops the element at position `i`. */
    method RemoveAt(i: nat)
      requires i < |order| && Distinct(order) && Indexed(order, entries) && bytes == Size(order)
      modifies this
      ensures order == old(order)[..i] + old(order)[i + 1..] == Without(old(order), old(order)[i].url)
      ensures Distinct(order) && Indexed(order, entries) && bytes == Size(order)
    {
      var e := order[i];
      WithoutAt(order, i);
      WithoutSize(order, e.url);
      WithoutDistinct(order, e.url);
      FindAt(order, i);
      IndexedWithout(order, entries, e.url);
      order := order[..i] + order[i + 1..];
      entries := entries - {e.url};
      bytes := bytes - e.bytes;
    }

    /** The element of the list that an entry of the map points to. */
    method Locate(url: string) returns (i: nat)
      requires Distinct(order) && Indexed(order, entries) && url in entries
      ensures i < |order| && order[i] == entries[url] && order[i].url == url && Find(order, url) == Some(order[i])
    {
      FindMeaning(order, url);
      i := 0;
      while order[i].url != url
        invariant i < |order| && exists k :: i <= k < |order| && order[k].url == url
        decreases |order| - i
      {
        i := i + 1;
      }
      FindAt(order, i);
    }

    /** Map, list and counter agree; the limits may be exceeded for a moment. */
    ghost predicate Consistent()
      reads this
    {
      Distinct(order) && Indexed(order, entries) && bytes == Size(order)
    }

    method Forget(url: string)
      requires Consistent()
      modifies this
      ensures Consistent() && order == Without(old(order), url) && url !in entries
    {
      if url in entries {
        var i := Locate(url);
        RemoveAt(i);
      } else {
        AbsentFromList(order, entries, url);
      }
      WithoutDistinct(old(order), url);
      NotIndexed(order, entries, url);
    }

    method PushNew(e: Entry)
      requires Consistent() && e.url !in entries
      modifies this
      ensures Consistent() && order == [e] + old(order)
    {
      PushFront(order, entries, e);
      assert ([e] + order)[1..] == order;
      order, entries, bytes := [e] + order, entries[e.url := e], bytes + e.bytes;
    }

    method Get(now: int, url: string) returns (hit: Option<Entry>)
      requires Valid()
      modifies this
      ensures Valid() && order == After(c, old(order), Op.Get(now, url)) && hit == Hit(old(order), now, url)
    {
      StepGood(c, order, Op.Get(now, url));
      if url !in entries {
        AbsentFromList(order, entries, url);
        return None;
      }
      var e := entries[url];
      FindMeaning(order, url);
      Forget(url);
      if now > e.expires {
        return None;
      }
      PushNew(e);
      return Some(e);
    }

    method Put(now: int, url: string, mediaType: string, data: string)
      requires Valid()
      modifies this
      ensures Valid() && order == After(c, old(order), Op.Put(now, url, mediaType, data))
      ensures |data| <= c.maxBytes ==> |order| > 0 && order[0] == Entry(url, mediaType, data, |data|, now + c.ttl)
    {
      var size := |data|;
      if size > c.maxBytes {
        return;
      }
      Forget(url);
      var e := Entry(url, mediaType, data, size, now + c.ttl);
      NewestSurvives(c, e, order);
      PushNew(e);
      Evict();
    }

    /** The eviction loop: from the back until both limits hold. */
    method Evict()
      requires Consistent() && c.maxEntries > 0
      modifies this
      ensures Valid() && order == Trim(c, old(order))
    {
      while |order| > c.maxEntries || bytes > c.maxBytes
        invariant Consistent() && Trim(c, order) == Trim(c, old(order))
        decreases |order|
      {
        assert order[..|order| - 1] + order[|order|..] == order[..|order| - 1];
        RemoveAt(|order| - 1);
      }
    }
  }

  lemma AbsentFromList(order: seq<Entry>, entries: map<string, Entry>, url: string)
    requires Distinct(order) && Indexed(order, entries) && url !in entries
    ensures Find(order, url).None? && Without(order, url) == order
  {
    FindMeaning(order, url);
    WithoutSize(order, url);
  }

  lemma NotIndexed(order: seq<Entry>, entries: map<string, Entry>, url: string)
    requires Indexed(order, entries) && forall i :: 0 <= i < |order| ==> order[i].url != url
    ensures url !in entries
  {
    FindMeaning(order, url);
  }

  ghost predicate Indexed(order: seq<Entry>, entries: map<string, Entry>) {
    && (forall i :: 0 <= i < |order| ==> order[i].url in entries && entries[order[i].url] == order[i])
    && (forall url :: url in entries ==> Find(order, url) == Some(entries[url]))
  }

  lemma IndexedWithout(order: seq<Entry>, entries: map<string, Entry>, url: string)
    requires Distinct(order) && Indexed(order, entries) && url in entries
    ensures Indexed(Without(order, url), entries - {url})
  {
    var rest := Without(order, url);
    WithoutDistinct(order, url);
    forall i | 0 <= i < |rest| ensures rest[i].url in entries && entries[rest[i].url] == rest[i] {
      WithoutMembers(order, url, rest[i]);
    }
    forall u | u in entries && u != url ensures Find(rest, u) == Some(entries[u]) {
      FindMeaning(order, u);
      WithoutMembers(order, url, entries[u]);
      var k :| 0 <= k < |rest| && rest[k] == entries[u];
      FindAt(rest, k);
    }
  }

  lemma PushFront(order: seq<Entry>, entries: map<string, Entry>, e: Entry)
    requires Distinct(order) && Indexed(order, entries) && e.url !in entries
    ensures Distinct([e] + order) && Indexed([e] + order, entries[e.url := e])
  {
    assert ([e] + order)[1..] == order;
  }
}
