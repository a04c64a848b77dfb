/** LruCache: a bounded store that forgets what has not been used for longest. */
module LruCache {
  import opened Options

  type Value(==, !new)

  datatype Entry = Entry(key: string, value: Value)

  /** The limits; a missing one does not limit. */
  datatype Limits = Limits(maxEntries: Option<nat>, maxBytes: Option<real>)

  /** What `sizeOf` returns. */
  datatype Measured = Size(bytes: real) | NotANumber
  {
    predicate Valid() {
      Size? && bytes >= 0.0
    }
  }

  predicate HasKey(es: seq<Entry>, key: string) {
    exists e | e in es :: e.key == key
  }

  predicate DistinctKeys(es: seq<Entry>) {
    forall i, j | 0 <= i < j < |es| :: es[i].key != es[j].key
  }

  function Without(es: seq<Entry>, key: string): (r: seq<Entry>)
    ensures forall e :: e in r <==> e in es && e.key != key
    ensures !HasKey(es, key) ==> r == es
  {
    if es == [] then [] else
      assert es == [es[0]] + es[1..];
      (if es[0].key == key then [] else [es[0]]) + Without(es[1..], key)
  }

  function SizeIn(sizes: map<string, real>, key: string): real {
    if key in sizes then sizes[key] else 0.0
  }

  function TotalSize(es: seq<Entry>, sizes: map<string, real>): real {
    if es == [] then 0.0 else SizeIn(sizes, es[0].key) + TotalSize(es[1..], sizes)
  }

  /** Both limits hold for `es`. */
  predicate Meets(limits: Limits, es: seq<Entry>, sizes: map<string, real>) {
    && (limits.maxEntries.Some? ==> |es| <= limits.maxEntries.value)
    && (limits.maxBytes.Some? ==> TotalSize(es, sizes) <= limits.maxBytes.value)
  }

  /** `kept` is what the limits leave of `all`: the longest run of most recent entries that meets both, at least the newest one
      alone even if that is too big, and nothing when no entry is allowed at all. */
  ghost predicate IsKept(limits: Limits, all: seq<Entry>, sizes: map<string, real>, kept: seq<Entry>) {
    if limits.maxEntries == Some(0) then kept == []
    else exists k: nat :: KeepsFrom(limits, all, sizes, k) && kept == all[k..]
  }

  ghost predicate KeepsFrom(limits: Limits, all: seq<Entry>, sizes: map<string, real>, k: nat) {
    && k < |all| && (k == |all| - 1 || Meets(limits, all[k..], sizes))
    && forall j | 0 <= j < k :: !Meets(limits, all[j..], sizes)
  }

  /** The books agree: one size per entry when bytes are limited, none otherwise, and their sum. */
  ghost predicate Booked(limits: Limits, es: seq<Entry>, sizes: map<string, real>, total: real) {
    && DistinctKeys(es)
    && (forall k :: k in sizes <==> limits.maxBytes.Some? && HasKey(es, k))
    && (forall k | k in sizes :: sizes[k] >= 0.0)
    && total == TotalSize(es, sizes)
  }

  lemma {:induction false} SameSizes(es: seq<Entry>, a: map<string, real>, b: map<string, real>)
    requires forall e | e in es :: SizeIn(a, e.key) == SizeIn(b, e.key)
    ensures TotalSize(es, a) == TotalSize(es, b)
  {
    if es != [] {
      SameSizes(es[1..], a, b);
    }
  }

  lemma FirstIsAlone(es: seq<Entry>)
    requires DistinctKeys(es) && es != []
    ensures DistinctKeys(es[1..]) && !HasKey(es[1..], es[0].key)
    ensures forall key :: HasKey(es, key) <==> key == es[0].key || HasKey(es[1..], key)
  {
    forall i, j | 0 <= i < j < |es[1..]| ensures es[1..][i].key != es[1..][j].key { assert es[i + 1].key != es[j + 1].key; }
    forall e | e in es[1..] ensures e.key != es[0].key {
      var j :| 0 <= j < |es[1..]| && es[1..][j] == e;
      assert es[0].key != es[j + 1].key;
    }
    HasKeyFirst(es);
  }

  lemma HasKeyFirst(es: seq<Entry>)
    requires es != []
    ensures forall key :: HasKey(es, key) <==> key == es[0].key || HasKey(es[1..], key)
  {
    assert es == [es[0]] + es[1..];
    forall key ensures HasKey(es, key) <==> key == es[0].key || HasKey(es[1..], key) {
      if HasKey(es, key) { var e :| e in es && e.key == key; assert e == es[0] || e in es[1..]; }
      if key == es[0].key { assert es[0] in es; }
      if HasKey(es[1..], key) { var e :| e in es[1..] && e.key == key; assert e in es; }
    }
  }

  lemma AloneFirst(e: Entry, es: seq<Entry>)
    requires DistinctKeys(es) && !HasKey(es, e.key)
    ensures DistinctKeys([e] + es)
  {
    forall i, j | 0 <= i < j < |[e] + es| ensures ([e] + es)[i].key != ([e] + es)[j].key {
      assert es[j - 1] in es;
    }
  }

  lemma {:induction false} SizeWithout(es: seq<Entry>, sizes: map<string, real>, key: string)
    requires DistinctKeys(es)
    ensures DistinctKeys(Without(es, key))
    ensures forall k :: HasKey(Without(es, key), k) <==> HasKey(es, k) && k != key
    ensures TotalSize(Without(es, key), sizes) == TotalSize(es, sizes) - if HasKey(es, key) then SizeIn(sizes, key) else 0.0
  {
    forall k ensures HasKey(Without(es, key), k) <==> HasKey(es, k) && k != key {
      if HasKey(es, k) && k != key { var e :| e in es && e.key == k; assert e in Without(es, key); }
    }
    if es != [] {
      FirstIsAlone(es);
      SizeWithout(es[1..], sizes, key);
      SizeStep(es, sizes, key);
    }
  }

  lemma SizeStep(es: seq<Entry>, sizes: map<string, real>, key: string)
    requires es != [] && DistinctKeys(es) && !HasKey(es[1..], es[0].key)
    requires DistinctKeys(Without(es[1..], key)) && forall k :: HasKey(Without(es[1..], key), k) <==> HasKey(es[1..], k) && k != key
    requires TotalSize(Without(es[1..], key), sizes) == TotalSize(es[1..], sizes) - if HasKey(es[1..], key) then SizeIn(sizes, key) else 0.0
    ensures DistinctKeys(Without(es, key))
    ensures TotalSize(Without(es, key), sizes) == TotalSize(es, sizes) - if HasKey(es, key) then SizeIn(sizes, key) else 0.0
  {
    hide DistinctKeys, HasKey;
    HasKeyFirst(es);
    var rest := Without(es[1..], key);
    if es[0].key == key {
      assert Without(es, key) == [] + rest == rest;
    } else {
      assert Without(es, key) == [es[0]] + rest && ([es[0]] + rest)[1..] == rest;
      AloneFirst(es[0], rest);
    }
  }

  /** Taking an entry out together with its size keeps the books. */
  lemma RemovalBooked(limits: Limits, es: seq<Entry>, sizes: map<string, real>, total: real, key: string)
    requires Booked(limits, es, sizes, total)
    ensures Booked(limits, Without(es, key), sizes - {key}, total - SizeIn(sizes, key))
  {
    hide HasKey, DistinctKeys, TotalSize;
    SizeWithout(es, sizes, key);
    SameSizes(Without(es, key), sizes, sizes - {key});
    if !limits.maxBytes.Some? { NoSizes(es, sizes); NoSizes(Without(es, key), sizes - {key}); }
  }

  lemma {:induction false} NoSizes(es: seq<Entry>, sizes: map<string, real>)
    requires forall k :: k !in sizes
    ensures TotalSize(es, sizes) == 0.0
  {
    if es != [] {
      NoSizes(es[1..], sizes);
    }
  }

  lemma {:induction false} TotalAppend(es: seq<Entry>, e: Entry, sizes: map<string, real>)
    ensures TotalSize(es + [e], sizes) == TotalSize(es, sizes) + SizeIn(sizes, e.key)
  {
    if es == [] {
      assert es + [e] == [e] && [e][1..] == [];
    } else {
      assert (es + [e])[1..] == es[1..] + [e];
      TotalAppend(es[1..], e, sizes);
    }
  }

  lemma HasKeyLast(es: seq<Entry>, e: Entry)
    ensures forall key :: HasKey(es + [e], key) <==> HasKey(es, key) || key == e.key
  {
    forall key ensures HasKey(es + [e], key) <==> HasKey(es, key) || key == e.key {
      if HasKey(es, key) { var x :| x in es && x.key == key; assert x in es + [e]; }
      if key == e.key { assert e in es + [e]; }
    }
  }

  /** Putting a new entry behind all others, with its size when sizes are kept. */
  lemma AdditionBooked(limits: Limits, es: seq<Entry>, sizes: map<string, real>, total: real, e: Entry, bytes: real)
    requires Booked(limits, es, sizes, total) && !HasKey(es, e.key) && bytes >= 0.0
    ensures limits.maxBytes.Some? ==> Booked(limits, es + [e], sizes[e.key := bytes], total + bytes)
    ensures limits.maxBytes.None? ==> Booked(limits, es + [e], sizes, total)
  {
    HasKeyLast(es, e);
    forall i, j | 0 <= i < j < |es + [e]| ensures (es + [e])[i].key != (es + [e])[j].key { assert es[i] in es; }
    TotalAppend(es, e, sizes);
    TotalAppend(es, e, sizes[e.key := bytes]);
    SameSizes(es, sizes, sizes[e.key := bytes]);
  }

  /** An entry moved behind all others. */
  lemma TouchBooked(limits: Limits, es: seq<Entry>, sizes: map<string, real>, total: real, e: Entry)
    requires Booked(limits, es, sizes, total) && e in es
    ensures Booked(limits, Without(es, e.key) + [e], sizes, total) && |Without(es, e.key) + [e]| == |es|
  {
    var rest := Without(es, e.key);
    SizeWithout(es, sizes, e.key);
    HasKeyLast(rest, e);
    TotalAppend(rest, e, sizes);
    forall i, j | 0 <= i < j < |rest + [e]| ensures (rest + [e])[i].key != (rest + [e])[j].key { assert rest[i] in rest; }
    OneLess(es, e.key);
  }

  lemma {:induction false} OneLess(es: seq<Entry>, key: string)
    requires DistinctKeys(es) && HasKey(es, key)
    ensures |Without(es, key)| == |es| - 1
  {
    FirstIsAlone(es);
    if es[0].key != key {
      OneLess(es[1..], key);
    }
  }

  lemma FirstWithout(es: seq<Entry>)
    requires DistinctKeys(es) && es != []
    ensures Without(es, es[0].key) == es[1..]
  {
    FirstIsAlone(es);
  }

  lemma {:induction es} ShorterWithout(es: seq<Entry>, key: string)
    ensures |Without(es, key)| <= |es|
  {
  }

  /** When each key was last written or read. */
  type Uses = map<string, nat>

  function LastUse(uses: Uses, key: string): nat {
    if key in uses then uses[key] else 0
  }

  /** The entries stand in the order of their last use. */
  ghost predicate Recent(es: seq<Entry>, uses: Uses, now: nat) {
    && (forall e | e in es :: LastUse(uses, e.key) < now)
    && (forall i, j | 0 <= i < j < |es| :: LastUse(uses, es[i].key) < LastUse(uses, es[j].key))
  }

  lemma RecentTail(es: seq<Entry>, uses: Uses, now: nat)
    requires Recent(es, uses, now) && es != []
    ensures Recent(es[1..], uses, now) && LastUse(uses, es[0].key) < now
    ensures forall e | e in es[1..] :: LastUse(uses, es[0].key) < LastUse(uses, e.key)
  {
    forall e | e in es[1..] ensures LastUse(uses, es[0].key) < LastUse(uses, e.key) {
      var i :| 0 <= i < |es[1..]| && es[1..][i] == e;
      assert es[i + 1] == e;
    }
  }

  lemma RecentFirst(e: Entry, rest: seq<Entry>, uses: Uses, now: nat)
    requires Recent(rest, uses, now) && LastUse(uses, e.key) < now
    requires forall x | x in rest :: LastUse(uses, e.key) < LastUse(uses, x.key)
    ensures Recent([e] + rest, uses, now)
  {
    forall i, j | 0 <= i < j < |[e] + rest| ensures LastUse(uses, ([e] + rest)[i].key) < LastUse(uses, ([e] + rest)[j].key) {
      assert rest[j - 1] in rest;
    }
  }

  lemma {:induction false} RecentWithout(es: seq<Entry>, uses: Uses, now: nat, key: string)
    requires Recent(es, uses, now)
    ensures Recent(Without(es, key), uses, now)
  {
    hide Recent, LastUse;
    if es != [] {
      RecentTail(es, uses, now);
      RecentWithout(es[1..], uses, now, key);
      var rest := Without(es[1..], key);
      if es[0].key != key {
        RecentFirst(es[0], rest, uses, now);
      } else {
        assert Without(es, key) == [] + rest == rest;
      }
    }
  }

  lemma RecentAppend(es: seq<Entry>, uses: Uses, now: nat, e: Entry)
    requires Recent(es, uses, now) && !HasKey(es, e.key)
    ensures Recent(es + [e], uses[e.key := now], now + 1)
  {
    var uses' := uses[e.key := now];
    forall x | x in es ensures LastUse(uses', x.key) == LastUse(uses, x.key) < now { }
    forall i, j | 0 <= i < j < |es + [e]| ensures LastUse(uses', (es + [e])[i].key) < LastUse(uses', (es + [e])[j].key) {
      assert es[i] in es;
      assert j < |es| ==> es[j] in es;
    }
  }

  datatype Outcome = Ok | NotOpen | NotFound | InvalidSize

  class Cache {
    const limits: Limits
    var isOpen: bool
    /** The map, in its insertion order. */
    var entries: seq<Entry>
    var sizes: map<string, real>
    var totalBytes: real
    /** The last value committed for each key, the size measured then, and when each key was last used. */
    ghost var written: map<string, Value>
    ghost var measures: map<string, real>
    ghost var uses: Uses
    ghost var now: nat

    ghost predicate Valid()
      reads this
    {
      && Sound()
      && (limits.maxEntries.Some? ==> |entries| <= limits.maxEntries.value)
      && (limits.maxBytes.Some? && |entries| > 1 ==> totalBytes <= limits.maxBytes.value)
      && (!isOpen ==> entries == [])
    }

    /** Everything but the limits. */
    ghost predicate Sound()
      reads this
    {
      && Booked(limits, entries, sizes, totalBytes)
      && (forall e | e in entries :: e.key in written && written[e.key] == e.value)
      && (forall k | k in sizes :: k in measures && measures[k] == sizes[k])
      && Recent(entries, uses, now)
    }

    constructor (limits: Limits)
      requires limits.maxBytes.Some? ==> limits.maxBytes.value >= 0.0
      ensures Valid() && this.limits == limits && !isOpen
    {
      this.limits, isOpen, entries, sizes, totalBytes := limits, false, [], map[], 0.0;
      written, measures, uses, now := map[], map[], map[], 0;
    }

    method Open()
      requires Valid()
      modifies this`isOpen
      ensures Valid() && isOpen
    {
      isOpen := true;
    }

    method Close()
      requires Valid()
      modifies this`isOpen, this`entries, this`sizes, this`totalBytes
      ensures Valid() && !isOpen && entries == [] && totalBytes == 0.0
    {
      Clear();
      isOpen := false;
    }

    method Clear()
      modifies this`entries, this`sizes, this`totalBytes
      ensures entries == [] && sizes == map[] && totalBytes == 0.0
    {
      entries, sizes, totalBytes := [], map[], 0.0;
    }

    /** `#removeEntry` */
    method RemoveEntry(key: string)
      requires Sound()
      modifies this`entries, this`sizes, this`totalBytes
      ensures Sound()
      ensures entries == Without(old(entries), key) && sizes == old(sizes) - {key} && totalBytes == old(totalBytes) - SizeIn(old(sizes), key)
    {
      hide Booked, Recent, Without;
      OnlyFewer(entries, key);
      RemovalBooked(limits, entries, sizes, totalBytes, key);
      RecentWithout(entries, uses, now, key);
      if key in sizes {
        totalBytes := totalBytes - sizes[key];
        sizes := sizes - {key};
      } else {
        assert sizes - {key} == sizes;
      }
      entries := Without(entries, key);
    }

    /** `#touch` */
    method Touch(e: Entry)
      requires Valid() && e in entries
      modifies this`entries, this`uses, this`now
      ensures Valid() && entries == Without(old(entries), e.key) + [e]
    {
      hide Booked, Recent, HasKey;
      TouchBooked(limits, entries, sizes, totalBytes, e);
      RecentWithout(entries, uses, now, e.key);
      GoneWithout(entries, e.key);
      RecentAppend(Without(entries, e.key), uses, now, e);
      entries := Without(entries, e.key) + [e];
      uses, now := uses[e.key := now], now + 1;
    }

    /** `read` */
    method Read(key: string) returns (r: Outcome, value: Option<Value>)
      requires Valid()
      modifies this`entries, this`uses, this`now
      ensures Valid()
      ensures r == if !isOpen then NotOpen else if HasKey(old(entries), key) then Ok else NotFound
      // The value is the last one committed for the key; the entry becomes the most recent one.
      ensures r.Ok? ==> key in written && value == Some(written[key]) && entries == Without(old(entries), key) + [Entry(key, written[key])]
      ensures !r.Ok? ==> value.None? && entries == old(entries)
    {
      if !isOpen { return NotOpen, None; }
      if !HasKey(entries, key) { return NotFound, None; }
      var e :| e in entries && e.key == key;
      Touch(e);
      return Ok, Some(e.value);
    }

    method Exists(key: string) returns (r: Outcome, found: bool)
      requires Valid()
      ensures r == if isOpen then Ok else NotOpen
      ensures found <==> isOpen && HasKey(entries, key)
    {
      if !isOpen { return NotOpen, false; }
      return Ok, HasKey(entries, key);
    }

    /** `delete` */
    method Delete(key: string) returns (r: Outcome)
      requires Valid()
      modifies this`entries, this`sizes, this`totalBytes
      ensures Valid()
      ensures r == if !isOpen then NotOpen else if HasKey(old(entries), key) then Ok else NotFound
      ensures entries == if r.Ok? then Without(old(entries), key) else old(entries)
    {
      if !isOpen { return NotOpen; }
      if !HasKey(entries, key) { return NotFound; }
      OneLess(entries, key);
      ghost var one := |entries| <= 1;
      SizesPositive(limits, entries, sizes, totalBytes, key);
      RemoveEntry(key);
      return Ok;
    }

    /** `write`: `#commit` of a value of the measured size. */
    method Commit(key: string, value: Value, measured: Measured) returns (r: Outcome)
      requires Valid()
      modifies this`entries, this`sizes, this`totalBytes, this`written, this`measures, this`uses, this`now
      ensures Valid()
      ensures r.NotOpen? <==> !isOpen
      ensures r.InvalidSize? <==> isOpen && limits.maxBytes.Some? && !measured.Valid()
      // A rejected write changes nothing.
      ensures !r.Ok? ==> entries == old(entries) && sizes == old(sizes) && totalBytes == old(totalBytes) && written == old(written) && measures == old(measures)
      // Otherwise the limits decide how much of the past stays beside the new entry.
      ensures r.Ok? ==> written == old(written)[key := value]
      // Every entry that stays is booked with the size measured when it was committed.
      ensures r.Ok? ==> measures == if limits.maxBytes.Some? then old(measures)[key := measured.bytes] else old(measures)
      ensures r.Ok? && limits.maxBytes.Some? ==>
                forall e | e in entries :: e.key in sizes && sizes[e.key] == if e.key == key then measured.bytes else SizeIn(old(sizes), e.key)
      ensures r.Ok? ==>
                IsKept(limits, Without(old(entries), key) + [Entry(key, value)],
                       if limits.maxBytes.Some? then (old(sizes) - {key})[key := measured.bytes] else old(sizes), entries)
    {
      hide Recent, Booked, HasKey, KeepsFrom;
      if !isOpen { return NotOpen; }
      GoneWithout(entries, key);
      ShorterWithout(entries, key);
      if limits.maxBytes.Some? {
        if !measured.Valid() { return InvalidSize; }
        if HasKey(entries, key) { RemoveEntry(key); } else { NothingToRemove(limits, entries, sizes, totalBytes, key); }
        Append(key, value, measured.bytes);
      } else {
        NoSizesKept(limits, entries, sizes, totalBytes, key);
        if HasKey(entries, key) { RemoveEntry(key); }
        Append(key, value, 0.0);
      }
      EvictIfNeeded(key);
      if limits.maxBytes.Some? { AllSized(limits, entries, sizes, totalBytes); }
      return Ok;
    }

    /** `map.set` of a key that is not there, and its size. */
    method Append(key: string, value: Value, bytes: real)
      requires Sound() && !HasKey(entries, key) && bytes >= 0.0
      modifies this`entries, this`sizes, this`totalBytes, this`written, this`measures, this`uses, this`now
      ensures Sound() && entries == old(entries) + [Entry(key, value)] && written == old(written)[key := value]
      ensures sizes == if limits.maxBytes.Some? then old(sizes)[key := bytes] else old(sizes)
      ensures measures == if limits.maxBytes.Some? then old(measures)[key := bytes] else old(measures)
    {
      hide Recent, Booked;
      var e := Entry(key, value);
      AdditionBooked(limits, entries, sizes, totalBytes, e, bytes);
      RecentAppend(entries, uses, now, e);
      entries := entries + [e];
      if limits.maxBytes.Some? {
        sizes, totalBytes, measures := sizes[key := bytes], totalBytes + bytes, measures[key := bytes];
      }
      written, uses, now := written[key := value], uses[key := now], now + 1;
    }

    method EvictOldest(ghost all: seq<Entry>, ghost allSizes: map<string, real>, ghost k: nat) returns (ghost k': nat)
      requires Sound() && Evicted(limits, all, allSizes, k, entries, sizes) && |entries| > 1
      requires (limits.maxEntries.Some? && |entries| > limits.maxEntries.value) || (limits.maxBytes.Some? && totalBytes > limits.maxBytes.value)
      modifies this`entries, this`sizes, this`totalBytes
      ensures Sound() && k' == k + 1 && Evicted(limits, all, allSizes, k', entries, sizes) && |entries| == |old(entries)| - 1
    {
      hide Recent, Booked, Evicted;
      OneEvicted(limits, all, allSizes, k, entries, sizes, totalBytes);
      RemoveEntry(entries[0].key);
      k' := k + 1;
    }

    /** `#evictIfNeeded` */
    method EvictIfNeeded(justWritten: string)
      requires Sound() && entries != [] && entries[|entries| - 1].key == justWritten
      requires limits.maxEntries.Some? ==> |entries| <= limits.maxEntries.value + 1
      modifies this`entries, this`sizes, this`totalBytes
      ensures Sound()
      ensures IsKept(limits, old(entries), old(sizes), entries)
      ensures forall e | e in entries :: e in old(entries) && SizeIn(sizes, e.key) == SizeIn(old(sizes), e.key)
      ensures limits.maxEntries.Some? ==> |entries| <= limits.maxEntries.value
      ensures limits.maxBytes.Some? && |entries| > 1 ==> totalBytes <= limits.maxBytes.value
    {
      hide Recent, Booked, HasKey, Evicted;
      ghost var all, allSizes, k: nat := entries, sizes, 0;
      NothingEvicted(limits, all, sizes);
      if limits.maxEntries.Some? {
        if limits.maxEntries.value == 0 {
          OnlyOne(all, justWritten);
          RemoveEntry(justWritten);
          return;
        }
        while |entries| > limits.maxEntries.value
          invariant Sound() && Evicted(limits, all, allSizes, k, entries, sizes)
          decreases |entries|
        {
          k := EvictOldest(all, allSizes, k);
        }
      }
      if limits.maxBytes.Some? {
        while totalBytes > limits.maxBytes.value
          invariant Sound() && Evicted(limits, all, allSizes, k, entries, sizes)
          invariant limits.maxEntries.Some? ==> |entries| <= limits.maxEntries.value
          decreases |entries|
        {
          EvictedLast(limits, all, allSizes, k, entries, sizes);
          if entries[0].key == justWritten {
            OldestIsNewest(limits, entries, sizes, totalBytes);
            break;
          }
          k := EvictOldest(all, allSizes, k);
        }
      }
      EvictedEnough(limits, all, allSizes, k, entries, sizes, totalBytes);
      EvictedSpares(limits, all, allSizes, k, entries, sizes);
    }
  }

  lemma OnlyFewer(es: seq<Entry>, key: string)
    ensures forall e | e in Without(es, key) :: e in es
  {
  }

  lemma GoneWithout(es: seq<Entry>, key: string)
    ensures !HasKey(Without(es, key), key)
  {
  }

  lemma {:induction false} Nonnegative(es: seq<Entry>, sizes: map<string, real>)
    requires forall k | k in sizes :: sizes[k] >= 0.0
    ensures TotalSize(es, sizes) >= 0.0
  {
    if es != [] {
      Nonnegative(es[1..], sizes);
    }
  }

  lemma SizesPositive(limits: Limits, es: seq<Entry>, sizes: map<string, real>, total: real, key: string)
    requires Booked(limits, es, sizes, total)
    ensures total >= 0.0 && SizeIn(sizes, key) >= 0.0
  {
    Nonnegative(es, sizes);
  }

  /** The first `k` of `all` have been evicted, each because what was left broke a limit. */
  ghost predicate Evicted(limits: Limits, all: seq<Entry>, allSizes: map<string, real>, k: nat, es: seq<Entry>, sizes: map<string, real>) {
    && k < |all| && es == all[k..]
    && (forall e | e in es :: SizeIn(sizes, e.key) == SizeIn(allSizes, e.key))
    && forall j | 0 <= j < k :: !Meets(limits, all[j..], allSizes)
  }

  lemma OneEvicted(limits: Limits, all: seq<Entry>, allSizes: map<string, real>, k: nat, es: seq<Entry>, sizes: map<string, real>, total: real)
    requires Evicted(limits, all, allSizes, k, es, sizes) && Booked(limits, es, sizes, total) && |es| > 1
    requires (limits.maxEntries.Some? && |es| > limits.maxEntries.value) || (limits.maxBytes.Some? && total > limits.maxBytes.value)
    ensures Evicted(limits, all, allSizes, k + 1, Without(es, es[0].key), sizes - {es[0].key})
    ensures |Without(es, es[0].key)| == |es| - 1
  {
    hide HasKey, DistinctKeys, TotalSize, Without, Meets;
    BookedDistinct(limits, es, sizes, total);
    FirstWithout(es);
    OthersDiffer(es);
    TooMuch(limits, es, sizes, allSizes, total);
    var es', sizes' := es[1..], sizes - {es[0].key};
    assert es' == all[k + 1..];
    forall e | e in es' ensures SizeIn(sizes', e.key) == SizeIn(allSizes, e.key) {
      assert e in es;
    }
  }

  lemma TooMuch(limits: Limits, es: seq<Entry>, sizes: map<string, real>, allSizes: map<string, real>, total: real)
    requires total == TotalSize(es, sizes) && forall e | e in es :: SizeIn(sizes, e.key) == SizeIn(allSizes, e.key)
    requires (limits.maxEntries.Some? && |es| > limits.maxEntries.value) || (limits.maxBytes.Some? && total > limits.maxBytes.value)
    ensures !Meets(limits, es, allSizes)
  {
    SameSizes(es, sizes, allSizes);
  }

  lemma BookedDistinct(limits: Limits, es: seq<Entry>, sizes: map<string, real>, total: real)
    requires Booked(limits, es, sizes, total)
    ensures DistinctKeys(es) && total == TotalSize(es, sizes)
  {
  }

  lemma OthersDiffer(es: seq<Entry>)
    requires DistinctKeys(es) && es != []
    ensures forall e | e in es[1..] :: e.key != es[0].key
  {
    FirstIsAlone(es);
  }

  lemma NothingEvicted(limits: Limits, all: seq<Entry>, sizes: map<string, real>)
    requires all != []
    ensures Evicted(limits, all, sizes, 0, all, sizes)
  {
  }

  lemma EvictedLast(limits: Limits, all: seq<Entry>, allSizes: map<string, real>, k: nat, es: seq<Entry>, sizes: map<string, real>)
    requires Evicted(limits, all, allSizes, k, es, sizes)
    ensures es != [] && es[|es| - 1] == all[|all| - 1]
  {
  }

  lemma EvictedSpares(limits: Limits, all: seq<Entry>, allSizes: map<string, real>, k: nat, es: seq<Entry>, sizes: map<string, real>)
    requires Evicted(limits, all, allSizes, k, es, sizes)
    ensures forall e | e in es :: e in all && SizeIn(sizes, e.key) == SizeIn(allSizes, e.key)
  {
  }

  lemma AllSized(limits: Limits, es: seq<Entry>, sizes: map<string, real>, total: real)
    requires Booked(limits, es, sizes, total) && limits.maxBytes.Some?
    ensures forall e | e in es :: e.key in sizes
  {
  }

  lemma OldestIsNewest(limits: Limits, es: seq<Entry>, sizes: map<string, real>, total: real)
    requires Booked(limits, es, sizes, total) && es != [] && es[0].key == es[|es| - 1].key
    ensures |es| == 1
  {
  }

  lemma OnlyOne(all: seq<Entry>, key: string)
    requires all != [] ==> |all| == 1 && all[0].key == key
    ensures Without(all, key) == []
  {
  }

  /** Eviction stops when both limits are met, or only the newest entry is left. */
  lemma EvictedEnough(limits: Limits, all: seq<Entry>, allSizes: map<string, real>, k: nat, es: seq<Entry>, sizes: map<string, real>, total: real)
    requires Evicted(limits, all, allSizes, k, es, sizes) && Booked(limits, es, sizes, total) && limits.maxEntries != Some(0)
    requires limits.maxEntries.Some? ==> |es| <= limits.maxEntries.value
    requires limits.maxBytes.Some? && |es| > 1 ==> total <= limits.maxBytes.value
    ensures IsKept(limits, all, allSizes, es)
  {
    SameSizes(es, sizes, allSizes);
    assert KeepsFrom(limits, all, allSizes, k);
  }

  lemma NothingToRemove(limits: Limits, es: seq<Entry>, sizes: map<string, real>, total: real, key: string)
    requires Booked(limits, es, sizes, total) && !HasKey(es, key)
    ensures sizes - {key} == sizes && Without(es, key) == es
  {
  }

  lemma NoSizesKept(limits: Limits, es: seq<Entry>, sizes: map<string, real>, total: real, key: string)
    requires Booked(limits, es, sizes, total) && limits.maxBytes.None?
    ensures sizes - {key} == sizes
  {
  }
}