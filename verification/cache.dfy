/**
 * backend/utils/cache.py: a namespaced key/value store with a time-to-live,
 * kept as one JSON file per key. The directory is a map from file name to
 * entry; the clock is the `now` parameter, in seconds; md5 is the opaque
 * `digest` function.
 */
module Cache {
  import opened Wrappers
  import Text
  import Sorting

  /** A cache file: a readable record, or one whose JSON or timestamp fails to parse. */
  datatype Entry<V> = Stored(cachedAt: int, value: V) | Unreadable

  /** `_path`: keys longer than 80 characters are replaced by their digest. */
  function SafeKey(digest: string -> string, key: string): string
  {
    if |key| > 80 then digest(key) else key
  }

  /** Short keys name their own file, so two distinct short keys never share one. */
  lemma SafeKeyShortInjective(digest: string -> string, a: string, b: string)
    requires |a| <= 80 && |b| <= 80
    ensures SafeKey(digest, a) == SafeKey(digest, b) <==> a == b
  {
  }

  // ---------------------------------------------------------------------------
  // The store operations on the directory

  type Files<V> = map<string, Entry<V>>

  /**
   * `get` on the file `name`: the value and the directory afterwards. A
   * missing or unreadable file is a miss; a record older than `ttl` is a
   * miss and its file is deleted; anything else is a hit.
   */
  function Lookup<V>(files: Files<V>, name: string, now: int, ttl: int): (Option<V>, Files<V>)
  {
    if name !in files then (None, files)
    else match files[name]
      case Unreadable => (None, files)
      case Stored(cachedAt, value) =>
        if now - cachedAt > ttl then (None, files - {name}) else (Some(value), files)
  }

  /** `set`: the file `name` now holds `value` stamped with `now`. */
  function Put<V>(files: Files<V>, name: string, now: int, value: V): Files<V>
  {
    files[name := Stored(now, value)]
  }

  /**
   * A lookup never adds or rewrites a file: it leaves the directory as it was
   * or removes exactly the file it read, and only when that file had expired.
   */
  lemma LookupChangesAtMostItsFile<V>(files: Files<V>, name: string, now: int, ttl: int)
    ensures var (r, after) := Lookup(files, name, now, ttl);
            && (after == files || (name in files && files[name].Stored? && now - files[name].cachedAt > ttl
                                   && after == files - {name}))
            && (r.Some? <==> name in files && files[name].Stored? && now - files[name].cachedAt <= ttl)
            && (r.Some? ==> r.value == files[name].value && after == files)
  {
  }

  /** A value set at time t is read back unchanged at every time up to t + ttl, and is gone after. */
  lemma SetThenGet<V>(files: Files<V>, name: string, t: int, value: V, now: int, ttl: int)
    ensures var stored := Put(files, name, t, value);
            && (now - t <= ttl ==> Lookup(stored, name, now, ttl) == (Some(value), stored))
            && (now - t > ttl ==> Lookup(stored, name, now, ttl) == (None, files - {name}))
  {
    var stored := Put(files, name, t, value);
    if now - t > ttl {
      assert stored - {name} == files - {name};
    }
  }

  /** Setting or reading one file leaves every other file as it was. */
  lemma OtherFilesUntouched<V>(files: Files<V>, name: string, other: string, now: int, ttl: int, value: V)
    requires other != name
    ensures other in Put(files, name, now, value) <==> other in files
    ensures other in files ==> Put(files, name, now, value)[other] == files[other]
    ensures var after := Lookup(files, name, now, ttl).1;
            (other in after <==> other in files) && (other in files ==> after[other] == files[other])
  {
  }

  /** Reading twice at the same time gives the same answer and the same directory. */
  lemma LookupIdempotent<V>(files: Files<V>, name: string, now: int, ttl: int)
    ensures var (r, after) := Lookup(files, name, now, ttl);
            Lookup(after, name, now, ttl) == (r, after)
  {
  }

  /** `clear`: a truthy key deletes its own file only; None or "" deletes every file. */
  function Cleared<V>(files: Files<V>, digest: string -> string, key: Option<string>): (after: Files<V>)
    ensures key.Some? && key.value != "" ==>
              after.Keys == files.Keys - {SafeKey(digest, key.value)}
              && forall n :: n in after ==> after[n] == files[n]
    ensures key.None? || key.value == "" ==> after == map[]
  {
    if key.Some? && key.value != "" then files - {SafeKey(digest, key.value)} else map[]
  }

  // ---------------------------------------------------------------------------
  // The Cache object

  /** The `ttl_hours` a `Cache` gets when the caller names none: 30 days. */
  const DefaultTtlHours: nat := 720

  class Cache<V> {
    const ttl: int
    const digest: string -> string
    /** The `*.json` files of the namespace directory. */
    var files: Files<V>

    /**
     * A cache over an existing directory, with a time-to-live of `ttlHours`
     * hours (`DefaultTtlHours` unless given).
     */
    constructor(digest: string -> string, existing: Files<V>, ttlHours: nat := DefaultTtlHours)
      ensures ttl == ttlHours * 3600 && this.digest == digest && files == existing
    {
      ttl := ttlHours * 3600;
      this.digest := digest;
      files := existing;
    }
    function Path(key: string): string
    {
      SafeKey(digest, key)
    }

    method Get(key: string, now: int) returns (r: Option<V>)
      modifies this
      ensures (r, files) == Lookup(old(files), Path(key), now, ttl)
    {
      var name := SafeKey(digest, key);
      if name !in files {
        return None;
      }
      match files[name]
      case Unreadable =>
        return None;
      case Stored(cachedAt, value) =>
        if now - cachedAt > ttl {
          files := files - {name};
          return None;
        }
        return Some(value);
    }

    method Set(key: string, value: V, now: int)
      modifies this
      ensures files == Put(old(files), Path(key), now, value)
    {
      files := files[SafeKey(digest, key) := Stored(now, value)];
    }

    method Clear(key: Option<string>)
      modifies this
      ensures files == Cleared(old(files), digest, key)
    {
      if key.Some? && key.value != "" {
        var name := SafeKey(digest, key.value);
        if name in files {
          files := files - {name};
        }
      } else {
        files := map[];
      }
    }
  }

  // ---------------------------------------------------------------------------
  // make_cache_key

  /** Keyword arguments are ordered by name; names are distinct, as in a call's `**kwargs`. */
  predicate ByName(a: (string, string), b: (string, string))
  {
    Text.LexLeq(a.0, b.0)
  }

  function KeywordParts(kwargs: seq<(string, string)>): (parts: seq<string>)
    ensures |parts| == |kwargs|
  {
    seq(|kwargs|, k requires 0 <= k < |kwargs| => kwargs[k].0 + "=" + kwargs[k].1)
  }

  /** `make_cache_key`: the rendered positional arguments, then `k=v` by name, joined with "__". */
  function MakeCacheKey(args: seq<string>, kwargs: seq<(string, string)>): string
  {
    Text.Join(args + KeywordParts(Sorting.Sort(kwargs, ByName)), "__")
  }

  predicate DistinctNames(kwargs: seq<(string, string)>)
  {
    forall i, j :: 0 <= i < |kwargs| && 0 <= j < |kwargs| && kwargs[i].0 == kwargs[j].0 ==> i == j
  }

  lemma ByNameTotal()
    ensures Sorting.TotalPreorder(ByName)
  {
    forall a: (string, string), b: (string, string) ensures ByName(a, b) || ByName(b, a) {
      Text.LexLeqTotal(a.0, b.0);
    }
    forall a: (string, string), b: (string, string), c: (string, string) | ByName(a, b) && ByName(b, c)
      ensures ByName(a, c)
    {
      Text.LexLeqTransitive(a.0, b.0, c.0);
    }
  }

  /** The keyword parts of the key come in name order. */
  lemma KeywordsInNameOrder(kwargs: seq<(string, string)>)
    ensures Sorting.SortedBy(Sorting.Sort(kwargs, ByName), ByName)
    ensures multiset(Sorting.Sort(kwargs, ByName)) == multiset(kwargs)
  {
    ByNameTotal();
    Sorting.SortSorted(kwargs, ByName);
  }

  /** The key does not depend on the order in which keyword arguments are passed. */
  lemma MakeCacheKeyOrderFree(args: seq<string>, kw1: seq<(string, string)>, kw2: seq<(string, string)>)
    requires multiset(kw1) == multiset(kw2)
    requires DistinctNames(kw1)
    ensures MakeCacheKey(args, kw1) == MakeCacheKey(args, kw2)
  {
    var s1, s2 := Sorting.Sort(kw1, ByName), Sorting.Sort(kw2, ByName);
    KeywordsInNameOrder(kw1);
    KeywordsInNameOrder(kw2);
    forall x, y | x in s1 && y in s1 && ByName(x, y) && ByName(y, x) ensures x == y {
      assert x in multiset(kw1) && y in multiset(kw1);
      var i :| 0 <= i < |kw1| && kw1[i] == x;
      var j :| 0 <= j < |kw1| && kw1[j] == y;
      Text.LexLeqAntisymmetric(x.0, y.0);
    }
    Sorting.SortedUnique(s1, s2, ByName);
  }
}
