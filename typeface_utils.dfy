/**
 * `TypefaceUtils.load`: a process-wide memo of loaded fonts keyed by asset
 * path. A failed load is remembered as `null`, so it is never retried.
 */
module TypefaceUtils {
  import opened JavaLib
  import opened Android

  /** A cache of loaded fonts: path to typeface, `None` recording a failed load. */
  type FontCache = map<JString, Option<Typeface>>

  /** What `load(assets, p)` answers on `cache`: the cached entry, else the asset loader's. */
  function Lookup(cache: FontCache, assets: JString -> Option<Typeface>, p: JString): Option<Typeface> {
    if p in cache then cache[p] else assets(p)
  }

  /** The cache after `load(assets, p)`: an entry for `p` is added when there was none. */
  function Remember(cache: FontCache, assets: JString -> Option<Typeface>, p: JString): FontCache {
    if p in cache then cache else cache[p := assets(p)]
  }

  /**
   * `after` is `before` with entries added, each one what the loader gives for
   * its key: no entry is removed or changed.
   */
  ghost predicate Extends(before: FontCache, after: FontCache, assets: JString -> Option<Typeface>) {
    && before.Keys <= after.Keys
    && (forall k :: k in before ==> after[k] == before[k])
    && (forall k :: k in after && k !in before ==> after[k] == assets(k))
  }

  /** The static `sCachedFonts` map and the `load` operation on it. */
  class TypefaceCache {
    var cachedFonts: FontCache

    constructor ()
      ensures cachedFonts == map[]
    {
      cachedFonts := map[];
    }

    /**
     * Returns the cached typeface for `filePath`, loading and remembering it on
     * a miss; a loader exception stores and returns `null`.
     */
    method Load(assets: JString -> Option<Typeface>, filePath: JString) returns (t: Option<Typeface>)
      modifies this
      ensures t == Lookup(old(cachedFonts), assets, filePath)
      ensures cachedFonts == Remember(old(cachedFonts), assets, filePath)
      ensures filePath in cachedFonts && cachedFonts[filePath] == t
      ensures Extends(old(cachedFonts), cachedFonts, assets)
    {
      if filePath !in cachedFonts {
        var typeface := assets(filePath);
        if typeface.None? {
          cachedFonts := cachedFonts[filePath := None];
          return None;
        }
        cachedFonts := cachedFonts[filePath := typeface];
        return typeface;
      }
      t := cachedFonts[filePath];
    }
  }

  /** A second load of `p` answers the first answer, whatever the loader would now say. */
  lemma SecondLoadIsCached(cache: FontCache, assets: JString -> Option<Typeface>,
                           later: JString -> Option<Typeface>, p: JString)
    ensures Lookup(Remember(cache, assets, p), later, p) == Lookup(cache, assets, p)
    ensures Remember(Remember(cache, assets, p), later, p) == Remember(cache, assets, p)
  {
  }

  /** A failed load is remembered: later loads of `p` answer `null` without retrying. */
  lemma FailureIsRemembered(cache: FontCache, assets: JString -> Option<Typeface>,
                            later: JString -> Option<Typeface>, p: JString)
    requires Lookup(cache, assets, p).None?
    ensures Remember(cache, assets, p)[p] == None
    ensures Lookup(Remember(cache, assets, p), later, p) == None
  {
  }

  /** A load leaves every other key as it was, present or absent. */
  lemma LoadTouchesOnlyItsKey(cache: FontCache, assets: JString -> Option<Typeface>, p: JString, q: JString)
    requires q != p
    ensures q in Remember(cache, assets, p) <==> q in cache
    ensures q in cache ==> Remember(cache, assets, p)[q] == cache[q]
  {
  }

  /**
   * With one loader, memoisation is invisible: after any load, every path
   * answers what it answered before.
   */
  lemma CacheIsTransparent(before: FontCache, after: FontCache, assets: JString -> Option<Typeface>, q: JString)
    requires Extends(before, after, assets)
    ensures Lookup(after, assets, q) == Lookup(before, assets, q)
  {
  }

  /** Growth composes: a cache extended twice is extended once. */
  lemma ExtendsTransitive(a: FontCache, b: FontCache, c: FontCache, assets: JString -> Option<Typeface>)
    requires Extends(a, b, assets) && Extends(b, c, assets)
    ensures Extends(a, c, assets)
  {
  }
}
