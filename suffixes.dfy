/**
 * The product and category URL suffixes: a scoped configuration value read
 * through PHP truthiness and cached in a field of the job.
 */
module Suffixes {
  import opened Catalog

  /** PHP truthiness of a configuration value: null, '' and '0' are false. */
  predicate IsTruthy(v: Option<string>) {
    v.Some? && v.value != "" && v.value != "0"
  }

  /** `$urlSuffix ? $urlSuffix : ''`: a falsy value becomes the empty suffix. */
  function ResolveSuffix(v: Option<string>): (s: string)
    ensures s == "" <==> !IsTruthy(v)
    ensures IsTruthy(v) ==> s == v.value
    ensures s != "0"
  {
    if IsTruthy(v) then v.value else ""
  }

  /**
   * The cache field after one call of the getter, given the field before the
   * call and the value the scoped lookup returns.
   */
  function CacheAfter(cache: Option<string>, looked: Option<string>): (c: Option<string>)
    ensures c.Some? && (c.value == "" || IsTruthy(c))
    ensures IsTruthy(cache) ==> c == cache
    ensures !IsTruthy(cache) ==> c.value == ResolveSuffix(looked)
  {
    if IsTruthy(cache) then cache else Some(ResolveSuffix(looked))
  }

  /** What one call of the getter returns. */
  function SuffixReturned(cache: Option<string>, looked: Option<string>): (s: string)
    ensures IsTruthy(cache) ==> s == cache.value
    ensures !IsTruthy(cache) ==> (s == "" <==> !IsTruthy(looked))
    ensures !IsTruthy(cache) ==> s == ResolveSuffix(looked)
  {
    CacheAfter(cache, looked).value
  }

  /**
   * Once the field holds a non-empty suffix, every later call returns it and
   * leaves the field alone, whatever the lookup would now say.
   */
  lemma CachedSuffixSticks(cache: Option<string>, looked: Option<string>, later: Option<string>)
    requires CacheAfter(cache, looked).value != ""
    ensures var c := CacheAfter(cache, looked);
      CacheAfter(c, later) == c && SuffixReturned(c, later) == SuffixReturned(cache, looked)
  {
  }

  /** With a stable lookup, a second call returns what the first did and changes nothing more. */
  lemma SuffixGetterIdempotent(cache: Option<string>, looked: Option<string>)
    ensures var c := CacheAfter(cache, looked);
      CacheAfter(c, looked) == c && SuffixReturned(c, looked) == SuffixReturned(cache, looked)
  {
  }
}
