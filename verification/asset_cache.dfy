/**
 * The asset cache as the directory index sees it: a no-I/O lookup of what
 * is already cached (`load_cached`) and a load-or-retrieve call (`load`)
 * whose decoding is not part of this model.
 */
module AssetCaches {
  import opened Wrappers

  datatype AssetCache<V, E> = AssetCache(cached: map<string, V>, load: string -> Result<V, E>)

  /** A well-behaved cache: loading an identifier that is cached yields its cached value. */
  ghost predicate Coherent<V, E>(c: AssetCache<V, E>)
  {
    forall id :: id in c.cached ==> c.load(id) == Ok(c.cached[id])
  }
}
