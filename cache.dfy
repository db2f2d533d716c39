/** helpers/cache.js: the process-wide `ApplicationCache`, three independent
    maps that the handlers and the router update in place. */
module Cache {
  import opened Base

  /** A snapshot of the three maps. */
  datatype CacheMaps = CacheMaps(
    cache: map<string, Body>,
    context: map<string, string>,
    publicContext: map<string, string>)

  class ApplicationCache {
    /** Built artifacts and files served in development, by path. */
    var cache: map<string, Body>
    /** Per-request context written by middleware. */
    var context: map<string, string>
    /** Context injected into rendered pages. */
    var publicContext: map<string, string>

    function Snapshot(): CacheMaps
      reads this
    {
      CacheMaps(cache, context, publicContext)
    }

    /** The maps at module load: `cache` and `publicContext` empty, `context`
        the page's `window.ApplicationContext` when that is defined. */
    constructor (windowContext: Option<map<string, string>>)
      ensures cache == map[]
      ensures publicContext == map[]
      ensures context == (match windowContext case Some(c) => c case None => map[])
    {
      cache := map[];
      context := match windowContext case Some(c) => c case None => map[];
      publicContext := map[];
    }
  }
}
