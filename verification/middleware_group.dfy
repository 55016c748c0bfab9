/**
 * A named, reusable list of middleware. Routes and groups refer to it by name,
 * and the dispatcher reads its current contents when it resolves a route, so
 * entries appended after a reference was made still apply.
 */
module MiddlewareGroups {

  class MiddlewareGroup {
    var middlewares: seq<string>

    /** The list given at construction becomes the initial contents. */
    constructor (middlewares: seq<string>)
      ensures this.middlewares == middlewares
    {
      this.middlewares := middlewares;
    }

    /**
     * Appends a list of middleware; earlier entries stay and duplicates are kept.
     * Unlike the route and group builders, a single name is not wrapped: the
     * argument is always a list.
     */
    method Middleware(items: seq<string>)
      modifies this
      ensures middlewares == old(middlewares) + items
      ensures |middlewares| == |old(middlewares)| + |items|
    {
      middlewares := middlewares + items;
    }
  }
}
