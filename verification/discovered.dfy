/**
 * The application modules the autoloader hands to the servers component: route classes,
 * middleware classes and socket handler classes, as nested objects keyed by file or folder name.
 */
module Discovered {
  import opened Wrappers
  import opened JsValues

  /** An object's own properties in `for...in` order: each key with the module stored under it. */
  type Entries<T> = seq<(string, T)>

  /** A route class; only the router library looks inside it. */
  datatype RouteModule = RouteModule(url: Value, handlers: seq<string>)

  /** A middleware class: its static `priority` and static `onRequest`, whatever they hold. */
  datatype MiddlewareModule = MiddlewareModule(priority: Value, onRequest: Value)

  /** The export of a socket folder's `index.js`. */
  datatype SocketIndex = SocketIndex(onRequest: Value)

  /** A socket folder (`sockets/tcp`, `sockets/udp`, `sockets/http-websocket`); `index` may be absent. */
  datatype SocketModule = SocketModule(index: Option<SocketIndex>)

  /** `routes.httpRoutes.app`, or `None` when the routes folder gave `undefined`. */
  datatype RouteFolders = RouteFolders(httpRoutes: Option<Entries<RouteModule>>)

  /** `middlewares.app`: middleware folder name to the middlewares in it, or `None` when `app` is `undefined`. */
  datatype MiddlewareFolders = MiddlewareFolders(app: Option<map<string, Entries<MiddlewareModule>>>)

  /** `sockets.app`: socket folder name to its module, or `None` when `app` is `undefined`. */
  datatype SocketFolders = SocketFolders(app: Option<map<string, SocketModule>>)

  /** A property read on a plain object: `undefined` when the key is absent. */
  function Lookup<T>(m: map<string, T>, key: string): Option<T> {
    if key in m then Some(m[key]) else None
  }

  /**
   * The request handler of a socket folder, when it has one: the folder exists, has an `index`
   * export, and that export's `onRequest` is a function.
   */
  function SocketHandler(socket: Option<SocketModule>): Option<Value> {
    match socket
    case None => None
    case Some(folder) =>
      match folder.index
      case None => None
      case Some(index) => if index.onRequest.Func? then Some(index.onRequest) else None
  }
}
