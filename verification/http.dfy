/** The boundary of the HTTP module the routers are written against: request
    methods, the request fields a router reads or writes, and the plain
    status-and-phrase responses the routers build themselves. Everything else
    about requests and responses is opaque to the routers. */
module Http {
  import opened Options

  /** The request methods of the HTTP module. */
  datatype Method = GET | HEAD | POST | PUT | PATCH | DELETE | OPTIONS | TRACE | CONNECT

  /** The five methods an `any` registration answers. */
  const CommonMethods: set<Method> := {GET, POST, PUT, PATCH, DELETE}

  /** A request as a router sees it: its method (`verb`, since `method` is a keyword), its URI path (absent when the
      URI has none) and the path parameters bound so far. */
  datatype Request = Request(verb: Method, path: Option<string>, parameters: map<string, string>)

  /** A response built from a status code and its reason phrase. */
  datatype Response = Response(statusCode: int, reasonPhrase: string)

  const NotFound := Response(404, "Not Found")
  const MethodNotAllowed := Response(405, "Method Not Allowed")
}
