/**
 * The endpoint descriptor `HttpResource`: an immutable record of schema, host,
 * optional port and path, and the URI it stands for, shaped as
 * `scheme "://" authority path` (section 3 of RFC 3986).
 */
module Resource {
  import opened Base

  /** `schema` should be "http" or "https"; `path` may carry a query string. Nothing is validated. */
  datatype HttpResource = HttpResource(schema: string, host: string, port: Option<string>, path: string)

  /** The initializer: stores every argument unchanged; the port defaults to none and the path to "". */
  function Init(schema: string, host: string, port: Option<string> := None, path: string := ""): (r: HttpResource)
    ensures r.schema == schema && r.host == host && r.port == port && r.path == path
  {
    HttpResource(schema, host, port, path)
  }

  /** Length of the leading `schema "://" host` part of the URI. */
  function PrefixLength(r: HttpResource): nat
  {
    |r.schema| + 3 + |r.host|
  }

  /**
   * The computed `uri`: `schema "://" host`, then `":" port` when a port is
   * given, then the path. The contract reads the URI back into its parts.
   */
  function Uri(r: HttpResource): (u: string)
    ensures r.port.None? ==> |u| == PrefixLength(r) + |r.path|
    ensures r.port.Some? ==> |u| == PrefixLength(r) + 1 + |r.port.value| + |r.path|
    ensures u[..PrefixLength(r)] == r.schema + "://" + r.host
    ensures u[|u| - |r.path|..] == r.path
    ensures r.port.Some? ==> u[PrefixLength(r)] == ':'
    ensures r.port.Some? ==> u[PrefixLength(r) + 1..|u| - |r.path|] == r.port.value
  {
    var value := r.schema + "://" + r.host;
    var withPort := if r.port.Some? then value + ":" + r.port.value else value;
    withPort + r.path
  }

  /** `resourceByAddingPathComponent`: a new resource whose path has `component` appended verbatim. */
  function AddingPathComponent(r: HttpResource, component: string): (s: HttpResource)
    ensures s.schema == r.schema && s.host == r.host && s.port == r.port
    ensures s.path == r.path + component
  {
    Init(r.schema, r.host, r.port, r.path + component)
  }

  /** With no port, the URI is exactly schema, "://", host and path. */
  lemma UriWithoutPort(r: HttpResource)
    requires r.port.None?
    ensures Uri(r) == r.schema + "://" + r.host + r.path
  {
  }

  /** With a port, the URI is schema, "://", host, ":", port and path. */
  lemma UriWithPort(r: HttpResource)
    requires r.port.Some?
    ensures Uri(r) == r.schema + "://" + r.host + ":" + r.port.value + r.path
  {
  }

  /** The URI of a resource always begins with its schema, "://" and host. */
  lemma UriStartsWithAuthority(r: HttpResource)
    ensures |r.schema + "://" + r.host| <= |Uri(r)|
    ensures Uri(r)[..|r.schema + "://" + r.host|] == r.schema + "://" + r.host
  {
  }

  /** Appending a path component appends it to the URI as well. */
  lemma AddingPathComponentExtendsUri(r: HttpResource, component: string)
    ensures Uri(AddingPathComponent(r, component)) == Uri(r) + component
  {
  }

  /** Appending nothing gives back the same resource. */
  lemma AddingEmptyComponent(r: HttpResource)
    ensures AddingPathComponent(r, "") == r
  {
  }

  /** Appending `a` then `b` is appending `a + b`: no separator is inserted or normalised. */
  lemma AddingTwoComponents(r: HttpResource, a: string, b: string)
    ensures AddingPathComponent(AddingPathComponent(r, a), b) == AddingPathComponent(r, a + b)
  {
  }

  /** The initializer with only a schema and a host leaves the port out and the path empty. */
  lemma InitDefaults(schema: string, host: string)
    ensures Init(schema, host).port.None? && Init(schema, host).path == ""
    ensures Uri(Init(schema, host)) == schema + "://" + host
  {
  }

  /** The full-URI example: https, httpbin.org, port 443, with "/a?e=f&g=h" appended. */
  lemma FullUriExample()
    ensures Uri(AddingPathComponent(Init("https", "httpbin.org", Some("443")), "/a?e=f&g=h"))
         == "https://httpbin.org:443/a?e=f&g=h"
  {
  }

  /** Appending "/component" to a resource with an empty path gives the path "/component". */
  lemma AddingComponentExample()
    ensures AddingPathComponent(Init("https", "httpbin.org", Some("443")), "/component")
         == Init("https", "httpbin.org", Some("443"), "/component")
  {
  }
}
