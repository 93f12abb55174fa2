/**
 * The request shaping and response adaptation shared by every Jersey-based registry
 * client: which path and query parameters each registry operation sends, and how the
 * server's reply becomes a response envelope (the server's status, its headers
 * flattened to first values, and an entity only under each operation's rule).
 *
 * The HTTP exchange itself is not modelled: an operation's reply is an input.
 */
module JerseyTransport {
  import opened Wrappers

  /** An instance status, by the name of its enum constant. */
  datatype InstanceStatus = InstanceStatus(name: string)

  /** The parts of an instance record that the client puts into requests. */
  datatype InstanceInfo = InstanceInfo(appName: string, id: string, status: InstanceStatus,
                                       lastDirtyTimestamp: int)

  /** The registry operations; a `None` region list stands for a null array. */
  datatype Operation =
    | Register(info: InstanceInfo)
    | Cancel(appName: string, id: string)
    | SendHeartBeat(appName: string, id: string, info: InstanceInfo, overriddenStatus: Option<InstanceStatus>)
    | StatusUpdate(appName: string, id: string, newStatus: InstanceStatus, info: InstanceInfo)
    | DeleteStatusOverride(appName: string, id: string, info: InstanceInfo)
    | GetApplications(regions: Option<seq<string>>)
    | GetDelta(regions: Option<seq<string>>)
    | GetVip(vipAddress: string, regions: Option<seq<string>>)
    | GetSecureVip(secureVipAddress: string, regions: Option<seq<string>>)
    | GetApplication(appName: string)
    | GetInstanceById(id: string)
    | GetInstance(appName: string, id: string)

  /** The operations that read the registry and answer with a body on success. */
  predicate IsFetch(op: Operation) {
    op.GetApplications? || op.GetDelta? || op.GetVip? || op.GetSecureVip? ||
    op.GetApplication? || op.GetInstanceById? || op.GetInstance?
  }

  datatype HttpMethod = Post | Put | Delete | Get

  /**
   * A query value: literal text, the decimal form of a number, or the regions joined
   * by the repository's string-join helper (whose separator is not part of this model).
   */
  datatype QueryValue = Text(text: string) | DecimalOf(n: int) | JoinOf(parts: seq<string>)

  datatype QueryParam = QueryParam(name: string, value: QueryValue)

  /** What the client sends, relative to its service URL; headers a subclass adds are not included. */
  datatype Request = Request(verb: HttpMethod, path: string, query: seq<QueryParam>,
                             headers: map<string, string>, body: Option<InstanceInfo>)

  /** The server's reply as Jersey exposes it; `None` headers stand for a null map. */
  datatype ClientResponse = ClientResponse(status: int, headers: Option<map<string, seq<string>>>,
                                           hasEntity: bool, mediaSubtype: string)

  /** The response envelope; `hasEntity` says whether a deserialised body is attached. */
  datatype EurekaHttpResponse = EurekaHttpResponse(statusCode: int, headers: map<string, string>,
                                                   hasEntity: bool)

  const HTML := "html"
  const STATUS_OK := 200
  const APPLICATION_JSON := "application/json"

  function InstancePath(appName: string, id: string): string {
    "apps/" + appName + "/" + id
  }

  /** The resource collection an operation addresses. */
  function Collection(op: Operation): string {
    if op.GetVip? then "vips/"
    else if op.GetSecureVip? then "svips/"
    else if op.GetInstanceById? then "instances/"
    else "apps/"
  }

  function UrlPath(op: Operation): (path: string)
    ensures Collection(op) <= path
    ensures op.StatusUpdate? || op.DeleteStatusOverride? ==>
      path == InstancePath(op.appName, op.id) + "/status"
    ensures op.Cancel? || op.SendHeartBeat? || op.GetInstance? ==> path == InstancePath(op.appName, op.id)
  {
    match op
    case Register(info) => "apps/" + info.appName
    case Cancel(appName, id) => InstancePath(appName, id)
    case SendHeartBeat(appName, id, _, _) => InstancePath(appName, id)
    case StatusUpdate(appName, id, _, _) => InstancePath(appName, id) + "/status"
    case DeleteStatusOverride(appName, id, _) => InstancePath(appName, id) + "/status"
    case GetApplications(_) => "apps/"
    case GetDelta(_) => "apps/delta"
    case GetVip(vipAddress, _) => "vips/" + vipAddress
    case GetSecureVip(secureVipAddress, _) => "svips/" + secureVipAddress
    case GetApplication(appName) => "apps/" + appName
    case GetInstanceById(id) => "instances/" + id
    case GetInstance(appName, id) => InstancePath(appName, id)
  }

  function RegionsQuery(regions: Option<seq<string>>): seq<QueryParam> {
    if regions.Some? && |regions.value| > 0 then [QueryParam("regions", JoinOf(regions.value))] else []
  }

  function Query(op: Operation): (q: seq<QueryParam>)
    ensures |q| <= 3
    ensures op.SendHeartBeat? || op.StatusUpdate? || op.DeleteStatusOverride? ==> |q| >= 1
    ensures op.Register? || op.Cancel? || op.GetApplication? || op.GetInstanceById? || op.GetInstance? ==>
      q == []
  {
    match op
    case SendHeartBeat(_, _, info, overriddenStatus) =>
      [QueryParam("status", Text(info.status.name)),
       QueryParam("lastDirtyTimestamp", DecimalOf(info.lastDirtyTimestamp))] +
      (if overriddenStatus.Some? then [QueryParam("overriddenstatus", Text(overriddenStatus.value.name))] else [])
    case StatusUpdate(_, _, newStatus, info) =>
      [QueryParam("value", Text(newStatus.name)),
       QueryParam("lastDirtyTimestamp", DecimalOf(info.lastDirtyTimestamp))]
    case DeleteStatusOverride(_, _, info) =>
      [QueryParam("lastDirtyTimestamp", DecimalOf(info.lastDirtyTimestamp))]
    case GetApplications(regions) => RegionsQuery(regions)
    case GetDelta(regions) => RegionsQuery(regions)
    case GetVip(_, regions) => RegionsQuery(regions)
    case GetSecureVip(_, regions) => RegionsQuery(regions)
    case _ => []
  }

  function Method(op: Operation): HttpMethod {
    match op
    case Register(_) => Post
    case Cancel(_, _) => Delete
    case SendHeartBeat(_, _, _, _) => Put
    case StatusUpdate(_, _, _, _) => Put
    case DeleteStatusOverride(_, _, _) => Delete
    case _ => Get
  }

  /** The request headers the shared code sets (registration posts JSON, fetches accept JSON). */
  function RequestHeaders(op: Operation): map<string, string> {
    if op.Register? then
      map["Accept-Encoding" := "gzip", "Content-Type" := APPLICATION_JSON, "Accept" := APPLICATION_JSON]
    else if IsFetch(op) then map["Accept" := APPLICATION_JSON]
    else map[]
  }

  function RequestOf(op: Operation): (r: Request)
    ensures r.body.Some? <==> op.Register?
    ensures r.verb == Get <==> IsFetch(op)
    ensures r.verb == Put <==> op.SendHeartBeat? || op.StatusUpdate?
    ensures "Accept" in r.headers <==> op.Register? || IsFetch(op)
    ensures r.path == UrlPath(op) && r.query == Query(op)
  {
    Request(Method(op), UrlPath(op), Query(op), RequestHeaders(op),
            if op.Register? then Some(op.info) else None)
  }

  /**
   * How the paths relate: the write operations on one instance share its instance
   * path (as does fetching it by application), the status operations append
   * "/status" to it, and registration posts to the application's path, which is
   * also where the application is fetched.
   */
  lemma PathFamilies(appName: string, id: string, info: InstanceInfo, status: InstanceStatus,
                     overriddenStatus: Option<InstanceStatus>, vip: string, rs: Option<seq<string>>)
    requires info.appName == appName
    ensures UrlPath(Cancel(appName, id)) == "apps/" + appName + "/" + id
    ensures UrlPath(SendHeartBeat(appName, id, info, overriddenStatus)) == UrlPath(Cancel(appName, id))
    ensures UrlPath(GetInstance(appName, id)) == UrlPath(Cancel(appName, id))
    ensures UrlPath(StatusUpdate(appName, id, status, info)) == UrlPath(Cancel(appName, id)) + "/status"
    ensures UrlPath(DeleteStatusOverride(appName, id, info)) == UrlPath(StatusUpdate(appName, id, status, info))
    ensures UrlPath(Register(info)) == UrlPath(GetApplication(appName)) == "apps/" + appName
    ensures UrlPath(GetInstanceById(id)) == "instances/" + id
    ensures UrlPath(GetVip(vip, rs)) == "vips/" + vip
    ensures UrlPath(GetSecureVip(vip, rs)) == "svips/" + vip
    ensures UrlPath(GetApplications(rs)) == "apps/" && UrlPath(GetDelta(rs)) == "apps/delta"
  {
  }

  function ParamNames(q: seq<QueryParam>): (names: seq<string>)
    ensures |names| == |q|
    ensures forall i :: 0 <= i < |q| ==> names[i] == q[i].name
  {
    seq(|q|, i requires 0 <= i < |q| => q[i].name)
  }

  /**
   * Which query parameters each operation sends: a heartbeat always sends the status
   * and the dirty timestamp and the overridden status exactly when one is given; a
   * status update sends the new value and the dirty timestamp; clearing an override
   * sends only the dirty timestamp; the registry fetches send "regions" exactly when
   * a non-empty region list is given; nothing else sends a query.
   */
  lemma QueryParameters(op: Operation)
    ensures op.SendHeartBeat? ==>
      ParamNames(Query(op)) == ["status", "lastDirtyTimestamp"] + (if op.overriddenStatus.Some? then ["overriddenstatus"] else [])
    ensures op.SendHeartBeat? ==> ("overriddenstatus" in ParamNames(Query(op)) <==> op.overriddenStatus.Some?)
    ensures op.StatusUpdate? ==> ParamNames(Query(op)) == ["value", "lastDirtyTimestamp"]
    ensures op.DeleteStatusOverride? ==> ParamNames(Query(op)) == ["lastDirtyTimestamp"]
    ensures op.GetApplications? || op.GetDelta? || op.GetVip? || op.GetSecureVip? ==>
      ("regions" in ParamNames(Query(op)) <==> op.regions.Some? && |op.regions.value| > 0)
    ensures op.Register? || op.Cancel? || op.GetApplication? || op.GetInstanceById? || op.GetInstance? ==>
      Query(op) == []
  {
    if op.SendHeartBeat? {
      var names := ParamNames(Query(op));
      if op.overriddenStatus.None? {
        assert names == ["status", "lastDirtyTimestamp"];
      } else {
        assert names == ["status", "lastDirtyTimestamp", "overriddenstatus"];
      }
    } else if op.GetApplications? || op.GetDelta? || op.GetVip? || op.GetSecureVip? {
      assert Query(op) == RegionsQuery(op.regions);
      if op.regions.Some? && |op.regions.value| > 0 {
        assert ParamNames(Query(op)) == ["regions"];
      } else {
        assert ParamNames(Query(op)) == [];
      }
    }
  }

  /** The index of the first '/' in `s`, or |s| when there is none. */
  function IndexOfSlash(s: string): (i: nat)
    ensures i <= |s|
    ensures i < |s| ==> s[i] == '/'
    ensures forall j :: 0 <= j < i ==> s[j] != '/'
    decreases |s|
  {
    if s == [] || s[0] == '/' then 0 else 1 + IndexOfSlash(s[1..])
  }

  /** Reads an application name and an instance id back out of an instance path. */
  function SplitInstancePath(path: string): Option<(string, string)> {
    if |path| >= 5 && path[..5] == "apps/" then
      var rest := path[5..];
      var i := IndexOfSlash(rest);
      if i < |rest| then Some((rest[..i], rest[i + 1..])) else None
    else None
  }

  /**
   * An instance path names its application and instance unambiguously when the
   * application name has no '/': splitting the path gives both back.
   */
  lemma InstancePathRoundTrip(appName: string, id: string)
    requires '/' !in appName
    ensures SplitInstancePath(InstancePath(appName, id)) == Some((appName, id))
  {
    var path := InstancePath(appName, id);
    var rest := path[5..];
    assert rest == appName + "/" + id;
    var i := IndexOfSlash(rest);
    assert rest[|appName|] == '/';
    assert forall j :: 0 <= j < |appName| ==> rest[j] == appName[j];
    assert i == |appName|;
    assert rest[..i] == appName;
    assert rest[i + 1..] == id;
  }

  /**
   * So two cancel, heartbeat or instance-fetch requests (for application names
   * without '/') go to the same path only when they target the same instance.
   */
  lemma InstancePathInjective(app1: string, id1: string, app2: string, id2: string)
    requires '/' !in app1 && '/' !in app2
    requires InstancePath(app1, id1) == InstancePath(app2, id2)
    ensures app1 == app2 && id1 == id2
  {
    InstancePathRoundTrip(app1, id1);
    InstancePathRoundTrip(app2, id2);
  }

  /**
   * Paths are not unique across operations: fetching the application named "delta"
   * sends the very request of a delta fetch without regions.
   */
  lemma ApplicationNamedDeltaIsDeltaFetch()
    ensures RequestOf(GetApplication("delta")) == RequestOf(GetDelta(None))
  {
  }

  /** Each header that has a value, mapped to its first value. */
  function FirstValues(headers: map<string, seq<string>>): (r: map<string, string>)
    ensures forall k :: k in r <==> k in headers && |headers[k]| > 0
    ensures forall k :: k in r ==> r[k] == headers[k][0]
  {
    map k | k in headers && |headers[k]| > 0 :: headers[k][0]
  }

  /** The headers an envelope carries for a reply with the given Jersey headers. */
  function HeadersView(headers: Option<map<string, seq<string>>>): map<string, string> {
    if headers.None? || |headers.value| == 0 then map[] else FirstValues(headers.value)
  }

  /** Single-valued headers come through unchanged. */
  lemma SingleValuedHeadersPreserved(headers: map<string, string>)
    ensures HeadersView(Some(map k | k in headers :: [headers[k]])) == headers
  {
  }

  /** The entity rule: which replies get a deserialised body in the envelope. */
  predicate EntityAccepted(op: Operation, response: ClientResponse) {
    if op.SendHeartBeat? then response.hasEntity && response.mediaSubtype != HTML
    else if IsFetch(op) then response.status == STATUS_OK && response.hasEntity
    else false
  }

  class JerseyClient {
    var destroyed: bool
  }

  class JerseyEurekaHttpClient {
    /** Shared with, and owned by, the factory that made this client. */
    const jerseyClient: JerseyClient
    const serviceUrl: string

    constructor (jerseyClient: JerseyClient, serviceUrl: string)
      ensures this.jerseyClient == jerseyClient && this.serviceUrl == serviceUrl
    {
      this.jerseyClient := jerseyClient;
      this.serviceUrl := serviceUrl;
    }

    /**
     * Flattens the reply's multi-valued headers: null or empty gives the empty map,
     * otherwise each key with at least one value maps to its first value.
     */
    static method HeadersOf(response: ClientResponse) returns (headers: map<string, string>)
      ensures headers == HeadersView(response.headers)
      ensures response.headers.None? ==> headers == map[]
      ensures response.headers.Some? ==>
        forall k :: k in headers <==> k in response.headers.value && |response.headers.value[k]| > 0
      ensures response.headers.Some? ==>
        forall k :: k in headers ==> headers[k] == response.headers.value[k][0]
    {
      if response.headers.None? || |response.headers.value| == 0 {
        return map[];
      }
      var jerseyHeaders := response.headers.value;
      headers := map[];
      var entries := jerseyHeaders.Keys;
      while entries != {}
        invariant entries <= jerseyHeaders.Keys
        invariant forall k :: k in headers <==>
          k in jerseyHeaders && k !in entries && |jerseyHeaders[k]| > 0
        invariant forall k :: k in headers ==> headers[k] == jerseyHeaders[k][0]
        decreases entries
      {
        var key :| key in entries;
        if |jerseyHeaders[key]| > 0 {
          headers := headers[key := jerseyHeaders[key][0]];
        }
        entries := entries - {key};
      }
    }

    /**
     * One registry operation against a server that replied with `response`: the
     * request sent and the envelope returned. The envelope always carries the
     * server's status, whatever it is, and never fails.
     */
    method Execute(op: Operation, response: ClientResponse) returns (request: Request, envelope: EurekaHttpResponse)
      ensures request == RequestOf(op)
      ensures envelope.statusCode == response.status
      ensures envelope.headers == HeadersView(response.headers)
      ensures op.SendHeartBeat? ==>
        (envelope.hasEntity <==> response.hasEntity && response.mediaSubtype != HTML)
      ensures IsFetch(op) ==> (envelope.hasEntity <==> response.status == STATUS_OK && response.hasEntity)
      ensures !op.SendHeartBeat? && !IsFetch(op) ==> !envelope.hasEntity
      ensures envelope.hasEntity <==> EntityAccepted(op, response)
    {
      request := RequestOf(op);
      var headers := HeadersOf(response);
      var entity := EntityAccepted(op, response);
      envelope := EurekaHttpResponse(response.status, headers, entity);
    }

    /** Releases nothing: the Jersey client belongs to the factory. */
    method Shutdown()
      ensures jerseyClient.destroyed == old(jerseyClient.destroyed)
    {
    }
  }
}
