/** The admission logic of api-gateway/src/server.ts: the CORS origin
    predicate, the fail-fast environment checks, the middleware stack the
    script builds, the fixed-window rate limit and the walk of a request
    through that stack. The proxies, the gateway's token middleware and its
    error handler live in modules that are not part of this model; a request
    that reaches a proxy is reported as forwarded. */
module Gateway {
  import opened Wrappers

  // ---------------------------------------------------------------------
  // CORS

  const AllowedOrigins: seq<string> := ["http://localhost:3000", "http://localhost:3003"]

  datatype CorsDecision = Allow | Blocked(error: string)

  /** The `origin` callback: no origin (or an empty one) and the two listed
      origins are allowed; any other origin is an error naming it. */
  function CorsOrigin(origin: Option<string>): (d: CorsDecision)
    ensures d == Allow <==> origin.None? || origin.value == ""
                            || origin.value == "http://localhost:3000" || origin.value == "http://localhost:3003"
    ensures d.Blocked? ==> d.error == "CORS blocked: " + origin.value
  {
    if origin.None? || origin.value == "" || origin.value in AllowedOrigins then Allow
    else Blocked("CORS blocked: " + origin.value)
  }

  // ---------------------------------------------------------------------
  // Rate limit: 100 requests per client per 15-minute window, counted in Redis

  const WindowMs: int := 15 * 60 * 1000
  const MaxHits: nat := 100

  /** One client's counter: when its window opened and how many hits it holds. */
  datatype Window = Window(start: int, hits: nat)

  /** The counter after one more hit at `now`: the window opened by the first
      hit lasts `WindowMs`; a hit after it has expired opens a new one. */
  function NextWindow(windows: map<string, Window>, key: string, now: int): (w: Window)
    ensures key in windows && now < windows[key].start + WindowMs ==>
      w.start == windows[key].start && w.hits == windows[key].hits + 1
    ensures key !in windows || now >= windows[key].start + WindowMs ==> w == Window(now, 1)
  {
    if key in windows && now < windows[key].start + WindowMs then windows[key].(hits := windows[key].hits + 1)
    else Window(now, 1)
  }

  /** A request is refused once its window holds more than `MaxHits` hits. */
  predicate Limited(w: Window) {
    w.hits > MaxHits
  }

  /** The counters after a series of hits from one client. */
  function Replay(windows: map<string, Window>, key: string, times: seq<int>): map<string, Window> {
    if times == [] then windows
    else
      var before := Replay(windows, key, times[..|times| - 1]);
      before[key := NextWindow(before, key, times[|times| - 1])]
  }

  /** Hits that all fall inside the window opened by the first of them are
      counted one by one: after k of them the counter holds k. */
  lemma {:induction false} ReplayCounts(windows: map<string, Window>, key: string, times: seq<int>)
    requires |times| >= 1
    requires key !in windows || times[0] >= windows[key].start + WindowMs
    requires forall i :: 0 <= i < |times| ==> times[0] <= times[i] < times[0] + WindowMs
    ensures key in Replay(windows, key, times)
    ensures Replay(windows, key, times)[key] == Window(times[0], |times|)
  {
    if |times| > 1 {
      var prefix := times[..|times| - 1];
      ReplayCounts(windows, key, prefix);
    }
  }

  /** Inside one window the first 100 hits pass and the 101st is refused. */
  lemma HundredAndFirstRefused(windows: map<string, Window>, key: string, times: seq<int>)
    requires |times| == MaxHits + 1
    requires key !in windows || times[0] >= windows[key].start + WindowMs
    requires forall i :: 0 <= i < |times| ==> times[0] <= times[i] < times[0] + WindowMs
    ensures forall k :: 1 <= k <= MaxHits ==> !Limited(Replay(windows, key, times[..k])[key])
    ensures Limited(Replay(windows, key, times)[key])
  {
    ReplayCounts(windows, key, times);
    forall k | 1 <= k <= MaxHits
      ensures !Limited(Replay(windows, key, times[..k])[key])
    {
      ReplayCounts(windows, key, times[..k]);
    }
  }

  // ---------------------------------------------------------------------
  // The middleware stack

  datatype BodyMode = JsonBodyMode | MultipartMode

  datatype Handler =
    | Helmet | JsonParser | CookieParser | Cors | RateLimiter | RequestLogger
    | CaptureUrl | ValidationToken | Proxy(target: string, name: string, mode: BodyMode)
    | ErrorHandler | Ping

  /** Where a layer applies: every path, a mount prefix, or one GET route. */
  datatype Mount = Everywhere | Prefix(path: string) | GetRoute(path: string)

  /** One entry of Express's stack: `app.use(path, a, b, c)` adds one per handler. */
  datatype Layer = Layer(mount: Mount, handler: Handler)

  function Layers(mount: Mount, handlers: seq<Handler>): (r: seq<Layer>)
    ensures |r| == |handlers|
    ensures forall i :: 0 <= i < |handlers| ==> r[i] == Layer(mount, handlers[i])
  {
    seq(|handlers|, i requires 0 <= i < |handlers| => Layer(mount, handlers[i]))
  }

  /** The layers registered before the first service mount. */
  function BaseStack(): seq<Layer> {
    [Layer(Everywhere, Helmet), Layer(Everywhere, JsonParser), Layer(Everywhere, CookieParser),
     Layer(Everywhere, Cors), Layer(Everywhere, RateLimiter), Layer(Everywhere, RequestLogger)]
  }

  /** A service mount: capture the URL, check the token, proxy. */
  function ServiceMount(prefix: string, target: string, name: string, mode: BodyMode): seq<Layer> {
    [Layer(Prefix(prefix), CaptureUrl), Layer(Prefix(prefix), ValidationToken),
     Layer(Prefix(prefix), Proxy(target, name, mode))]
  }

  function AuthMount(target: string): seq<Layer> {
    ServiceMount("/v1/auth", target, "identity service", JsonBodyMode)
  }

  function GradeMount(target: string): seq<Layer> {
    ServiceMount("/v1/grade", target, "grade service", MultipartMode)
  }

  function NotificationMount(target: string): seq<Layer> {
    ServiceMount("/v1/notification", target, "notification service", JsonBodyMode)
  }

  function TailStack(): seq<Layer> {
    [Layer(Everywhere, ErrorHandler), Layer(GetRoute("/ping"), Ping)]
  }

  /** The layers from the first service mount on. */
  function Services(identity: string, grade: string, notification: string): seq<Layer> {
    AuthMount(identity) + (GradeMount(grade) + (NotificationMount(notification) + TailStack()))
  }

  /** The whole stack of a gateway that started. */
  function Chain(identity: string, grade: string, notification: string): seq<Layer> {
    BaseStack() + Services(identity, grade, notification)
  }

  /** Only the grade service's proxy passes multipart bodies. */
  lemma MultipartOnlyForGrades(identity: string, grade: string, notification: string)
    ensures forall l :: l in Chain(identity, grade, notification) && l.handler.Proxy? && l.handler.mode == MultipartMode
                        ==> l.mount == Prefix("/v1/grade")
  {
  }

  // ---------------------------------------------------------------------
  // A request walking the stack

  /** A request as the gateway sees it; `tokenAccepted` is the verdict of
      the gateway's `validationToken` middleware on it, which is not part of
      this model. */
  datatype Request = Request(verb: string, path: string, originalUrl: string, origin: Option<string>, ip: string,
                             tokenAccepted: bool)

  datatype Outcome =
    | CorsRejected(error: string)                       // passed to the error handler
    | Preflight(status: int)                            // cors ends an OPTIONS request itself
    | TokenRejected                                     // validationToken answers instead of the proxy
    | TooManyRequests(status: int, success: bool, message: string)
    | Forwarded(target: string, name: string, mode: BodyMode, proxyUrl: Option<string>)
    | Pong
    | NotFound

  predicate StartsWith(s: string, p: string) {
    |p| <= |s| && s[..|p|] == p
  }

  /** Express's matching: a mount applies to the prefix itself or the prefix
      followed by "/"; a GET route also answers HEAD. */
  predicate Applies(m: Mount, req: Request) {
    match m
    case Everywhere => true
    case Prefix(p) => req.path == p || StartsWith(req.path, p + "/")
    case GetRoute(p) => (req.verb == "GET" || req.verb == "HEAD") && req.path == p
  }

  /** The walk: each applicable layer either answers or passes on; `proxyUrl`
      is `res.locals.proxyUrl`. Returns the outcome and the new counters.
      `cors` without `preflightContinue` answers an allowed OPTIONS request
      with 204 itself. */
  function Run(stack: seq<Layer>, req: Request, now: int, windows: map<string, Window>, proxyUrl: Option<string>)
    : (Outcome, map<string, Window>)
  {
    if stack == [] then (NotFound, windows)
    else
      var rest := stack[1..];
      if !Applies(stack[0].mount, req) then Run(rest, req, now, windows, proxyUrl)
      else
        match stack[0].handler
        case Cors =>
          (match CorsOrigin(req.origin)
           case Blocked(e) => (CorsRejected(e), windows)
           case Allow => if req.verb == "OPTIONS" then (Preflight(204), windows) else Run(rest, req, now, windows, proxyUrl))
        case RateLimiter =>
          var w := NextWindow(windows, req.ip, now);
          if Limited(w) then (TooManyRequests(429, false, "Too many requests"), windows[req.ip := w])
          else Run(rest, req, now, windows[req.ip := w], proxyUrl)
        case CaptureUrl => Run(rest, req, now, windows, Some(req.originalUrl))
        case ValidationToken => if req.tokenAccepted then Run(rest, req, now, windows, proxyUrl) else (TokenRejected, windows)
        case Proxy(target, name, mode) => (Forwarded(target, name, mode, proxyUrl), windows)
        case Ping => (Pong, windows)
        case _ => Run(rest, req, now, windows, proxyUrl)
  }

  /** CORS runs before the limiter: a blocked origin is rejected without
      touching any counter and never reaches a route. */
  lemma BlockedOriginNeverCounted(identity: string, grade: string, notification: string,
                                  req: Request, now: int, windows: map<string, Window>)
    requires CorsOrigin(req.origin).Blocked?
    ensures Run(Chain(identity, grade, notification), req, now, windows, None)
         == (CorsRejected("CORS blocked: " + req.origin.value), windows)
  {
    var c := Chain(identity, grade, notification);
    RunSkips(c, 3, req, now, windows, None);
  }

  /** An allowed origin with an OPTIONS request is a preflight: cors answers
      204 and no counter changes. */
  lemma PreflightAnswered(identity: string, grade: string, notification: string,
                          req: Request, now: int, windows: map<string, Window>)
    requires CorsOrigin(req.origin) == Allow && req.verb == "OPTIONS"
    ensures Run(Chain(identity, grade, notification), req, now, windows, None) == (Preflight(204), windows)
  {
    var c := Chain(identity, grade, notification);
    RunSkips(c, 3, req, now, windows, None);
    assert c[3] == Layer(Everywhere, Cors);
  }

  /** Any other request from an allowed origin is counted; over the limit the
      answer is the 429 envelope and nothing downstream runs. */
  lemma OverLimitRefused(identity: string, grade: string, notification: string,
                         req: Request, now: int, windows: map<string, Window>)
    requires CorsOrigin(req.origin) == Allow && req.verb != "OPTIONS"
    requires Limited(NextWindow(windows, req.ip, now))
    ensures Run(Chain(identity, grade, notification), req, now, windows, None)
         == (TooManyRequests(429, false, "Too many requests"), windows[req.ip := NextWindow(windows, req.ip, now)])
  {
    var c := Chain(identity, grade, notification);
    RunSkips(c, 3, req, now, windows, None);
    assert c[3] == Layer(Everywhere, Cors);
    assert c[4..][0] == Layer(Everywhere, RateLimiter);
    assert c[4..][1..] == c[5..];
  }

  /** Where an admitted request ends: under the first service whose prefix
      its path falls under, the token check's refusal or that service's
      proxy, carrying the URL `captureUrl` recorded; the ping route for GET
      and HEAD; otherwise Express's 404. */
  function Destination(identity: string, grade: string, notification: string, req: Request): Outcome {
    if Applies(Prefix("/v1/auth"), req) then
      (if req.tokenAccepted then Forwarded(identity, "identity service", JsonBodyMode, Some(req.originalUrl)) else TokenRejected)
    else if Applies(Prefix("/v1/grade"), req) then
      (if req.tokenAccepted then Forwarded(grade, "grade service", MultipartMode, Some(req.originalUrl)) else TokenRejected)
    else if Applies(Prefix("/v1/notification"), req) then
      (if req.tokenAccepted then Forwarded(notification, "notification service", JsonBodyMode, Some(req.originalUrl))
       else TokenRejected)
    else if (req.verb == "GET" || req.verb == "HEAD") && req.path == "/ping" then Pong
    else NotFound
  }

  /** A request that is not a preflight and passes cors and the limiter is
      counted once and ends at its destination; a proxied request always
      carries its original URL. */
  lemma {:induction false} AdmittedRoutes(identity: string, grade: string, notification: string,
                                          req: Request, now: int, windows: map<string, Window>)
    requires CorsOrigin(req.origin) == Allow && req.verb != "OPTIONS"
    requires !Limited(NextWindow(windows, req.ip, now))
    ensures Run(Chain(identity, grade, notification), req, now, windows, None)
         == (Destination(identity, grade, notification, req), windows[req.ip := NextWindow(windows, req.ip, now)])
  {
    var after := windows[req.ip := NextWindow(windows, req.ip, now)];
    var tail := NotificationMount(notification) + TailStack();
    var fromGrade := GradeMount(grade) + tail;
    PassesGuards(Services(identity, grade, notification), req, now, windows);
    ServiceWalk("/v1/auth", identity, "identity service", JsonBodyMode, fromGrade, req, now, after, None);
    ServiceWalk("/v1/grade", grade, "grade service", MultipartMode, tail, req, now, after, None);
    ServiceWalk("/v1/notification", notification, "notification service", JsonBodyMode, TailStack(), req, now, after, None);
    TailWalk(req, now, after, None);
  }

  /** Helmet, the parsers, cors, the limiter and the logger: an admitted
      request other than a preflight leaves them counted once, with nothing
      captured yet. */
  lemma PassesGuards(rest: seq<Layer>, req: Request, now: int, windows: map<string, Window>)
    requires CorsOrigin(req.origin) == Allow && req.verb != "OPTIONS"
    requires !Limited(NextWindow(windows, req.ip, now))
    ensures Run(BaseStack() + rest, req, now, windows, None)
         == Run(rest, req, now, windows[req.ip := NextWindow(windows, req.ip, now)], None)
  {
    var c := BaseStack() + rest;
    var after := windows[req.ip := NextWindow(windows, req.ip, now)];
    RunSkips(c, 3, req, now, windows, None);
    assert c[3..][0] == c[3] && c[3..][1..] == c[4..];
    assert c[4..][0] == c[4] && c[4..][1..] == c[5..];
    assert c[5..][0] == c[5] && c[5..][1..] == c[6..];
    assert Run(c, req, now, windows, None) == Run(c[5..], req, now, after, None);
    assert c[6..] == rest;
  }

  /** A service mount either ends the request, refused by the token check
      or proxied with its original URL captured, or passes it untouched to
      the layers after it. */
  lemma ServiceWalk(prefix: string, target: string, name: string, mode: BodyMode, rest: seq<Layer>,
                    req: Request, now: int, windows: map<string, Window>, proxyUrl: Option<string>)
    ensures Run(ServiceMount(prefix, target, name, mode) + rest, req, now, windows, proxyUrl)
         == if !Applies(Prefix(prefix), req) then Run(rest, req, now, windows, proxyUrl)
            else if req.tokenAccepted then (Forwarded(target, name, mode, Some(req.originalUrl)), windows)
            else (TokenRejected, windows)
  {
    var m := ServiceMount(prefix, target, name, mode) + rest;
    var url := if Applies(Prefix(prefix), req) then Some(req.originalUrl) else proxyUrl;
    assert m[0] == Layer(Prefix(prefix), CaptureUrl);
    assert m[1..] == [Layer(Prefix(prefix), ValidationToken), Layer(Prefix(prefix), Proxy(target, name, mode))] + rest;
    assert m[1..][1..] == [Layer(Prefix(prefix), Proxy(target, name, mode))] + rest;
    assert m[1..][1..][1..] == rest;
    assert Run(m, req, now, windows, proxyUrl) == Run(m[1..], req, now, windows, url);
    if !Applies(Prefix(prefix), req) || req.tokenAccepted {
      assert Run(m[1..], req, now, windows, url) == Run(m[1..][1..], req, now, windows, url);
    }
  }

  /** After the services only the ping route can answer. */
  lemma TailWalk(req: Request, now: int, windows: map<string, Window>, proxyUrl: Option<string>)
    ensures Run(TailStack(), req, now, windows, proxyUrl)
         == (if (req.verb == "GET" || req.verb == "HEAD") && req.path == "/ping" then Pong else NotFound, windows)
  {
    var t := TailStack();
    assert Run(t, req, now, windows, proxyUrl) == Run(t[1..], req, now, windows, proxyUrl);
    assert t[1..][1..] == [];
    assert Run(t[1..][1..], req, now, windows, proxyUrl) == (NotFound, windows);
  }

  /** The three prefixes are disjoint: no path reaches two services. */
  lemma MountsDisjoint(req: Request)
    ensures !(Applies(Prefix("/v1/auth"), req) && Applies(Prefix("/v1/grade"), req))
    ensures !(Applies(Prefix("/v1/auth"), req) && Applies(Prefix("/v1/notification"), req))
    ensures !(Applies(Prefix("/v1/grade"), req) && Applies(Prefix("/v1/notification"), req))
  {
    // the prefixes differ at their fifth character
    if Applies(Prefix("/v1/auth"), req) && req.path != "/v1/auth" {
      assert req.path[..9][4] == 'a';
    }
    if Applies(Prefix("/v1/grade"), req) && req.path != "/v1/grade" {
      assert req.path[..10][4] == 'g';
    }
  }

  /** The first layers of the chain are helmet, the JSON parser and the
      cookie parser, which the model lets pass every request on. */
  lemma {:induction false} RunSkips(c: seq<Layer>, k: nat, req: Request, now: int, windows: map<string, Window>,
                                    proxyUrl: Option<string>)
    requires k <= 3 && |c| > 3
    requires c[0] == Layer(Everywhere, Helmet) && c[1] == Layer(Everywhere, JsonParser)
    requires c[2] == Layer(Everywhere, CookieParser) && c[3] == Layer(Everywhere, Cors)
    ensures Run(c, req, now, windows, proxyUrl) == Run(c[k..], req, now, windows, proxyUrl)
  {
    if k > 0 {
      RunSkips(c, k - 1, req, now, windows, proxyUrl);
      assert c[k - 1..][1..] == c[k..];
    }
  }

  // ---------------------------------------------------------------------
  // The gateway process

  /** The environment variables the script reads. */
  datatype GatewayEnv = GatewayEnv(
    redisUrl: Option<string>, identityUrl: Option<string>, gradeUrl: Option<string>,
    notificationUrl: Option<string>, port: Option<string>)

  /** `process.env.X` is truthy. */
  predicate IsSet(v: Option<string>) {
    v.Some? && v.value != ""
  }

  predicate AllSet(env: GatewayEnv) {
    IsSet(env.redisUrl) && IsSet(env.identityUrl) && IsSet(env.gradeUrl) && IsSet(env.notificationUrl)
  }

  class GatewayApp {
    /** Express's middleware stack. */
    var stack: seq<Layer>
    /** The code passed to `process.exit`, if the script exited. */
    var exitCode: Option<int>
    var listening: bool
    var port: string
    /** The rate limiter's counters, kept in Redis. */
    var windows: map<string, Window>

    constructor(windows: map<string, Window>)
      ensures stack == [] && exitCode.None? && !listening && this.windows == windows
    {
      stack := [];
      exitCode := None;
      listening := false;
      port := "";
      this.windows := windows;
    }

    /** `app.use(path, ...handlers)`: one layer per handler, in order. */
    method Use(mount: Mount, handlers: seq<Handler>)
      modifies this
      ensures stack == old(stack) + Layers(mount, handlers)
      ensures exitCode == old(exitCode) && listening == old(listening) && port == old(port) && windows == old(windows)
    {
      for i := 0 to |handlers|
        invariant stack == old(stack) + Layers(mount, handlers[..i])
        invariant exitCode == old(exitCode) && listening == old(listening) && port == old(port) && windows == old(windows)
      {
        assert handlers[..i + 1][..i] == handlers[..i];
        stack := stack + [Layer(mount, handlers[i])];
      }
      assert handlers[..|handlers|] == handlers;
    }

    /** The six `app.use` calls before the first service check. */
    method UseBase()
      modifies this
      ensures stack == old(stack) + BaseStack()
      ensures exitCode == old(exitCode) && listening == old(listening) && port == old(port) && windows == old(windows)
    {
      Use(Everywhere, [Helmet]);
      Use(Everywhere, [JsonParser]);
      Use(Everywhere, [CookieParser]);
      Use(Everywhere, [Cors]);
      Use(Everywhere, [RateLimiter]);
      Use(Everywhere, [RequestLogger]);
    }

    /** `app.use(prefix, captureUrl, validationToken, createProxy(...))`. */
    method UseService(prefix: string, target: string, name: string, mode: BodyMode)
      modifies this
      ensures stack == old(stack) + ServiceMount(prefix, target, name, mode)
      ensures exitCode == old(exitCode) && listening == old(listening) && port == old(port) && windows == old(windows)
    {
      Use(Prefix(prefix), [CaptureUrl, ValidationToken, Proxy(target, name, mode)]);
    }

    /** The error handler, then the `/ping` route. */
    method UseTail()
      modifies this
      ensures stack == old(stack) + TailStack()
      ensures exitCode == old(exitCode) && listening == old(listening) && port == old(port) && windows == old(windows)
    {
      Use(Everywhere, [ErrorHandler]);
      Use(GetRoute("/ping"), [Ping]);
    }

    /** The top-level script: each missing URL exits with code 1 at its point
        in the script, before the server listens; otherwise the full stack
        is built and the server listens on PORT (3000 by default). */
    method Start(env: GatewayEnv)
      requires stack == [] && exitCode.None? && !listening
      modifies this
      ensures windows == old(windows)
      ensures listening <==> AllSet(env)
      ensures !AllSet(env) <==> exitCode == Some(1)
      ensures !IsSet(env.redisUrl) ==> stack == []
      ensures IsSet(env.redisUrl) && !IsSet(env.identityUrl) ==> stack == BaseStack()
      ensures IsSet(env.redisUrl) && IsSet(env.identityUrl) && !IsSet(env.gradeUrl) ==>
        stack == BaseStack() + AuthMount(env.identityUrl.value)
      ensures IsSet(env.redisUrl) && IsSet(env.identityUrl) && IsSet(env.gradeUrl) && !IsSet(env.notificationUrl) ==>
        stack == BaseStack() + AuthMount(env.identityUrl.value) + GradeMount(env.gradeUrl.value)
      ensures AllSet(env) ==>
        && stack == Chain(env.identityUrl.value, env.gradeUrl.value, env.notificationUrl.value)
        && port == (if IsSet(env.port) then env.port.value else "3000")
    {
      if !IsSet(env.redisUrl) {
        exitCode := Some(1);
        return;
      }
      UseBase();
      if !IsSet(env.identityUrl) {
        exitCode := Some(1);
        return;
      }
      UseService("/v1/auth", env.identityUrl.value, "identity service", JsonBodyMode);
      if !IsSet(env.gradeUrl) {
        exitCode := Some(1);
        return;
      }
      UseService("/v1/grade", env.gradeUrl.value, "grade service", MultipartMode);
      if !IsSet(env.notificationUrl) {
        exitCode := Some(1);
        return;
      }
      UseService("/v1/notification", env.notificationUrl.value, "notification service", JsonBodyMode);
      UseTail();
      port := if IsSet(env.port) then env.port.value else "3000";
      listening := true;
    }

    /** Express dispatching a request through the stack, layer by layer. */
    method Handle(req: Request, now: int) returns (outcome: Outcome)
      modifies this
      ensures (outcome, windows) == Run(stack, req, now, old(windows), None)
      ensures stack == old(stack) && exitCode == old(exitCode) && listening == old(listening) && port == old(port)
    {
      var proxyUrl: Option<string> := None;
      var i := 0;
      while i < |stack|
        invariant 0 <= i <= |stack|
        invariant Run(stack, req, now, old(windows), None) == Run(stack[i..], req, now, windows, proxyUrl)
        invariant stack == old(stack) && exitCode == old(exitCode) && listening == old(listening) && port == old(port)
      {
        var layer := stack[i];
        assert stack[i..][1..] == stack[i + 1..];
        if Applies(layer.mount, req) {
          match layer.handler {
            case Cors =>
              var decision := CorsOrigin(req.origin);
              if decision.Blocked? {
                return CorsRejected(decision.error);
              } else if req.verb == "OPTIONS" {
                return Preflight(204);
              }
            case RateLimiter =>
              var w := NextWindow(windows, req.ip, now);
              windows := windows[req.ip := w];
              if w.hits > MaxHits {
                return TooManyRequests(429, false, "Too many requests");
              }
            case CaptureUrl =>
              proxyUrl := Some(req.originalUrl);
            case ValidationToken =>
              if !req.tokenAccepted {
                return TokenRejected;
              }
            case Proxy(target, name, mode) =>
              return Forwarded(target, name, mode, proxyUrl);
            case Ping =>
              return Pong;
            case _ =>
          }
        }
        i := i + 1;
      }
      return NotFound;
    }
  }
}
