/** The maintenance gate (climaintenance.php): the decision procedure the
    compiler emits and the host runs at the start of every request while an
    outage is in force. The artifact is modelled as the structured policy it
    is generated from; what it does to a request is a sequence of output
    events (cookie, headers, printed comments, termination). */
module Gate {
  import opened Optional
  import opened PhpStrings
  import opened LooseCompare

  const CookieName: string := "auth_outage_accesskey"
  /** The remembered key lasts one day. */
  const CookieLifetime: int := 86400
  const CommentEnd: string := " -->"
  const Apology: string := "We are currently under maintentance, please try again later."

  /** The secure and HTTP-only arguments baked into the remember-key
      setcookie() call. */
  datatype CookieFlags = CookieFlags(secure: bool, httpOnly: bool)

  /** The compiled policy. `ipLiteral` and `keyLiteral` are the texts written
      between single quotes in the artifact; the gate uses their PHP values.
      `ipOn` and `keyOn` are the switches baked in as `true`/`false`. */
  datatype Artifact = Artifact(
    start: int,
    stop: int,
    ipOn: bool,
    ipLiteral: string,
    keyOn: bool,
    keyLiteral: string,
    cookieFlags: CookieFlags)

  /** What the gate reads from one request and its environment. */
  datatype Request = Request(
    now: int,                    // time()
    urlKey: Option<string>,      // optional_param('accesskey', null, PARAM_TEXT)
    cookieKey: Option<string>,   // $_COOKIE['auth_outage_accesskey']
    remoteAddr: string,          // getremoteaddr('n/a')
    ipInList: string -> bool,    // remoteip_in_list(list) for the caller's address
    isPhpUnit: bool,             // defined('PHPUNIT_TEST')
    isAjax: bool,                // defined('AJAX_SCRIPT') && AJAX_SCRIPT
    isWebService: bool,          // defined('WS_SERVER') && WS_SERVER
    templateExists: bool,        // climaintenance.template.html is present
    serverProtocol: string,      // $_SERVER['SERVER_PROTOCOL']
    httpDate: string)            // gmdate('D, d M Y H:i:s')

  /** What the gate does to the response, in order. */
  datatype Event =
    | SetCookie(name: string, value: string, expires: int, path: string, domain: string, secure: bool, httpOnly: bool)
    | Header(line: string, replace: bool)
    | Echo(text: string)
    | IncludeTemplate
    | Exit(status: int)
    | Die(message: string)

  datatype Check = IpCheck | KeyCheck

  const PassedOpening: string := "<!-- Your "
  const FailedOpening: string := "<!-- Blocked by "

  /** The opening of each diagnostic comment. */
  function Marker(c: Check, passed: bool): string {
    match c
    case IpCheck => if passed then PassedOpening + "IP is allowed:" else FailedOpening + "ip, your ip:"
    case KeyCheck =>
      if passed then PassedOpening + "access key is allowed:"
      else FailedOpening + "missing or incorrect access key" + ", access key given:"
  }

  function Comment(c: Check, passed: bool, detail: string): string {
    Marker(c, passed) + " " + detail + CommentEnd
  }

  predicate InWindow(a: Artifact, now: int) {
    now >= a.start && now < a.stop
  }

  /** The URL key is remembered when it is truthy. */
  predicate HasUrlKey(r: Request) {
    r.urlKey.Some? && !IsFalsy(r.urlKey.value)
  }

  /** `$urlaccesskey ?: $_COOKIE['auth_outage_accesskey'] ?? null`. */
  function UserKey(r: Request): Option<string> {
    if HasUrlKey(r) then r.urlKey else r.cookieKey
  }

  function RememberKey(a: Artifact, r: Request): seq<Event> {
    if HasUrlKey(r)
    then [SetCookie(CookieName, r.urlKey.value, r.now + CookieLifetime, "/", "", a.cookieFlags.secure, a.cookieFlags.httpOnly)]
    else []
  }

  predicate IpBlocked(a: Artifact, r: Request) {
    !r.ipInList(LiteralValue(a.ipLiteral))
  }

  /** `$useraccesskey != '<key>'`; null compares as "". */
  predicate KeyBlocked(a: Artifact, r: Request) {
    !LooseEquals(UserKey(r).GetOr(""), LiteralValue(a.keyLiteral))
  }

  predicate Blocked(a: Artifact, r: Request) {
    (a.keyOn && KeyBlocked(a, r)) || (a.ipOn && IpBlocked(a, r))
  }

  predicate IsMachineRequest(r: Request) {
    r.isAjax || r.isWebService
  }

  /** The twelve headers of a 503 maintenance response, in the order they
      are sent; only the second Cache-Control header is sent without
      replacing the first. */
  function MaintenanceHeaders(protocol: string, httpDate: string): seq<Event> {
    seq(12, i requires 0 <= i < 12 => Header(HeaderLine(i, protocol, httpDate), i != 6))
  }

  function HeaderLine(i: nat, protocol: string, httpDate: string): string
    requires i < 12
  {
    match i
    case 0 => protocol + " 503 Moodle under maintenance"
    case 1 => "Status: 503 Moodle under maintenance"
    case 2 => "Retry-After: 300"
    case 3 => "Content-type: text/html; charset=utf-8"
    case 4 => "X-UA-Compatible: IE=edge"
    case 5 => "Cache-Control: no-store, no-cache, must-revalidate"
    case 6 => "Cache-Control: post-check=0, pre-check=0"
    case 7 => "Pragma: no-cache"
    case 8 => "Expires: Mon, 20 Aug 1969 09:23:00 GMT"
    case 9 => "Last-Modified: " + httpDate + " GMT"
    case 10 => "Accept-Ranges: none"
    case _ => "X-Moodle-Maintenance: manager"
  }

  function IpDiagnostic(a: Artifact, r: Request): seq<Event> {
    if a.ipOn then [Echo(Comment(IpCheck, !IpBlocked(a, r), r.remoteAddr))] else []
  }

  function KeyDiagnostic(a: Artifact, r: Request): seq<Event> {
    if a.keyOn then [Echo(Comment(KeyCheck, !KeyBlocked(a, r), UserKey(r).GetOr("")))] else []
  }

  /** One comment per enabled check, IP first, saying whether it passed. */
  function Diagnostics(a: Artifact, r: Request): seq<Event> {
    IpDiagnostic(a, r) + KeyDiagnostic(a, r)
  }

  function FallbackPage(r: Request): seq<Event> {
    if r.templateExists then [IncludeTemplate, Exit(0)] else [Die(Apology)]
  }

  function BlockedResponse(a: Artifact, r: Request): seq<Event> {
    if r.isPhpUnit then Diagnostics(a, r)
    else
      MaintenanceHeaders(r.serverProtocol, r.httpDate) +
      if IsMachineRequest(r) then [Exit(0)] else Diagnostics(a, r) + FallbackPage(r)
  }

  /** Everything the gate does to one request. */
  function GateEvents(a: Artifact, r: Request): seq<Event> {
    if !InWindow(a, r.now) then []
    else RememberKey(a, r) + (if Blocked(a, r) then BlockedResponse(a, r) else [])
  }

  /** Whether the gate ends the request instead of letting the site run. */
  predicate GateExits(a: Artifact, r: Request) {
    InWindow(a, r.now) && Blocked(a, r) && !r.isPhpUnit
  }

  lemma AppendAssoc<T>(x: seq<T>, y: seq<T>, z: seq<T>)
    ensures x + y + z == x + (y + z)
  {
  }

  /** The response as the gate leaves it. */
  class Response {
    var events: seq<Event>
    var exited: bool

    constructor ()
      ensures events == [] && !exited
    {
      events := [];
      exited := false;
    }

    /** Runs the artifact `a` on request `r`. */
    method ServeGate(a: Artifact, r: Request)
      requires !exited
      modifies this
      ensures events == old(events) + GateEvents(a, r)
      ensures exited == GateExits(a, r)
    {
      if !(r.now >= a.start && r.now < a.stop) {
        return;
      }
      var urlKey := r.urlKey;
      if urlKey.Some? && !IsFalsy(urlKey.value) {
        events := events + [SetCookie(CookieName, urlKey.value, r.now + CookieLifetime, "/", "", a.cookieFlags.secure, a.cookieFlags.httpOnly)];
      }
      ghost var beforeBlock := events;
      assert beforeBlock == old(events) + RememberKey(a, r);
      var userKey := if urlKey.Some? && !IsFalsy(urlKey.value) then urlKey else r.cookieKey;
      var ipBlocked := !r.ipInList(LiteralValue(a.ipLiteral));
      var keyBlocked := !LooseEquals(userKey.GetOr(""), LiteralValue(a.keyLiteral));
      var blocked := (a.keyOn && keyBlocked) || (a.ipOn && ipBlocked);
      assert blocked == Blocked(a, r);
      ghost var rest: seq<Event> := [];
      if blocked {
        ServeBlocked(a, r, userKey, ipBlocked, keyBlocked);
        rest := BlockedResponse(a, r);
      }
      assert events == beforeBlock + rest;
      AppendAssoc(old(events), RememberKey(a, r), rest);
      assert GateEvents(a, r) == RememberKey(a, r) + rest;
    }

    /** The part of the gate that runs once the request is known to be blocked. */
    method ServeBlocked(a: Artifact, r: Request, userKey: Option<string>, ipBlocked: bool, keyBlocked: bool)
      requires !exited
      requires userKey == UserKey(r) && ipBlocked == IpBlocked(a, r) && keyBlocked == KeyBlocked(a, r)
      modifies this
      ensures events == old(events) + BlockedResponse(a, r)
      ensures exited == !r.isPhpUnit
    {
      var isPhpUnit := r.isPhpUnit;
      if !isPhpUnit {
        events := events + MaintenanceHeaders(r.serverProtocol, r.httpDate);
      }
      if !isPhpUnit && (r.isAjax || r.isWebService) {
        events := events + [Exit(0)];
        exited := true;
        AppendAssoc(old(events), MaintenanceHeaders(r.serverProtocol, r.httpDate), [Exit(0)]);
        return;
      }
      ghost var beforeComments := events;
      PrintDiagnostics(a, r, userKey, ipBlocked, keyBlocked);
      if !isPhpUnit {
        ghost var afterComments := events;
        if r.templateExists {
          events := events + [IncludeTemplate];
          events := events + [Exit(0)];
          AppendAssoc(afterComments, [IncludeTemplate], [Exit(0)]);
        } else {
          events := events + [Die(Apology)];
        }
        exited := true;
        AppendAssoc(beforeComments, Diagnostics(a, r), FallbackPage(r));
        AppendAssoc(old(events), MaintenanceHeaders(r.serverProtocol, r.httpDate), Diagnostics(a, r) + FallbackPage(r));
      }
    }

    /** The four conditional comments, each guarded by its compiled switch. */
    method PrintDiagnostics(a: Artifact, r: Request, userKey: Option<string>, ipBlocked: bool, keyBlocked: bool)
      requires userKey == UserKey(r) && ipBlocked == IpBlocked(a, r) && keyBlocked == KeyBlocked(a, r)
      modifies this
      ensures events == old(events) + Diagnostics(a, r)
      ensures exited == old(exited)
    {
      if a.ipOn && ipBlocked {
        events := events + [Echo(Comment(IpCheck, false, r.remoteAddr))];
      }
      if a.ipOn && !ipBlocked {
        events := events + [Echo(Comment(IpCheck, true, r.remoteAddr))];
      }
      if a.keyOn && keyBlocked {
        events := events + [Echo(Comment(KeyCheck, false, userKey.GetOr("")))];
      }
      if a.keyOn && !keyBlocked {
        events := events + [Echo(Comment(KeyCheck, true, userKey.GetOr("")))];
      }
      AppendAssoc(old(events), IpDiagnostic(a, r), KeyDiagnostic(a, r));
    }
  }
}
