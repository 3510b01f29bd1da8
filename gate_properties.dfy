/** What the maintenance gate promises: it is idle outside its window, it
    remembers only a URL key, it blocks exactly by the two-switch rule, in
    test mode it reports each enabled check once and never ends the request,
    and otherwise it ends every blocked request, machine requests without a
    body. */
module GateProperties {
  import opened Optional
  import opened PhpStrings
  import opened LooseCompare
  import opened Gate

  /** The cookies the gate sets, in order. */
  function Cookies(es: seq<Event>): seq<Event> {
    if es == [] then [] else (if es[0].SetCookie? then [es[0]] else []) + Cookies(es[1..])
  }

  /** The texts of the HTML comments the gate prints, in order. */
  function Comments(es: seq<Event>): seq<string> {
    if es == [] then [] else (if es[0].Echo? then [es[0].text] else []) + Comments(es[1..])
  }

  /** Everything the gate prints into the response body (a template file it
      includes is not part of this text). */
  function Printed(es: seq<Event>): string {
    if es == [] then [] else PrintedBy(es[0]) + Printed(es[1..])
  }

  function PrintedBy(e: Event): string {
    match e
    case Echo(t) => t
    case Die(m) => m
    case _ => ""
  }

  /** The output contains a comment opening with `marker`, as the test's
      assertStringContainsString checks. */
  predicate Reports(es: seq<Event>, marker: string) {
    exists i :: 0 <= i < |Comments(es)| && marker <= Comments(es)[i]
  }

  /** `text` holds `part` somewhere, as assertStringContainsString checks. */
  predicate Contains(text: string, part: string) {
    exists i :: 0 <= i <= |text| && part <= text[i..]
  }

  predicate Enabled(a: Artifact, c: Check) {
    match c
    case IpCheck => a.ipOn
    case KeyCheck => a.keyOn
  }

  predicate CheckPassed(a: Artifact, r: Request, c: Check) {
    match c
    case IpCheck => !IpBlocked(a, r)
    case KeyCheck => !KeyBlocked(a, r)
  }

  // ---- helpers over event sequences ----

  lemma {:induction false} CookiesAppend(x: seq<Event>, y: seq<Event>)
    ensures Cookies(x + y) == Cookies(x) + Cookies(y)
  {
    if x == [] {
      assert x + y == y;
    } else {
      var h := if x[0].SetCookie? then [x[0]] else [];
      assert (x + y)[0] == x[0] && (x + y)[1..] == x[1..] + y;
      calc {
        Cookies(x + y);
        h + Cookies(x[1..] + y);
        { CookiesAppend(x[1..], y); }
        h + (Cookies(x[1..]) + Cookies(y));
        (h + Cookies(x[1..])) + Cookies(y);
      }
    }
  }

  lemma {:induction false} CommentsAppend(x: seq<Event>, y: seq<Event>)
    ensures Comments(x + y) == Comments(x) + Comments(y)
  {
    if x == [] {
      assert x + y == y;
    } else {
      var h := if x[0].Echo? then [x[0].text] else [];
      assert (x + y)[0] == x[0] && (x + y)[1..] == x[1..] + y;
      calc {
        Comments(x + y);
        h + Comments(x[1..] + y);
        { CommentsAppend(x[1..], y); }
        h + (Comments(x[1..]) + Comments(y));
        (h + Comments(x[1..])) + Comments(y);
      }
    }
  }

  lemma {:induction false} PrintedAppend(x: seq<Event>, y: seq<Event>)
    ensures Printed(x + y) == Printed(x) + Printed(y)
  {
    if x == [] {
      assert x + y == y;
    } else {
      var h := PrintedBy(x[0]);
      assert (x + y)[0] == x[0] && (x + y)[1..] == x[1..] + y;
      calc {
        Printed(x + y);
        h + Printed(x[1..] + y);
        { PrintedAppend(x[1..], y); }
        h + (Printed(x[1..]) + Printed(y));
        (h + Printed(x[1..])) + Printed(y);
      }
    }
  }

  /** An event that prints nothing into the body. */
  predicate Silent(e: Event) {
    e.Header? || e.Exit? || e.SetCookie? || e.IncludeTemplate?
  }

  lemma {:induction false} SilentEvents(es: seq<Event>)
    requires forall e :: e in es ==> Silent(e)
    ensures Comments(es) == [] && Printed(es) == []
  {
    if es != [] {
      assert es[0] in es;
      assert forall e :: e in es[1..] ==> e in es;
      SilentEvents(es[1..]);
    }
  }

  lemma {:induction false} CookieFree(es: seq<Event>)
    requires forall e :: e in es ==> !e.SetCookie?
    ensures Cookies(es) == []
  {
    if es != [] {
      assert es[0] in es;
      assert forall e :: e in es[1..] ==> e in es;
      CookieFree(es[1..]);
    }
  }

  lemma InCookies(es: seq<Event>, e: Event)
    requires e in es && e.SetCookie?
    ensures e in Cookies(es)
  {
    var i :| 0 <= i < |es| && es[i] == e;
    InCookiesAt(es, i);
  }

  lemma {:induction false} InCookiesAt(es: seq<Event>, i: nat)
    requires i < |es| && es[i].SetCookie?
    ensures es[i] in Cookies(es)
  {
    if i > 0 {
      InCookiesAt(es[1..], i - 1);
    }
  }

  lemma HeadersAreHeaders(protocol: string, httpDate: string)
    ensures |MaintenanceHeaders(protocol, httpDate)| == 12
    ensures forall e :: e in MaintenanceHeaders(protocol, httpDate) ==> e.Header?
  {
  }

  /** Which events each part of the gate contributes. */
  lemma DiagnosticsShape(a: Artifact, r: Request)
    ensures Cookies(Diagnostics(a, r)) == []
    ensures Comments(Diagnostics(a, r)) ==
            (if a.ipOn then [Comment(IpCheck, !IpBlocked(a, r), r.remoteAddr)] else []) +
            (if a.keyOn then [Comment(KeyCheck, !KeyBlocked(a, r), UserKey(r).GetOr(""))] else [])
    ensures forall e :: e in Diagnostics(a, r) ==> e.Echo?
  {
    var ip, key := IpDiagnostic(a, r), KeyDiagnostic(a, r);
    CommentsAppend(ip, key);
    OneComment(ip);
    OneComment(key);
    CookieFree(ip + key);
  }

  lemma OneComment(es: seq<Event>)
    requires |es| <= 1 && forall e :: e in es ==> e.Echo?
    ensures Comments(es) == if es == [] then [] else [es[0].text]
  {
    if es != [] {
      assert es[1..] == [];
    }
  }

  lemma BlockedResponseCookies(a: Artifact, r: Request)
    ensures Cookies(BlockedResponse(a, r)) == []
  {
    DiagnosticsShape(a, r);
    var hs := MaintenanceHeaders(r.serverProtocol, r.httpDate);
    HeadersAreHeaders(r.serverProtocol, r.httpDate);
    if r.isPhpUnit {
      CookieFree(Diagnostics(a, r));
    } else if IsMachineRequest(r) {
      CookieFree(hs + [Exit(0)]);
    } else {
      var tail := Diagnostics(a, r) + FallbackPage(r);
      assert forall e :: e in tail ==> !e.SetCookie?;
      CookieFree(hs + tail);
    }
  }

  /** A comment opening with `marker` puts `marker` into the printed text. */
  lemma {:induction false} ReportedIsPrinted(es: seq<Event>, marker: string)
    requires Reports(es, marker)
    ensures Contains(Printed(es), marker)
  {
    var i :| 0 <= i < |Comments(es)| && marker <= Comments(es)[i];
    var h, rest := PrintedBy(es[0]), Printed(es[1..]);
    assert Printed(es) == h + rest;
    if es[0].Echo? && i == 0 {
      assert Comments(es)[0] == h;
      assert Printed(es)[0..] == h + rest;
    } else {
      var j := if es[0].Echo? then i - 1 else i;
      assert Comments(es)[i] == Comments(es[1..])[j];
      ReportedIsPrinted(es[1..], marker);
      var k :| 0 <= k <= |rest| && marker <= rest[k..];
      assert Printed(es)[|h| + k..] == rest[k..];
    }
  }

  // ---- the properties ----

  /** Outside [start, stop) the gate does nothing at all. */
  lemma IdleOutsideWindow(a: Artifact, r: Request)
    requires !InWindow(a, r.now)
    ensures GateEvents(a, r) == [] && !GateExits(a, r)
  {
  }

  /** The remember-key cookie is set exactly when the request is inside the
      window and carries a truthy URL key; it holds that key for 86400 s on
      path "/", with the secure and HTTP-only flags compiled into the gate.
      No other event sets or clears a cookie. */
  lemma CookieOnlyFromUrlKey(a: Artifact, r: Request)
    ensures Cookies(GateEvents(a, r)) ==
            if InWindow(a, r.now) && HasUrlKey(r)
            then [SetCookie(CookieName, r.urlKey.value, r.now + 86400, "/", "", a.cookieFlags.secure, a.cookieFlags.httpOnly)]
            else []
  {
    if InWindow(a, r.now) {
      var tail := if Blocked(a, r) then BlockedResponse(a, r) else [];
      CookiesAppend(RememberKey(a, r), tail);
      BlockedResponseCookies(a, r);
    }
  }

  /** A later request that carries no URL key but presents the cookie the gate
      set is judged with the same key as the request that set it. */
  lemma RememberedKeyRoundTrip(a: Artifact, r1: Request, r2: Request, c: Event)
    requires c in GateEvents(a, r1) && c.SetCookie?
    requires !HasUrlKey(r2) && r2.cookieKey == Some(c.value)
    ensures c.name == CookieName && c.path == "/" && c.expires == r1.now + CookieLifetime
    ensures UserKey(r2) == UserKey(r1)
    ensures KeyBlocked(a, r2) == KeyBlocked(a, r1)
  {
    InCookies(GateEvents(a, r1), c);
    CookieOnlyFromUrlKey(a, r1);
  }

  /** The block rule as a table over the two compiled switches: a disabled
      check counts as passed, and either failing enabled check alone blocks. */
  lemma BlockDecisionTable(a: Artifact, r: Request)
    ensures !a.ipOn && !a.keyOn ==> !Blocked(a, r)
    ensures a.ipOn && !a.keyOn ==> (Blocked(a, r) <==> IpBlocked(a, r))
    ensures !a.ipOn && a.keyOn ==> (Blocked(a, r) <==> KeyBlocked(a, r))
    ensures a.ipOn && a.keyOn ==> (Blocked(a, r) <==> IpBlocked(a, r) || KeyBlocked(a, r))
  {
  }

  /** Inside the window the gate adds nothing beyond the remember-key cookie
      exactly when the request is not blocked. */
  lemma PassesThroughIffNotBlocked(a: Artifact, r: Request)
    requires InWindow(a, r.now)
    ensures GateEvents(a, r) == RememberKey(a, r) <==> !Blocked(a, r)
  {
    if Blocked(a, r) {
      HeadersAreHeaders(r.serverProtocol, r.httpDate);
      assert |BlockedResponse(a, r)| > 0;
      assert |GateEvents(a, r)| > |RememberKey(a, r)|;
    }
  }

  lemma MarkerOpensComment(c: Check, passed: bool, detail: string)
    ensures Marker(c, passed) <= Comment(c, passed, detail)
  {
    var m := Marker(c, passed);
    assert Comment(c, passed, detail) == m + (" " + detail + CommentEnd);
  }

  /** No diagnostic opening is a prefix of another kind of comment. */
  lemma MarkersDistinct(c1: Check, p1: bool, c2: Check, p2: bool, detail: string)
    requires c1 != c2 || p1 != p2
    ensures !(Marker(c1, p1) <= Comment(c2, p2, detail))
  {
    var m1, m2 := Marker(c1, p1), Marker(c2, p2);
    MarkerOpensComment(c2, p2, detail);
    assert PassedOpening[5] == 'Y' && FailedOpening[5] == 'B';
    assert |PassedOpening| == 10 && |FailedOpening| == 16;
    if p1 != p2 {
      assert m1[5] != m2[5];
    } else if p1 {
      assert m1[10] != m2[10];
    } else {
      var ip, key := "ip, your ip:", "missing or incorrect access key";
      assert ip[0] == 'i' && key[0] == 'm';
      assert (FailedOpening + ip)[16] == 'i' && (FailedOpening + key + ", access key given:")[16] == 'm';
      assert m1[16] != m2[16];
    }
  }

  /** A comment opening with a marker is that marker's comment. */
  lemma MarkerIdentifiesComment(c1: Check, p1: bool, c2: Check, p2: bool, detail: string)
    requires Marker(c1, p1) <= Comment(c2, p2, detail)
    ensures c1 == c2 && p1 == p2
  {
    if c1 != c2 || p1 != p2 {
      MarkersDistinct(c1, p1, c2, p2, detail);
    }
  }

  /** The comments printed in test mode, inside the window. */
  lemma TestModeComments(a: Artifact, r: Request)
    requires r.isPhpUnit && InWindow(a, r.now)
    ensures Comments(GateEvents(a, r)) ==
            if Blocked(a, r) then
              (if a.ipOn then [Comment(IpCheck, !IpBlocked(a, r), r.remoteAddr)] else []) +
              (if a.keyOn then [Comment(KeyCheck, !KeyBlocked(a, r), UserKey(r).GetOr(""))] else [])
            else []
  {
    var tail := if Blocked(a, r) then BlockedResponse(a, r) else [];
    CommentsAppend(RememberKey(a, r), tail);
    DiagnosticsShape(a, r);
    assert Comments(RememberKey(a, r)) == [];
  }

  /** In test mode, each of the four comments appears exactly when the request
      is blocked inside the window, its check is compiled in, and the check
      failed or passed as the comment says. */
  lemma TestModeReports(a: Artifact, r: Request, c: Check, passed: bool)
    requires r.isPhpUnit
    ensures Reports(GateEvents(a, r), Marker(c, passed)) <==>
            InWindow(a, r.now) && Blocked(a, r) && Enabled(a, c) && CheckPassed(a, r, c) == passed
  {
    if InWindow(a, r.now) && Blocked(a, r) && Enabled(a, c) && CheckPassed(a, r, c) == passed {
      ReportedWhenDue(a, r, c, passed);
    } else if Reports(GateEvents(a, r), Marker(c, passed)) {
      ReportedOnlyWhenDue(a, r, c, passed);
    }
  }

  lemma ReportedWhenDue(a: Artifact, r: Request, c: Check, passed: bool)
    requires r.isPhpUnit && InWindow(a, r.now) && Blocked(a, r) && Enabled(a, c) && CheckPassed(a, r, c) == passed
    ensures Reports(GateEvents(a, r), Marker(c, passed))
  {
    TestModeComments(a, r);
    var cs := Comments(GateEvents(a, r));
    var m := Marker(c, passed);
    if c == IpCheck {
      MarkerOpensComment(c, passed, r.remoteAddr);
      assert m <= cs[0];
    } else {
      MarkerOpensComment(c, passed, UserKey(r).GetOr(""));
      var i := if a.ipOn then 1 else 0;
      assert m <= cs[i];
    }
  }

  lemma ReportedOnlyWhenDue(a: Artifact, r: Request, c: Check, passed: bool)
    requires r.isPhpUnit && Reports(GateEvents(a, r), Marker(c, passed))
    ensures InWindow(a, r.now) && Blocked(a, r) && Enabled(a, c) && CheckPassed(a, r, c) == passed
  {
    var cs := Comments(GateEvents(a, r));
    var i :| 0 <= i < |cs| && Marker(c, passed) <= cs[i];
    TestModeCommentAt(a, r, i);
    if a.ipOn && i == 0 {
      MarkerIdentifiesComment(c, passed, IpCheck, !IpBlocked(a, r), r.remoteAddr);
    } else {
      MarkerIdentifiesComment(c, passed, KeyCheck, !KeyBlocked(a, r), UserKey(r).GetOr(""));
    }
  }

  /** Any comment printed in test mode is the IP diagnostic when it comes
      first and the IP check is on, and the key diagnostic otherwise. */
  lemma TestModeCommentAt(a: Artifact, r: Request, i: nat)
    requires r.isPhpUnit && i < |Comments(GateEvents(a, r))|
    ensures InWindow(a, r.now) && Blocked(a, r)
    ensures if a.ipOn && i == 0
            then Comments(GateEvents(a, r))[i] == Comment(IpCheck, !IpBlocked(a, r), r.remoteAddr)
            else a.keyOn && Comments(GateEvents(a, r))[i] == Comment(KeyCheck, !KeyBlocked(a, r), UserKey(r).GetOr(""))
  {
    TestModeOutput(a, r);
    TestModeComments(a, r);
  }

  /** In test mode the gate prints one comment per enabled check when it
      blocks, and nothing when it lets the request through. */
  lemma TestModeOutput(a: Artifact, r: Request)
    requires r.isPhpUnit
    ensures |Comments(GateEvents(a, r))| ==
            if InWindow(a, r.now) && Blocked(a, r) then (if a.ipOn then 1 else 0) + (if a.keyOn then 1 else 0) else 0
    ensures !(InWindow(a, r.now) && Blocked(a, r)) ==> Printed(GateEvents(a, r)) == []
  {
    if InWindow(a, r.now) {
      var tail := if Blocked(a, r) then BlockedResponse(a, r) else [];
      CommentsAppend(RememberKey(a, r), tail);
      PrintedAppend(RememberKey(a, r), tail);
      DiagnosticsShape(a, r);
    }
  }

  /** Test mode never sends headers, never includes the template and never
      ends the request: only the cookie and the comments are produced. */
  lemma TestModeNeverTerminates(a: Artifact, r: Request)
    requires r.isPhpUnit
    ensures !GateExits(a, r)
    ensures forall e :: e in GateEvents(a, r) ==> e.SetCookie? || e.Echo?
  {
    DiagnosticsShape(a, r);
  }

  /** A blocked AJAX or web-service request gets the 503 headers and an
      immediate exit(0), with no body and no comment. */
  lemma MachineRequestGetsNoBody(a: Artifact, r: Request)
    requires !r.isPhpUnit && IsMachineRequest(r)
    requires InWindow(a, r.now) && Blocked(a, r)
    ensures GateExits(a, r)
    ensures Printed(GateEvents(a, r)) == [] && Comments(GateEvents(a, r)) == []
    ensures GateEvents(a, r)[|GateEvents(a, r)| - 1] == Exit(0)
    ensures forall e :: e in GateEvents(a, r) ==> !e.IncludeTemplate?
  {
    var hs := MaintenanceHeaders(r.serverProtocol, r.httpDate);
    HeadersAreHeaders(r.serverProtocol, r.httpDate);
    assert GateEvents(a, r) == RememberKey(a, r) + (hs + [Exit(0)]);
    SilentEvents(GateEvents(a, r));
  }

  /** A blocked interactive request gets the 503 status line first, and the
      gate then ends it: through the pre-rendered page when it exists, or
      with the plain apology. */
  lemma InteractiveRequestEnds(a: Artifact, r: Request)
    requires !r.isPhpUnit && !IsMachineRequest(r)
    requires InWindow(a, r.now) && Blocked(a, r)
    ensures GateExits(a, r)
    ensures GateEvents(a, r)[|RememberKey(a, r)|] == Header(r.serverProtocol + " 503 Moodle under maintenance", true)
    ensures GateEvents(a, r)[|GateEvents(a, r)| - 1] == (if r.templateExists then Exit(0) else Die(Apology))
    ensures r.templateExists ==> GateEvents(a, r)[|GateEvents(a, r)| - 2] == IncludeTemplate
  {
    var hs := MaintenanceHeaders(r.serverProtocol, r.httpDate);
    HeadersAreHeaders(r.serverProtocol, r.httpDate);
    assert hs[0] == Header(r.serverProtocol + " 503 Moodle under maintenance", true);
    var es := GateEvents(a, r);
    assert es == RememberKey(a, r) + (hs + (Diagnostics(a, r) + FallbackPage(r)));
    assert es[|RememberKey(a, r)|] == hs[0];
  }
}
