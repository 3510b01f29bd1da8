/** The concrete cases the test suite pins down: the generated text for a
    list with quotes, the two single-list configurations, the two removals,
    the configuration merge, and the seven request scenarios run against a
    freshly compiled gate in test mode. */
module Scenarios {
  import opened Optional
  import opened PhpStrings
  import opened LooseCompare
  import opened Gate
  import opened GateProperties
  import opened Compiler

  // ---- compiler cases ----

  predicate NothingToEscape(s: string) {
    forall i :: 0 <= i < |s| ==> !NeedsEscape(s[i])
  }

  lemma QuotePairEscaped(head: string, rest: string)
    requires NothingToEscape(head) && NothingToEscape(rest)
    ensures AddSlashes(head + "'\"" + rest) == head + "\\'\\\"" + rest
  {
    var q := "'\"";
    AddSlashesOfPlain(head);
    AddSlashesOfPlain(rest);
    AddSlashesAppend(head + q, rest);
    AddSlashesAppend(head, q);
    assert AddSlashes(q) == "\\'\\\"";
  }

  lemma QuotePairRead(head: string, rest: string)
    requires NothingToEscape(head) && NothingToEscape(rest)
    ensures LiteralValue(AddSlashes(head + "'\"" + rest)) == head + "'\\\"" + rest
  {
    QuotedValue(head + "'\"" + rest);
    QuotePairRestored(head, rest);
  }

  lemma QuotePairRestored(head: string, rest: string)
    requires NothingToEscape(head) && NothingToEscape(rest)
    ensures Restored(head + "'\"" + rest) == head + "'\\\"" + rest
  {
    var q := "'\"";
    assert forall i :: 0 <= i < |head| ==> !QuotingLoses(head[i]);
    assert forall i :: 0 <= i < |rest| ==> !QuotingLoses(rest[i]);
    RestoredOfClean(head);
    RestoredOfClean(rest);
    RestoredAppend(head + q, rest);
    RestoredAppend(head, q);
    assert Restored(q) == "'\\\"";
  }

  const ListHead: string := "hey"
  const ListRest: string := "you\na.b.c.d\ne.e.e.e/20"

  lemma ListPiecesPlain()
    ensures NothingToEscape(ListHead) && NothingToEscape(ListRest) && NothingToEscape("12345")
  {
  }

  lemma ListPiecesJoin()
    ensures "hey'\"you\na.b.c.d\ne.e.e.e/20" == ListHead + "'\"" + ListRest
  {
  }

  lemma EscapedPiecesJoin()
    ensures "hey\\'\\\"you\na.b.c.d\ne.e.e.e/20" == ListHead + "\\'\\\"" + ListRest
  {
  }

  lemma ReadPiecesJoin()
    ensures "hey'\\\"you\na.b.c.d\ne.e.e.e/20" == ListHead + "'\\\"" + ListRest
  {
  }

  /** The quote and the double quote of the list get a backslash, the
      newlines stay as they are, and the key is embedded unchanged; reading
      the literal back keeps the backslash before the double quote. */
  lemma EscapedListArtifact()
    ensures CreateArtifact(123, 456, "hey'\"you\na.b.c.d\ne.e.e.e/20", Some("12345"), TestCookies) ==
            Artifact(123, 456, true, "hey\\'\\\"you\na.b.c.d\ne.e.e.e/20", true, "12345", CookieFlags(true, false))
    ensures LiteralValue(CreateArtifact(123, 456, "hey'\"you\na.b.c.d\ne.e.e.e/20", Some("12345"), TestCookies).ipLiteral) ==
            "hey'\\\"you\na.b.c.d\ne.e.e.e/20"
  {
    ListPiecesPlain();
    ListPiecesJoin();
    EscapedPiecesJoin();
    ReadPiecesJoin();
    QuotePairEscaped(ListHead, ListRest);
    QuotePairRead(ListHead, ListRest);
    AddSlashesOfPlain("12345");
  }

  function TestOutage(start: int, stop: int, accessKey: Option<string>): Outage {
    Outage(start, stop, accessKey)
  }

  /** The cookie flags of the artifact tests: secure, and HTTP-only switched
      off by `$CFG->cookiehttponly = false`. */
  const TestCookies: CookieFlags := CookieFlags(true, false)

  lemma ConfigValues()
    ensures ConfigValue("127.0.0.1") == "127.0.0.1" && ConfigValue("") == ""
    ensures ConfigValue("allowedips_value") == "allowedips_value"
    ensures ConfigValue("allowedips_forced_value") == "allowedips_forced_value"
  {
    assert !IsTrimChar("127.0.0.1"[0]) && IsBlank("");
    assert !IsTrimChar("allowedips_value"[0]) && !IsTrimChar("allowedips_forced_value"[0]);
  }

  lemma PlainKey()
    ensures AddSlashes("5678") == "5678"
  {
    assert NothingToEscape("5678");
    AddSlashesOfPlain("5678");
  }

  lemma PlainAddress()
    ensures AddSlashes("127.0.0.1") == "127.0.0.1"
  {
    assert NothingToEscape("127.0.0.1");
    AddSlashesOfPlain("127.0.0.1");
  }

  /** With only the per-plugin list set to 127.0.0.1 and key 5678, the gate
      is written with both checks on. */
  lemma OwnListArtifact()
    ensures UpdateClimaintenanceCode(Some(TestOutage(123, 456, Some("5678"))), Config("127.0.0.1", "", TestCookies)) ==
            Some(Artifact(123, 456, true, "127.0.0.1", true, "5678", CookieFlags(true, false)))
  {
    ConfigValues();
    PlainAddress();
    PlainKey();
  }

  /** With only the forced list set, the very same gate is written. */
  lemma ForcedListArtifact()
    ensures UpdateClimaintenanceCode(Some(TestOutage(123, 456, Some("5678"))), Config("", "127.0.0.1", TestCookies)) ==
            Some(Artifact(123, 456, true, "127.0.0.1", true, "5678", CookieFlags(true, false)))
  {
    ConfigValues();
    PlainAddress();
    PlainKey();
  }

  /** No lists and no key removes the gate; so does no outage at all. */
  lemma RemovalCases(cfg: Config)
    ensures UpdateClimaintenanceCode(Some(TestOutage(123, 456, None)), Config("", "", TestCookies)) == None
    ensures UpdateClimaintenanceCode(None, cfg) == None
  {
    ConfigValues();
  }

  /** get_config() before and after the forced list is set. */
  lemma ConfigMerge()
    ensures AllowedIps(Config("allowedips_value", "", TestCookies)) == "allowedips_value"
    ensures AllowedIps(Config("allowedips_value", "allowedips_forced_value", TestCookies)) ==
            "allowedips_value\nallowedips_forced_value"
  {
    ConfigValues();
  }

  // ---- the request scenarios ----

  /** The outage of the scenarios: it started 100 s ago and ends in 200 s. */
  function EvaluationOutage(now: int, accessKey: Option<string>): Outage {
    Outage(now - 100, now + 200, accessKey)
  }

  /** An unset list leaves the per-plugin setting empty. The cookie flags
      play no part in what the scenarios check. */
  function EvaluationConfig(allowedIps: Option<string>): Config {
    Config(allowedIps.GetOr(""), "", TestCookies)
  }

  /** The request in test mode: the address, when set, is the remote
      address (otherwise getremoteaddr() answers "n/a"), the key, when set,
      is the URL parameter, and there is no cookie. The list lookup stands
      in for remoteip_in_list() on plain addresses: the address must be one
      of the lines. */
  function EvaluationRequest(now: int, ipToUse: Option<string>, accessKeyToUse: Option<string>): Request {
    var addr := ipToUse.GetOr("n/a");
    Request(now, accessKeyToUse, None, addr, (list: string) => addr in Lines(list),
            true, false, false, false, "HTTP/1.1", "")
  }

  /** The events of the compiled gate on the scenario's request, if a gate
      is written. */
  function Evaluation(now: int, allowedIps: Option<string>, ipToUse: Option<string>,
                      accessKey: Option<string>, accessKeyToUse: Option<string>): Option<seq<Event>>
  {
    match UpdateClimaintenanceCode(Some(EvaluationOutage(now, accessKey)), EvaluationConfig(allowedIps))
    case None => None
    case Some(a) => Some(GateEvents(a, EvaluationRequest(now, ipToUse, accessKeyToUse)))
  }

  /** The scenario's address is not the configured one. */
  predicate IpBad(allowedIps: Option<string>, ipToUse: Option<string>) {
    allowedIps.Some? && ipToUse.GetOr("n/a") != allowedIps.value
  }

  /** The scenario's key, read as the gate reads it, is not the configured one. */
  predicate KeyBad(accessKey: Option<string>, accessKeyToUse: Option<string>) {
    var given := if accessKeyToUse.Some? && !IsFalsy(accessKeyToUse.value) then accessKeyToUse.value else "";
    accessKey.Some? && !LooseEquals(given, accessKey.value)
  }

  /** The comments the scenario expects, by the policy table: when the
      caller is turned away, one comment per configured check saying whether
      it passed; otherwise none. */
  function ExpectedMarkers(allowedIps: Option<string>, ipToUse: Option<string>,
                           accessKey: Option<string>, accessKeyToUse: Option<string>): set<(Check, bool)>
  {
    var ipBad, keyBad := IpBad(allowedIps, ipToUse), KeyBad(accessKey, accessKeyToUse);
    if !(ipBad || keyBad) then {}
    else (if allowedIps.Some? then {(IpCheck, !ipBad)} else {}) +
         (if accessKey.Some? then {(KeyCheck, !keyBad)} else {})
  }

  /** The output holds exactly the expected comment openings, the printed
      text contains each of them, and nothing at all is printed when none is
      expected. */
  predicate Outcome(es: seq<Event>, expected: set<(Check, bool)>) {
    (forall c, p :: Reports(es, Marker(c, p)) <==> (c, p) in expected) &&
    (forall c, p :: (c, p) in expected ==> Contains(Printed(es), Marker(c, p))) &&
    (expected == {} ==> Printed(es) == [])
  }

  predicate OneAddress(s: string) {
    !IsBlank(s) && QuotesCleanly(s) && forall i :: 0 <= i < |s| ==> s[i] != '\n'
  }

  /** What the scenarios demand of their settings: a one-address list, a
      non-empty key with no quote to lose, and at least one of the two. */
  predicate Configured(allowedIps: Option<string>, accessKey: Option<string>) {
    (allowedIps.Some? ==> OneAddress(allowedIps.value)) &&
    (accessKey.Some? ==> accessKey.value != "" && QuotesCleanly(accessKey.value)) &&
    (allowedIps.Some? || accessKey.Some?)
  }

  /** The gate compiled for a scenario: written, inside its window at
      `now`, with a check for each configured value, and reading back the
      configured values. */
  lemma EvaluationGate(now: int, allowedIps: Option<string>, accessKey: Option<string>)
    requires Configured(allowedIps, accessKey)
    ensures UpdateClimaintenanceCode(Some(EvaluationOutage(now, accessKey)), EvaluationConfig(allowedIps)).Some?
    ensures var a := UpdateClimaintenanceCode(Some(EvaluationOutage(now, accessKey)), EvaluationConfig(allowedIps)).value;
            InWindow(a, now) && a.ipOn == allowedIps.Some? && a.keyOn == accessKey.Some? &&
            LiteralValue(a.ipLiteral) == allowedIps.GetOr("") && LiteralValue(a.keyLiteral) == accessKey.GetOr("")
  {
    assert IsBlank("");
    var cfg := EvaluationConfig(allowedIps);
    assert AllowedIps(cfg) == allowedIps.GetOr("");
    assert QuotesCleanly("");
  }

  /** The compiled gate fails each check exactly when the scenario says so. */
  lemma EvaluationChecks(now: int, allowedIps: Option<string>, ipToUse: Option<string>,
                         accessKey: Option<string>, accessKeyToUse: Option<string>)
    requires Configured(allowedIps, accessKey)
    ensures var a := UpdateClimaintenanceCode(Some(EvaluationOutage(now, accessKey)), EvaluationConfig(allowedIps)).value;
            var r := EvaluationRequest(now, ipToUse, accessKeyToUse);
            (a.ipOn ==> (IpBlocked(a, r) <==> IpBad(allowedIps, ipToUse))) &&
            (a.keyOn ==> (KeyBlocked(a, r) <==> KeyBad(accessKey, accessKeyToUse)))
  {
    EvaluationGate(now, allowedIps, accessKey);
    if allowedIps.Some? {
      LinesOfOneLine(allowedIps.value);
    }
  }

  /** For a one-address list and a key with no quote to lose, the compiled
      gate prints exactly what the policy table predicts. */
  lemma EvaluationMatchesTable(now: int, allowedIps: Option<string>, ipToUse: Option<string>,
                               accessKey: Option<string>, accessKeyToUse: Option<string>)
    requires Configured(allowedIps, accessKey)
    ensures Evaluation(now, allowedIps, ipToUse, accessKey, accessKeyToUse).Some?
    ensures Outcome(Evaluation(now, allowedIps, ipToUse, accessKey, accessKeyToUse).value,
                    ExpectedMarkers(allowedIps, ipToUse, accessKey, accessKeyToUse))
  {
    EvaluationGate(now, allowedIps, accessKey);
    EvaluationChecks(now, allowedIps, ipToUse, accessKey, accessKeyToUse);
    var a := UpdateClimaintenanceCode(Some(EvaluationOutage(now, accessKey)), EvaluationConfig(allowedIps)).value;
    var r := EvaluationRequest(now, ipToUse, accessKeyToUse);
    var es := GateEvents(a, r);
    assert Evaluation(now, allowedIps, ipToUse, accessKey, accessKeyToUse) == Some(es);
    var expected := ExpectedMarkers(allowedIps, ipToUse, accessKey, accessKeyToUse);
    assert Blocked(a, r) <==> IpBad(allowedIps, ipToUse) || KeyBad(accessKey, accessKeyToUse);
    forall c, p ensures Reports(es, Marker(c, p)) <==> (c, p) in expected {
      TestModeReports(a, r, c, p);
      ExpectedMembership(allowedIps, ipToUse, accessKey, accessKeyToUse, c, p);
    }
    forall c, p | (c, p) in expected ensures Contains(Printed(es), Marker(c, p)) {
      ReportedIsPrinted(es, Marker(c, p));
    }
    if expected == {} {
      TestModeOutput(a, r);
    }
  }

  lemma ExpectedMembership(allowedIps: Option<string>, ipToUse: Option<string>,
                           accessKey: Option<string>, accessKeyToUse: Option<string>, c: Check, p: bool)
    ensures (c, p) in ExpectedMarkers(allowedIps, ipToUse, accessKey, accessKeyToUse) <==>
            (IpBad(allowedIps, ipToUse) || KeyBad(accessKey, accessKeyToUse)) &&
            match c
            case IpCheck => allowedIps.Some? && p == !IpBad(allowedIps, ipToUse)
            case KeyCheck => accessKey.Some? && p == !KeyBad(accessKey, accessKeyToUse)
  {
  }

  /** "wrong" is not a number, so it matches only itself. */
  lemma WrongIsNotTheKey()
    ensures !LooseEquals("wrong", "12345")
  {
    assert TrimLeft("wrong") == "wrong";
    assert TrimRight("wrong") == "wrong";
    assert Magnitude("wrong") == "wrong";
    assert !IsDigit("wrong"[0]);
    NonNumericKeyMatchesExactly("12345", "wrong");
    LooseEqualsIsEquivalence("wrong", "12345", "");
  }

  lemma ScenarioValues()
    ensures OneAddress("127.0.0.1") && OneAddress("5.5.5.5") && QuotesCleanly("12345")
    ensures "127.0.0.1" != "5.5.5.5" && "12345" != "" && !IsFalsy("12345") && !IsFalsy("wrong")
  {
    assert !IsTrimChar("127.0.0.1"[0]) && !IsTrimChar("5.5.5.5"[0]);
    assert "127.0.0.1"[0] != "5.5.5.5"[0];
  }

  lemma KeyResults()
    ensures !KeyBad(Some("12345"), Some("12345"))
    ensures KeyBad(Some("12345"), Some("wrong"))
  {
    ScenarioValues();
    WrongIsNotTheKey();
    LooseEqualsIsEquivalence("12345", "12345", "12345");
  }

  lemma IpResults()
    ensures !IpBad(Some("127.0.0.1"), Some("127.0.0.1"))
    ensures IpBad(Some("5.5.5.5"), Some("127.0.0.1"))
    ensures IpBad(Some("127.0.0.1"), Some("5.5.5.5"))
  {
    ScenarioValues();
  }

  lemma IpAllowedNoKeySetup(now: int)
    ensures Evaluation(now, Some("127.0.0.1"), Some("127.0.0.1"), None, None).Some?
    ensures Outcome(Evaluation(now, Some("127.0.0.1"), Some("127.0.0.1"), None, None).value, {})
  {
    ScenarioValues();
    IpResults();
    EvaluationMatchesTable(now, Some("127.0.0.1"), Some("127.0.0.1"), None, None);
  }

  lemma IpNotAllowedNoKeySetup(now: int)
    ensures Evaluation(now, Some("5.5.5.5"), Some("127.0.0.1"), None, None).Some?
    ensures Outcome(Evaluation(now, Some("5.5.5.5"), Some("127.0.0.1"), None, None).value, {(IpCheck, false)})
  {
    ScenarioValues();
    IpResults();
    EvaluationMatchesTable(now, Some("5.5.5.5"), Some("127.0.0.1"), None, None);
  }

  lemma KeyIncorrectNoIpSetup(now: int)
    ensures Evaluation(now, None, None, Some("12345"), Some("wrong")).Some?
    ensures Outcome(Evaluation(now, None, None, Some("12345"), Some("wrong")).value, {(KeyCheck, false)})
  {
    ScenarioValues();
    KeyResults();
    IpResults();
    EvaluationMatchesTable(now, None, None, Some("12345"), Some("wrong"));
  }

  lemma KeyCorrectNoIpSetup(now: int)
    ensures Evaluation(now, None, None, Some("12345"), Some("12345")).Some?
    ensures Outcome(Evaluation(now, None, None, Some("12345"), Some("12345")).value, {})
  {
    ScenarioValues();
    KeyResults();
    IpResults();
    EvaluationMatchesTable(now, None, None, Some("12345"), Some("12345"));
  }

  lemma KeyCorrectIpIncorrect(now: int)
    ensures Evaluation(now, Some("127.0.0.1"), Some("5.5.5.5"), Some("12345"), Some("12345")).Some?
    ensures Outcome(Evaluation(now, Some("127.0.0.1"), Some("5.5.5.5"), Some("12345"), Some("12345")).value,
                    {(KeyCheck, true), (IpCheck, false)})
  {
    ScenarioValues();
    KeyResults();
    IpResults();
    EvaluationMatchesTable(now, Some("127.0.0.1"), Some("5.5.5.5"), Some("12345"), Some("12345"));
  }

  lemma KeyIncorrectIpCorrect(now: int)
    ensures Evaluation(now, Some("127.0.0.1"), Some("127.0.0.1"), Some("12345"), Some("wrong")).Some?
    ensures Outcome(Evaluation(now, Some("127.0.0.1"), Some("127.0.0.1"), Some("12345"), Some("wrong")).value,
                    {(KeyCheck, false), (IpCheck, true)})
  {
    ScenarioValues();
    KeyResults();
    IpResults();
    EvaluationMatchesTable(now, Some("127.0.0.1"), Some("127.0.0.1"), Some("12345"), Some("wrong"));
  }

  lemma KeyCorrectIpCorrect(now: int)
    ensures Evaluation(now, Some("127.0.0.1"), Some("127.0.0.1"), Some("12345"), Some("12345")).Some?
    ensures Outcome(Evaluation(now, Some("127.0.0.1"), Some("127.0.0.1"), Some("12345"), Some("12345")).value, {})
  {
    ScenarioValues();
    KeyResults();
    IpResults();
    EvaluationMatchesTable(now, Some("127.0.0.1"), Some("127.0.0.1"), Some("12345"), Some("12345"));
  }
}
