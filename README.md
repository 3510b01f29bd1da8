# auth_outage maintenance gate — a Dafny model

The Moodle `auth_outage` plugin keeps visitors out of a site during a
planned outage. It does this by compiling the outage in force, together with
the access policy, into a standalone PHP file, `climaintenance.php`, which
the host runs at the start of every request. The policy has two parts, each
optional:

- an IP allow-list, made of the per-plugin `allowedips` setting plus the
  site-wide `allowedips_forced` setting;
- the outage's access key.

This project models that gate and the compiler that writes it. The model is
built from the gate text and the scenarios in the plugin's test suite
(`tests/local/outagelib_test.php`). The `outagelib` library itself is not
part of this model.

- `optional.dfy` (`Optional`) — the `Option` type used for PHP's nullable
  values.
- `php_strings.dfy` (`PhpStrings`) — the PHP string semantics the gate
  depends on:
  - truthiness (`""` and `"0"` are false);
  - `trim()`-blankness;
  - `addslashes()`;
  - the value of a single-quoted PHP literal;
  - `explode("\n", …)`.
- `loose_compare.dfy` (`LooseCompare`) — PHP 8 loose `!=` between two
  strings, which the gate uses to compare keys. Integer-form numeric strings
  are compared as numbers; all other strings are compared byte for byte.
- `gate.dfy` (`Gate`) — the compiled policy (`Artifact`), what the gate
  reads from a request (`Request`), and what it does to the response
  (`Event`: cookie, header, printed comment, template, exit, die). It holds:
  - `GateEvents`, the specification function for one request;
  - the class `Response`, whose methods run the gate step by step,
    appending to the response's event log. They are proved equal to
    `GateEvents`.
- `gate_properties.dfy` (`GateProperties`) — what the gate promises: the
  window, the remember-key cookie, the block table, the diagnostics of test
  mode, and how blocked requests end.
- `compiler.dfy` (`Compiler`) — the compiler's decisions:
  - the IP-list merge;
  - embedding the list and the key as escaped literals;
  - when the gate file is removed instead of written. `Some(artifact)`
    means the file is written; `None` means it is removed or absent.
  - the end-to-end block decision of a written gate.
- `scenarios.dfy` (`Scenarios`) — the concrete cases of the test suite:
  - the generated text for a list with quotes;
  - the single-list configurations;
  - the removals;
  - the configuration merge;
  - the seven request scenarios of `evaluation_maintenancepage_provider`.

Facts about the code that the model follows:

- The remember-key cookie is set whenever the URL key is truthy. It is set
  whether or not that key is correct (lines 327-329).
- The compiler writes the gate for a window that has already elapsed. The
  test at lines 404-486 expects the file for the window [123, 456), long
  past. So the model deletes only for a missing outage or for an empty
  policy.

## Model

| member | source | states |
|---|---|---|
| Gate.Response.constructor | tests/local/outagelib_test.php:798 | the response starts with no events and not ended, as the output buffer opened before the gate runs |
| Gate.Response.ServeGate | tests/local/outagelib_test.php:316-386 | running the gate appends exactly `GateEvents(a, r)` to the response. It ends the request exactly when the request is inside the window, is blocked, and is not in test mode |
| Gate.Response.ServeBlocked | tests/local/outagelib_test.php:341-385 | the blocked branch appends the 503 headers (outside test mode), then either exit(0) for AJAX and web-service requests, or the diagnostics followed by the template and exit(0), or by die(). It ends the request exactly when not in test mode |
| Gate.Response.PrintDiagnostics | tests/local/outagelib_test.php:361-375 | the four guarded echo statements print one comment per enabled check, IP first, saying whether that check passed. Nothing else changes |
| GateProperties.IdleOutsideWindow | tests/local/outagelib_test.php:316 | outside the half-open window [start, stop) the gate produces no event and never ends the request |
| GateProperties.CookieOnlyFromUrlKey | tests/local/outagelib_test.php:325-329 | inside the window, a truthy URL key makes the gate set exactly one cookie: `auth_outage_accesskey` with that key, expiring at now + 86400, path `/`, with the secure and HTTP-only flags compiled into the gate. In every other case no cookie is set, and no other event sets one |
| GateProperties.RememberedKeyRoundTrip | tests/local/outagelib_test.php:327-332 | a later request with no URL key that presents the cookie the gate set is judged with the same key, and gets the same key verdict, as the request that set it |
| GateProperties.BlockDecisionTable | tests/local/outagelib_test.php:337-338 | the four-row policy table: no check never blocks, and either enabled check blocks on its own when it fails. A disabled check counts as passed |
| GateProperties.PassesThroughIffNotBlocked | tests/local/outagelib_test.php:338-341 | inside the window the gate adds nothing beyond the remember-key cookie exactly when the request is not blocked |
| GateProperties.DiagnosticsShape | tests/local/outagelib_test.php:361-375 | the diagnostics are comment events only, with one comment per enabled check, IP first, and no cookie |
| GateProperties.BlockedResponseCookies | tests/local/outagelib_test.php:341-385 | nothing in the blocked branch sets a cookie |
| GateProperties.MarkerOpensComment | tests/local/outagelib_test.php:361-375 | every diagnostic comment begins with the opening the test searches for |
| GateProperties.MarkersDistinct | tests/local/outagelib_test.php:681-684 | none of the four openings the test searches for occurs at the start of a different kind of comment |
| GateProperties.MarkerIdentifiesComment | tests/local/outagelib_test.php:681-684 | a comment beginning with an opening is that opening's own comment |
| GateProperties.TestModeComments | tests/local/outagelib_test.php:361-375 | in test mode inside the window, the printed comments are the diagnostics when the request is blocked, and nothing otherwise |
| GateProperties.TestModeReports | tests/local/outagelib_test.php:361-375 | in test mode each of the four openings is printed exactly when the request is inside the window, is blocked, has that check compiled in, and that check failed or passed as the opening says (both directions) |
| GateProperties.ReportedWhenDue | tests/local/outagelib_test.php:361-375 | the "if" direction: a blocked test-mode request prints the opening of every enabled check with its actual verdict |
| GateProperties.ReportedOnlyWhenDue | tests/local/outagelib_test.php:361-375 | the "only if" direction: a printed opening implies the window, the block, the enabled check and that verdict |
| GateProperties.ReportedIsPrinted | tests/local/outagelib_test.php:803-805 | a comment opening with a marker puts that marker into the printed text, which is what assertStringContainsString searches |
| GateProperties.TestModeOutput | tests/local/outagelib_test.php:361-375 | in test mode the number of comments is the number of enabled checks when blocked, and zero otherwise. An unblocked request prints nothing at all (the assertEmpty at 807-810) |
| GateProperties.TestModeNeverTerminates | tests/local/outagelib_test.php:342 | test mode never ends the request and only sets the cookie or prints comments: no header, template, exit or die |
| GateProperties.MachineRequestGetsNoBody | tests/local/outagelib_test.php:357-359 | a blocked AJAX or web-service request outside test mode ends with exit(0). It prints no comment and no body, and never includes the template |
| GateProperties.InteractiveRequestEnds | tests/local/outagelib_test.php:343-383 | a blocked interactive request gets the protocol's 503 status line first. It ends with the template followed by exit(0) when the template exists, and with die(apology) when it does not |
| PhpStrings.AddSlashes | tests/local/outagelib_test.php:334-336 | escaping never shortens the text, and at most doubles it |
| PhpStrings.AddSlashesStaysInLiteral | tests/local/outagelib_test.php:334-337 | the escaped text of any list or key can be embedded between single quotes without ending the literal early |
| PhpStrings.QuotedValue | tests/local/outagelib_test.php:334-336 | the literal reads back as the original text, except that every double quote or NUL keeps the backslash put before it |
| PhpStrings.QuotedLength | tests/local/outagelib_test.php:334-336 | the value read back is one character longer per double quote or NUL |
| PhpStrings.QuotingRoundTrip | tests/local/outagelib_test.php:334-337 | the embedded value equals the configured text exactly when that text holds no double quote and no NUL (both directions) |
| PhpStrings.QuotingRestores | tests/local/outagelib_test.php:334-337 | a text without double quotes or NULs reads back unchanged |
| PhpStrings.Restored | tests/local/outagelib_test.php:334-336 | the read-back text has one extra character per double quote or NUL |
| PhpStrings.AddSlashesOfPlain | tests/local/outagelib_test.php:481-486 | a value with nothing to escape, such as an address or a numeric key, is embedded verbatim |
| PhpStrings.AddSlashesAppend | tests/local/outagelib_test.php:334-336 | escaping is done character by character: it distributes over concatenation |
| PhpStrings.Lines | tests/local/outagelib_test.php:334-336 | a list always has at least one line |
| PhpStrings.LinesOfJoin | tests/local/outagelib_test.php:228 | joining two lists with a newline joins their lines |
| PhpStrings.LinesOfOneLine | tests/local/outagelib_test.php:687-735 | a single address is a one-line list |
| LooseCompare.LooseEqualsIsEquivalence | tests/local/outagelib_test.php:337 | the key comparison is reflexive, symmetric and transitive |
| LooseCompare.NonNumericKeyMatchesExactly | tests/local/outagelib_test.php:337 | under the modelled comparison, a configured key that is not an integer string is matched only by the very same string (the float-form gap is listed under Left out) |
| LooseCompare.EmptyMatchesOnlyEmpty | tests/local/outagelib_test.php:332-337 | a missing key (null, compared as "") matches no non-empty configured key |
| LooseCompare.LeadingZeroMatches | tests/local/outagelib_test.php:337 | a numeric key given with an extra leading zero passes the key check |
| Compiler.ConfigValue | tests/local/outagelib_test.php:255-271 | a setting that trims to nothing reads as unset (""), and any other setting reads as itself |
| Compiler.AllowedIps | tests/local/outagelib_test.php:222-228 | the merged list is empty exactly when both settings are blank |
| Compiler.CreateArtifact | tests/local/outagelib_test.php:312-338 | the window and the site's cookie flags are baked in as given. The IP check is on exactly for a non-empty list, and the key check exactly for a non-empty key. Both literals stay inside their quotes and read back as the configured values when these hold no double quote or NUL |
| Compiler.UpdateClimaintenanceCode | tests/local/outagelib_test.php:500-538 | the gate is removed exactly when there is no outage, or when there is neither an IP list nor a key. A written gate carries the outage's window, the site's cookie flags, at least one check, and each switch set by its part of the policy |
| Compiler.AllowedIpsLines | tests/local/outagelib_test.php:226-228 | the merged list's lines are the per-plugin lines followed by the forced lines |
| Compiler.ForcedEntriesAlwaysPresent | tests/local/outagelib_test.php:226-228 | every forced entry is a line of the merged list, and the forced entries come last, whatever the per-plugin setting holds |
| Compiler.EitherListAloneWrites | tests/local/outagelib_test.php:481-495 | either list set on its own writes a gate with the IP check on for exactly that list |
| Compiler.WrittenGateBlocksStranger | tests/local/outagelib_test.php:316-338 | a written gate blocks a caller with no key whose address is in no list, and outside test mode ends that request inside the window |
| Compiler.CompiledDecision | tests/local/outagelib_test.php:337-338 | end to end, for values without double quotes or NULs, the written gate blocks exactly when a configured key is not loosely equal to the given one, or a configured list does not hold the caller's address (both directions) |
| Compiler.DoubleQuoteNotRestored | tests/local/outagelib_test.php:334-336 | a list holding a double quote reaches the gate longer than configured, so the gate checks the caller against a different list |
| Scenarios.EscapedListArtifact | tests/local/outagelib_test.php:310-388 | for the list `hey'"you`, `a.b.c.d`, `e.e.e.e/20`, key 12345 and HTTP-only cookies switched off, the gate embeds `hey\'\"you` with the newlines kept and the key unchanged, and sets its cookie secure and not HTTP-only. The literal reads back with the backslash before the double quote still there |
| Scenarios.OwnListArtifact | tests/local/outagelib_test.php:398-486 | the per-plugin list 127.0.0.1 with key 5678 writes the gate for [123, 456) with both checks on, both values verbatim, and a secure, not HTTP-only cookie |
| Scenarios.ForcedListArtifact | tests/local/outagelib_test.php:481-495 | the forced list on its own writes the very same gate |
| Scenarios.RemovalCases | tests/local/outagelib_test.php:500-538 | no lists and no key removes the gate, and so does no outage |
| Scenarios.ConfigMerge | tests/local/outagelib_test.php:222-228 | the merged setting is `allowedips_value` alone, then `allowedips_value`, a newline and `allowedips_forced_value` |
| Scenarios.EvaluationGate | tests/local/outagelib_test.php:762-792 | the scenario's outage compiles to a written gate that is active now, with a check exactly for each configured value |
| Scenarios.EvaluationChecks | tests/local/outagelib_test.php:782-792 | the compiled gate fails the IP check exactly when the address differs from the configured one. It fails the key check exactly when the key given is not loosely equal to the configured one |
| Scenarios.EvaluationMatchesTable | tests/local/outagelib_test.php:755-811 | for every scenario of this shape, the gate's output holds exactly the openings the policy table predicts, its printed text contains each of them (the assertStringContainsString at 803-805), and it is empty when none is predicted |
| Scenarios.WrongIsNotTheKey | tests/local/outagelib_test.php:701-707 | the key "wrong" does not match 12345 |
| Scenarios.IpAllowedNoKeySetup | tests/local/outagelib_test.php:687-693 | a gate is written and prints nothing |
| Scenarios.IpNotAllowedNoKeySetup | tests/local/outagelib_test.php:694-700 | exactly the "Blocked by ip" opening is printed |
| Scenarios.KeyIncorrectNoIpSetup | tests/local/outagelib_test.php:701-707 | exactly the "Blocked by missing or incorrect access key" opening is printed |
| Scenarios.KeyCorrectNoIpSetup | tests/local/outagelib_test.php:708-714 | a gate is written and prints nothing |
| Scenarios.KeyCorrectIpIncorrect | tests/local/outagelib_test.php:715-721 | exactly the "access key is allowed" and "Blocked by ip" openings are printed |
| Scenarios.KeyIncorrectIpCorrect | tests/local/outagelib_test.php:722-728 | exactly the "Blocked by missing or incorrect access key" and "IP is allowed" openings are printed |
| Scenarios.KeyCorrectIpCorrect | tests/local/outagelib_test.php:729-735 | a gate is written and prints nothing |

## Left out

- The `outagelib` library is not part of this model. Its two switches are
  inferred from the gate text and the tests: the IP check is on for a
  non-empty merged list, and the key check for a key that is present and
  non-empty. Treating any non-null key as a key policy would differ only
  for the empty key.
- `remoteip_in_list()` (CIDR ranges, wildcards) and `getremoteaddr()` are
  Moodle library calls. The request carries list membership as an
  uninterpreted function, and the remote address as a string. The scenarios
  stand in for it with exact match against one of the lines.
- `optional_param(…, PARAM_TEXT)` cleaning is not modelled. The URL key is
  taken as given.
- `time()` is read once per request (`Request.now`). The header text of
  `gmdate()` is a parameter.
- File I/O is represented by events and results, not performed: writing
  and deleting `climaintenance.php`, `file_exists`, and including the HTML
  template. The template's content is not modelled.
- The `MOODLE_INTERNAL` define and the `require_once` lines (317-323) are
  not modelled. They load libraries and decide nothing.
- LooseCompare.LooseEquals: numeric strings are modelled in their integer
  form within PHP's 64-bit range. Floats, exponents, hexadecimal-looking
  text and integers past the 64-bit range, which PHP compares as floats,
  are compared byte for byte instead.
- LooseCompare.NonNumericKeyMatchesExactly: holds for the modelled
  comparison only. In PHP 8 a float-form key such as "1.0" is also matched
  by "1" or "1e0".
- Compiler.CreateArtifact: the cookie flags are taken from the site's
  settings as given. How the library derives the secure flag is not part of
  this model; the tests show it set.
- PhpStrings.AddSlashes: the test pins only the escaping of `'` and `"`.
  The escaping of backslash and NUL follows PHP's `addslashes()`.
- Compiler.ConfigValue: a blank setting reads as "". That is the result the
  test at 255-271 gets when the default is empty; other defaults are not
  modelled.
- Compiler.AllowedIps: blank lines inside a setting are kept as they are;
  only a wholly blank setting is dropped.
- The state evaluator, which picks the active or next outage, is not part
  of this model, and neither are:
  - the warning-banner injector (`get_inject_code`) and its once per
    response flag;
  - persistence (`outagedb`, `set_config`);
  - the maintenance-message side effects;
  - the admin list page.
- Compiler.Outage keeps only the window and the access key. The outage's
  other fields (autostart, warning time, title, description) are not read
  by the compiler or the gate.
- Concurrency and atomic replacement of the gate file are not modelled.
