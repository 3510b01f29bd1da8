/** The gate compiler: from the outage in force and the access-policy
    configuration it either writes a gate artifact or removes it. The
    artifact is the structured policy of module Gate; writing it is
    `Some(artifact)`, removing it (or leaving no file) is `None`. */
module Compiler {
  import opened Optional
  import opened PhpStrings
  import opened LooseCompare
  import opened Gate

  /** An outage record, reduced to the fields the compiler reads: its
      window and its access key. */
  datatype Outage = Outage(startTime: int, stopTime: int, accessKey: Option<string>)

  /** The settings the compiler reads: the two plugin settings the IP list
      is assembled from, as stored, and the site's cookie flags
      (`$CFG->cookiehttponly` among them) baked into the remember-key
      cookie. */
  datatype Config = Config(allowedIps: string, allowedIpsForced: string, cookieFlags: CookieFlags)

  /** A setting that trims to nothing counts as unset. */
  function ConfigValue(raw: string): (v: string)
    ensures v == "" <==> IsBlank(raw)
    ensures v != "" ==> v == raw
  {
    if IsBlank(raw) then "" else raw
  }

  /** get_config()->allowedips: the per-plugin list, then a newline, then
      the forced list; an unset part contributes no line. */
  function AllowedIps(cfg: Config): (ips: string)
    ensures ips == "" <==> IsBlank(cfg.allowedIps) && IsBlank(cfg.allowedIpsForced)
  {
    var own, forced := ConfigValue(cfg.allowedIps), ConfigValue(cfg.allowedIpsForced);
    if forced == "" then own
    else if own == "" then forced
    else own + "\n" + forced
  }

  /** The key check is compiled in when the outage has a non-empty key. */
  predicate HasKeyPolicy(key: Option<string>) {
    key.Some? && key.value != ""
  }

  /** No character of `s` is one that quoting fails to restore. */
  predicate QuotesCleanly(s: string) {
    forall i :: 0 <= i < |s| ==> !QuotingLoses(s[i])
  }

  /** create_climaintenancephp_code(start, stop, allowedips, accesskey): the
      window, the two switches and the site's cookie flags are baked in, and
      the list and the key are embedded as single-quoted literals escaped
      with addslashes(). Both literals stay inside their quotes, and they
      read back as the configured values whenever those hold no double quote
      and no NUL. */
  function CreateArtifact(start: int, stop: int, allowedIps: string, accessKey: Option<string>,
                          cookieFlags: CookieFlags): (a: Artifact)
    ensures a.start == start && a.stop == stop && a.cookieFlags == cookieFlags
    ensures a.ipOn <==> allowedIps != ""
    ensures a.keyOn <==> HasKeyPolicy(accessKey)
    ensures StaysInLiteral(a.ipLiteral) && StaysInLiteral(a.keyLiteral)
    ensures QuotesCleanly(allowedIps) ==> LiteralValue(a.ipLiteral) == allowedIps
    ensures QuotesCleanly(accessKey.GetOr("")) ==> LiteralValue(a.keyLiteral) == accessKey.GetOr("")
  {
    var key := accessKey.GetOr("");
    AddSlashesStaysInLiteral(allowedIps);
    AddSlashesStaysInLiteral(key);
    QuotingRoundTrip(allowedIps);
    QuotingRoundTrip(key);
    Artifact(start, stop, allowedIps != "", AddSlashes(allowedIps), HasKeyPolicy(accessKey), AddSlashes(key), cookieFlags)
  }

  /** update_climaintenance_code($outage): no outage, or neither an IP list
      nor a key, removes the artifact; otherwise the artifact for the
      outage's window and the current policy is written, and it always has
      at least one check compiled in. */
  function UpdateClimaintenanceCode(outage: Option<Outage>, cfg: Config): (r: Option<Artifact>)
    ensures r.None? <==> outage.None? || (AllowedIps(cfg) == "" && !HasKeyPolicy(outage.value.accessKey))
    ensures r.Some? ==> r.value.start == outage.value.startTime && r.value.stop == outage.value.stopTime
    ensures r.Some? ==> r.value.cookieFlags == cfg.cookieFlags
    ensures r.Some? ==> r.value.ipOn || r.value.keyOn
    ensures r.Some? ==> (r.value.ipOn <==> AllowedIps(cfg) != "")
    ensures r.Some? ==> (r.value.keyOn <==> HasKeyPolicy(outage.value.accessKey))
  {
    if outage.None? then None
    else
      var ips := AllowedIps(cfg);
      if ips == "" && !HasKeyPolicy(outage.value.accessKey) then None
      else Some(CreateArtifact(outage.value.startTime, outage.value.stopTime, ips, outage.value.accessKey, cfg.cookieFlags))
  }

  // ---- properties of the compiler ----

  /** The lines of the assembled list are the per-plugin lines followed by
      the forced lines, each part present only when it is set. */
  lemma AllowedIpsLines(cfg: Config)
    requires AllowedIps(cfg) != ""
    ensures Lines(AllowedIps(cfg)) ==
            (if IsBlank(cfg.allowedIps) then [] else Lines(cfg.allowedIps)) +
            (if IsBlank(cfg.allowedIpsForced) then [] else Lines(cfg.allowedIpsForced))
  {
    if !IsBlank(cfg.allowedIps) && !IsBlank(cfg.allowedIpsForced) {
      LinesOfJoin(cfg.allowedIps, cfg.allowedIpsForced);
    }
  }

  /** Editing the per-plugin list cannot remove a forced entry: every forced
      line is a line of the assembled list, and they come last. */
  lemma ForcedEntriesAlwaysPresent(cfg: Config)
    requires !IsBlank(cfg.allowedIpsForced)
    ensures |Lines(AllowedIps(cfg))| >= |Lines(cfg.allowedIpsForced)|
    ensures Lines(AllowedIps(cfg))[|Lines(AllowedIps(cfg))| - |Lines(cfg.allowedIpsForced)|..] == Lines(cfg.allowedIpsForced)
    ensures forall line :: line in Lines(cfg.allowedIpsForced) ==> line in Lines(AllowedIps(cfg))
  {
    AllowedIpsLines(cfg);
    var own := if IsBlank(cfg.allowedIps) then [] else Lines(cfg.allowedIps);
    var all := Lines(AllowedIps(cfg));
    assert all == own + Lines(cfg.allowedIpsForced);
    assert all[|own|..] == Lines(cfg.allowedIpsForced);
  }

  /** Either list on its own is enough for an artifact to be written with the
      IP check on, and the gate then asks about exactly that list. */
  lemma EitherListAloneWrites(o: Outage, cfg: Config)
    requires IsBlank(cfg.allowedIps) != IsBlank(cfg.allowedIpsForced)
    ensures UpdateClimaintenanceCode(Some(o), cfg).Some?
    ensures UpdateClimaintenanceCode(Some(o), cfg).value.ipOn
    ensures AllowedIps(cfg) == if IsBlank(cfg.allowedIps) then cfg.allowedIpsForced else cfg.allowedIps
  {
  }

  /** A written artifact never lets in a caller that has no key and whose
      address is in no list: whichever check it carries turns that caller
      away, and outside test mode ends the request inside the window. */
  lemma WrittenGateBlocksStranger(o: Outage, cfg: Config, r: Request)
    requires UpdateClimaintenanceCode(Some(o), cfg).Some?
    requires r.urlKey.None? && r.cookieKey.None?
    requires forall list :: !r.ipInList(list)
    ensures Blocked(UpdateClimaintenanceCode(Some(o), cfg).value, r)
    ensures InWindow(UpdateClimaintenanceCode(Some(o), cfg).value, r.now) && !r.isPhpUnit ==>
            GateExits(UpdateClimaintenanceCode(Some(o), cfg).value, r)
  {
    var a := UpdateClimaintenanceCode(Some(o), cfg).value;
    if a.keyOn {
      var key := o.accessKey.value;
      QuotedLength(key);
      EmptyMatchesOnlyEmpty(LiteralValue(a.keyLiteral));
      assert KeyBlocked(a, r);
    }
  }

  /** End to end: when neither the list nor the key holds a double quote or
      NUL, the written gate blocks exactly by the compiler's policy table —
      a wrong key blocks when a key is set, an address outside the list
      blocks when a list is set, and nothing else blocks. */
  lemma CompiledDecision(o: Outage, cfg: Config, r: Request)
    requires UpdateClimaintenanceCode(Some(o), cfg).Some?
    requires QuotesCleanly(AllowedIps(cfg)) && QuotesCleanly(o.accessKey.GetOr(""))
    ensures Blocked(UpdateClimaintenanceCode(Some(o), cfg).value, r) <==>
            (HasKeyPolicy(o.accessKey) && !LooseEquals(UserKey(r).GetOr(""), o.accessKey.value)) ||
            (AllowedIps(cfg) != "" && !r.ipInList(AllowedIps(cfg)))
  {
  }

  /** The escaping is not undone for a double quote: a list that holds one
      reaches the gate with an extra backslash, so the gate checks the caller
      against a different list from the configured one. */
  lemma DoubleQuoteNotRestored(o: Outage, cfg: Config)
    requires UpdateClimaintenanceCode(Some(o), cfg).Some?
    requires !QuotesCleanly(AllowedIps(cfg))
    ensures LiteralValue(UpdateClimaintenanceCode(Some(o), cfg).value.ipLiteral) != AllowedIps(cfg)
    ensures |LiteralValue(UpdateClimaintenanceCode(Some(o), cfg).value.ipLiteral)| > |AllowedIps(cfg)|
  {
    var s := AllowedIps(cfg);
    var i :| 0 <= i < |s| && QuotingLoses(s[i]);
    LostCountPositive(s, i);
    QuotedLength(s);
  }
}
