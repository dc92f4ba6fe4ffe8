/** From a confirmed package change to the request that is carried out: the repository is looked up a
    second time in between, and may have changed. */
module PackageExecution {
  import opened Wrappers
  import Text
  import opened PackageConfirmation

  // ----- the catalog -----

  /** A managed repository that is enabled and whose credentials can be read. */
  datatype Repository = Repository(url: string, oci: bool, username: string, password: string,
                                   allowPrivateNetwork: bool)

  function TrimSlashesLeft(s: string): string {
    if s != "" && s[0] == '/' then TrimSlashesLeft(s[1..]) else s
  }

  function TrimSlashesRight(s: string): string {
    if s != "" && s[|s| - 1] == '/' then TrimSlashesRight(s[..|s| - 1]) else s
  }

  predicate IsManaged(source: ChartSource) { source.uploadId == "" && source.repositoryId != 0 }

  /** `item` is the repository the catalog finds for the source's number. */
  function ResolveSource(source: ChartSource, item: Option<Repository>): Option<ChartSource> {
    if !IsManaged(source) then Some(source)
    else match item
      case None => None
      case Some(r) =>
        var resolved :=
          ChartSource(source.chart, r.url, source.version, source.repositoryId, "", r.username, r.password,
                      r.allowPrivateNetwork);
        Some(if !r.oci then resolved
             else resolved.(chart := TrimSlashesRight(r.url) + "/" + TrimSlashesLeft(source.chart), repoUrl := ""))
  }

  lemma {:induction false} LeftSlashesTrimmed(s: string) returns (cut: string)
    ensures s == cut + TrimSlashesLeft(s) && (forall c | c in cut :: c == '/')
    ensures TrimSlashesLeft(s) != "" ==> TrimSlashesLeft(s)[0] != '/'
  {
    cut := "";
    if s != "" && s[0] == '/' {
      cut := LeftSlashesTrimmed(s[1..]);
      cut := ['/'] + cut;
    }
  }

  lemma {:induction false} RightSlashesTrimmed(s: string) returns (cut: string)
    ensures s == TrimSlashesRight(s) + cut && (forall c | c in cut :: c == '/')
    ensures TrimSlashesRight(s) != "" ==> TrimSlashesRight(s)[|TrimSlashesRight(s)| - 1] != '/'
  {
    cut := "";
    if s != "" && s[|s| - 1] == '/' {
      cut := RightSlashesTrimmed(s[..|s| - 1]);
      cut := cut + ['/'];
    }
  }

  /** What a lookup gives: version and number as asked for, address and credentials of the repository, and for
      OCI the chart as part of the address. */
  lemma ResolvedMeans(source: ChartSource, item: Option<Repository>)
    ensures source.uploadId != "" || source.repositoryId == 0 ==> ResolveSource(source, item) == Some(source)
    ensures source.uploadId == "" && source.repositoryId != 0 ==> (ResolveSource(source, item).None? <==> item.None?)
    ensures source.uploadId == "" && source.repositoryId != 0 && item.Some? ==>
      var r, found := item.value, ResolveSource(source, item).value;
      && found.version == source.version && found.repositoryId == source.repositoryId && found.uploadId == ""
      && found.username == r.username && found.password == r.password
      && found.allowPrivateNetwork == r.allowPrivateNetwork
      && (!r.oci ==> found.chart == source.chart && found.repoUrl == r.url)
      && (r.oci ==> found.chart == TrimSlashesRight(r.url) + "/" + TrimSlashesLeft(source.chart) && found.repoUrl == "")
  {
  }

  // ----- execution -----

  /** What a queued operation keeps of a prepared change: neither token nor credentials, whole seconds. */
  function Stored(prepared: PreparedChange): PreparedChange {
    var o := prepared.options;
    prepared.(options := o.(token := "", expectedDigest := "", timeout := o.timeout / 1000 * 1000,
                            values := if OmitEmpty(o.values) == Some("") then Some("null") else o.values,
                            source := o.source.(username := "", password := "", allowPrivateNetwork := false)))
  }

  /** Queueing changes nothing that was confirmed, and drops token, credentials and a fraction of a second. */
  lemma StoredMeans(prepared: PreparedChange)
    ensures var o, kept := prepared.options, Stored(prepared).options;
      && Stored(prepared).operation == prepared.operation && Stored(prepared).cluster == prepared.cluster
      && Stored(prepared).expectedDigest == prepared.expectedDigest && SameChange(o, kept)
      && kept.token == "" && kept.source.username == "" && kept.source.password == ""
      && kept.timeout % 1000 == 0 && kept.timeout <= o.timeout < kept.timeout + 1000
  {
    FingerprintPins(prepared.options, Stored(prepared).options);
  }

  /** The request given to the adapter when the source has been resolved again. */
  function Executed(prepared: PreparedChange, again: ChartSource): ChangeOptions {
    Trimmed(prepared.options.(source := again)).(expectedDigest := prepared.expectedDigest)
  }

  /** The source that execution validates, unless the catalog or the authorizer refuses. */
  function SourceAgain(prepared: PreparedChange, checks: Checks): Option<ChartSource> {
    if checks.hasCatalog && (!checks.uploadAllowed || checks.resolved.None?) then None
    else if prepared.operation != "install" && prepared.operation != "upgrade" then None
    else if !checks.allowed then None
    else Some(if checks.hasCatalog then checks.resolved.value else prepared.options.source)
  }

  /** Up to the call of the adapter, which compares the digest of what it renders with the expected one. */
  method ExecutePreparedChange(prepared: PreparedChange, checks: Checks) returns (r: Result<ChangeOptions, Problem>)
    ensures r.Ok? <==>
      SourceAgain(prepared, checks).Some?
      && Acceptable(Trimmed(prepared.options.(source := SourceAgain(prepared, checks).value)))
    ensures r.Ok? ==> r.value == Executed(prepared, SourceAgain(prepared, checks).value)
    ensures r.Ok? ==> r.value.expectedDigest == prepared.expectedDigest && Acceptable(r.value)
    ensures r.Ok? ==>
      && checks.allowed && (prepared.operation == "install" || prepared.operation == "upgrade")
      && (checks.hasCatalog ==> checks.uploadAllowed && checks.resolved.Some?)
      && r.value.source == (if checks.hasCatalog then checks.resolved.value else prepared.options.source)
                           .(chart := r.value.source.chart)
    ensures r.Err? ==>
      || (checks.hasCatalog && !checks.uploadAllowed && r.error == UploadRefused)
      || (checks.hasCatalog && checks.resolved.None? && r.error == SourceFailed)
      || (prepared.operation != "install" && prepared.operation != "upgrade" && r.error == ParamInvalid)
      || (!checks.allowed && r.error == Forbidden)
      || ((checks.hasCatalog ==> checks.resolved.Some?) && r.error == ParamInvalid
          && !Acceptable(Trimmed(if checks.hasCatalog then prepared.options.(source := checks.resolved.value)
                                 else prepared.options)))
  {
    var o := prepared.options;
    if checks.hasCatalog {
      if !checks.uploadAllowed { return Err(UploadRefused); }
      if checks.resolved.None? { return Err(SourceFailed); }
      o := o.(source := checks.resolved.value);
    }
    if prepared.operation != "install" && prepared.operation != "upgrade" { return Err(ParamInvalid); }
    if !checks.allowed { return Err(Forbidden); }
    var valid := ValidateChangeOptions(o);
    if valid.Err? { return Err(ParamInvalid); }
    r := Ok(valid.value.(expectedDigest := prepared.expectedDigest));
  }

  // ----- is what is executed what was confirmed? -----

  /** The sources agree in everything a confirmation pins; white space around the chart does not count. */
  predicate SameSource(a: ChartSource, b: ChartSource) {
    Text.TrimSpace(a.chart) == Text.TrimSpace(b.chart) && a.repoUrl == b.repoUrl && a.version == b.version
    && a.repositoryId == b.repositoryId && a.uploadId == b.uploadId
  }

  /** What PrepareChange returns for a request whose source resolved to `first`. */
  function Prepared(operation: string, cluster: string, digest: string, o: ChangeOptions,
                    first: ChartSource): PreparedChange {
    PreparedChange(operation, cluster, Trimmed(o.(source := first)).(source := o.source), digest)
  }

  /** Direct or queued, the executed request has the confirmed fingerprint exactly when the source resolves
      to the same one again; it is then valid, and its timeout is the confirmed one, less a fraction of a
      second when it was queued. */
  lemma ExecutesAsConfirmed(operation: string, cluster: string, digest: string, o: ChangeOptions, first: ChartSource,
                            again: ChartSource)
    requires Acceptable(Trimmed(o.(source := first)))
    ensures var confirmed, p := Trimmed(o.(source := first)), Prepared(operation, cluster, digest, o, first);
      && (FingerprintOf(Executed(p, again)) == FingerprintOf(confirmed) <==> SameSource(first, again))
      && (FingerprintOf(Executed(Stored(p), again)) == FingerprintOf(confirmed) <==> SameSource(first, again))
      && (SameSource(first, again) ==> Acceptable(Executed(p, again)) && Acceptable(Executed(Stored(p), again)))
      && Executed(p, again).timeout == confirmed.timeout
      && confirmed.timeout - 1000 < Executed(Stored(p), again).timeout <= confirmed.timeout
  {
    TrimmedTwice(o.(source := first));
    Text.BytesBound("null");
    Text.TrimSpaceTrims(again.chart);
  }

  /** The space before the URL of an OCI repository and the slashes behind it do not count. */
  function OciUrl(url: string): string { Text.TrimLeft(TrimSlashesRight(url)) }

  /** Where charts of this repository come from, as far as a confirmation can tell. */
  function Place(r: Repository): (bool, string) { (r.oci, if r.oci then OciUrl(r.url) else r.url) }

  /** Two lookups of one source agree exactly when it is uploaded or named by URL, or its repository, whose URL
      is never empty, has kept kind and URL. */
  lemma ResolvesTheSame(source: ChartSource, r: Repository, r': Repository)
    requires r.url != "" && r'.url != ""
    ensures ResolveSource(source, Some(r)).Some? && ResolveSource(source, Some(r')).Some?
    ensures var a, b := ResolveSource(source, Some(r)).value, ResolveSource(source, Some(r')).value;
      SameSource(a, b) <==> !IsManaged(source) || Place(r) == Place(r')
  {
    if IsManaged(source) && r.oci && r'.oci {
      var name := "/" + TrimSlashesLeft(source.chart);
      OciChart(r.url, name);
      OciChart(r'.url, name);
      assert TrimSlashesRight(r.url) + name == TrimSlashesRight(r.url) + "/" + TrimSlashesLeft(source.chart);
      assert TrimSlashesRight(r'.url) + name == TrimSlashesRight(r'.url) + "/" + TrimSlashesLeft(source.chart);
      SameFront(OciUrl(r.url), OciUrl(r'.url), Text.TrimRight(name));
    }
  }

  lemma SameFront(a: string, b: string, end: string)
    ensures a + end == b + end <==> a == b
  {
    if a + end == b + end {
      assert |a| == |b|;
      assert (a + end)[..|a|] == a && (b + end)[..|b|] == b;
    }
  }

  lemma OciChart(url: string, name: string)
    requires name != "" && name[0] == '/'
    ensures Text.TrimSpace(TrimSlashesRight(url) + name) == OciUrl(url) + Text.TrimRight(name)
  {
    Text.TrimLeftStops(TrimSlashesRight(url), name);
    Text.TrimRightStops(OciUrl(url), name);
  }

  /** Hence a request is executed with another fingerprint than the confirmed one exactly when its managed
      repository was moved in between. */
  lemma MovedRepository(o: ChangeOptions, r: Repository, r': Repository, operation: string, cluster: string,
                        digest: string)
    requires r.url != "" && r'.url != ""
    requires Acceptable(Trimmed(o.(source := ResolveSource(o.source, Some(r)).value)))
    ensures var first, again := ResolveSource(o.source, Some(r)).value, ResolveSource(o.source, Some(r')).value;
      FingerprintOf(Executed(Prepared(operation, cluster, digest, o, first), again))
      != FingerprintOf(Trimmed(o.(source := first)))
      <==> IsManaged(o.source) && Place(r) != Place(r')
  {
    var first, again := ResolveSource(o.source, Some(r)).value, ResolveSource(o.source, Some(r')).value;
    ResolvesTheSame(o.source, r, r');
    ExecutesAsConfirmed(operation, cluster, digest, o, first, again);
  }

  lemma Kept(c: char)
    requires !Text.IsSpace(c)
    ensures Text.TrimSpace([c]) == [c] && Text.Bytes([c]) <= 4
  {
    Text.TrimSpaceTrims([c]);
    Text.BytesBound([c]);
  }

  lemma SmallRequest(o: ChangeOptions, c: char, d: char, e: char, url: string)
    requires !Text.IsSpace(c) && !Text.IsSpace(d) && !Text.IsSpace(e) && Text.Bytes(url) <= 2048
    requires o.releaseName == [c] && o.namespace == [d] && o.source.chart == [e] && o.source.repoUrl == url
    requires o.timeout == 0 && o.values == Some("{}")
    ensures Acceptable(Trimmed(o))
  {
    Kept(c);
    Kept(d);
    Kept(e);
    Text.BytesBound("{}");
  }

  /** For any two URLs a repository may have there is such a request. */
  lemma MovableRequest(url: string, url': string) returns (o: ChangeOptions, r: Repository, r': Repository)
    requires url != "" && url' != "" && url != url' && Text.Bytes(url) <= 2048
    ensures IsManaged(o.source) && !r.oci && !r'.oci && r.url == url && r'.url == url' && Place(r) != Place(r')
    ensures Acceptable(Trimmed(o.(source := ResolveSource(o.source, Some(r)).value)))
  {
    o := ChangeOptions(['r'], ['n'], ChartSource(['c'], "", "", 7, "", "", "", false), Some("{}"),
                       false, false, false, 0, "", "");
    r, r' := Repository(url, false, "", "", false), Repository(url', false, "", "", false);
    SmallRequest(o.(source := ResolveSource(o.source, Some(r)).value), 'r', 'n', 'c', url);
  }
}
