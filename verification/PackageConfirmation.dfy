/** One-time confirmation of previewed package changes. */
module PackageConfirmation {
  import opened Wrappers
  import Text

  // Times are in milliseconds.
  const GRANT_TTL := 10 * 60_000
  const MAX_GRANTS := 5000
  const DEFAULT_TIMEOUT := 5 * 60_000
  const MIN_TIMEOUT := 1000
  const MAX_TIMEOUT := 30 * 60_000
  const MAX_VALUES := 512 * 1024

  datatype ChartSource = ChartSource(chart: string, repoUrl: string, version: string, repositoryId: nat,
                                     uploadId: string,
                                     username: string, password: string, allowPrivateNetwork: bool)

  /** `values` is the JSON text of the chart values, None when they cannot be encoded. */
  datatype ChangeOptions = ChangeOptions(releaseName: string, namespace: string, source: ChartSource,
                                         values: Option<string>,
                                         createNamespace: bool, wait: bool, atomic: bool, timeout: int,
                                         token: string, expectedDigest: string)

  datatype Problem = Forbidden | UploadRefused | SourceFailed | ParamInvalid | PreviewFailed | TooManyPreviews
                   | DoesNotMatch

  /** The encoder leaves out empty values, whether the map is nil or has no entries. */
  function OmitEmpty(values: Option<string>): Option<string> {
    if values == Some("null") || values == Some("{}") then Some("") else values
  }

  /** The hashed JSON text, by its fields: hashing and encoding are taken to be injective. */
  datatype Fingerprint = Fingerprint(releaseName: string, namespace: string, chart: string, repoUrl: string,
                                     version: string,
                                     repositoryId: nat, uploadId: string, values: Option<string>,
                                     createNamespace: bool, wait: bool, atomic: bool)

  function FingerprintOf(o: ChangeOptions): Fingerprint {
    Fingerprint(o.releaseName, o.namespace, o.source.chart, o.source.repoUrl, o.source.version, o.source.repositoryId,
                o.source.uploadId, OmitEmpty(o.values), o.createNamespace, o.wait, o.atomic)
  }

  datatype Actor = Actor(user: nat, admin: bool, superAdmin: bool, previewOnly: bool)

  /** Answers of the catalog, the authorizer and the random source during one call. */
  datatype Checks = Checks(hasCatalog: bool, uploadAllowed: bool, resolved: Option<ChartSource>, allowed: bool)

  function Trimmed(o: ChangeOptions): ChangeOptions {
    o.(releaseName := Text.TrimSpace(o.releaseName), namespace := Text.TrimSpace(o.namespace),
       source := o.source.(chart := Text.TrimSpace(o.source.chart)),
       timeout := if o.timeout == 0 then DEFAULT_TIMEOUT else o.timeout)
  }

  predicate Acceptable(o: ChangeOptions) {
    && o.releaseName != "" && Text.Bytes(o.releaseName) <= 53 && o.namespace != "" && Text.Bytes(o.namespace) <= 63
    && (o.source.chart != "" || o.source.uploadId != "")
    && Text.Bytes(o.source.chart) <= 2048 && Text.Bytes(o.source.repoUrl) <= 2048
    && MIN_TIMEOUT <= o.timeout <= MAX_TIMEOUT
    && o.values.Some? && Text.Bytes(o.values.value) <= MAX_VALUES
  }

  /** Normalises its argument and rejects what is missing, too long or out of range. */
  method ValidateChangeOptions(opts: ChangeOptions) returns (r: Result<ChangeOptions, Problem>)
    ensures r == if Acceptable(Trimmed(opts)) then Ok(Trimmed(opts)) else Err(ParamInvalid)
    ensures var name, space, chart := Text.TrimSpace(opts.releaseName), Text.TrimSpace(opts.namespace),
      Text.TrimSpace(opts.source.chart);
      && (r.Ok? <==>
        && name != "" && space != "" && (chart != "" || opts.source.uploadId != "")
        && Text.Bytes(name) <= 53 && Text.Bytes(space) <= 63
        && Text.Bytes(chart) <= 2048 && Text.Bytes(opts.source.repoUrl) <= 2048
        && (opts.timeout == 0 || 1000 <= opts.timeout <= 30 * 60 * 1000)
        && opts.values.Some? && Text.Bytes(opts.values.value) <= 512 * 1024)
      && (r.Ok? ==>
        && r.value.releaseName == name && r.value.namespace == space && r.value.source == opts.source.(chart := chart)
        && r.value.timeout == (if opts.timeout == 0 then 5 * 60 * 1000 else opts.timeout)
        && r.value.values == opts.values && r.value.createNamespace == opts.createNamespace && r.value.wait == opts.wait
        && r.value.atomic == opts.atomic && r.value.token == opts.token
          && r.value.expectedDigest == opts.expectedDigest)
  {
    var o := opts.(releaseName := Text.TrimSpace(opts.releaseName), namespace := Text.TrimSpace(opts.namespace));
    o := o.(source := o.source.(chart := Text.TrimSpace(o.source.chart)));
    if o.releaseName == "" || o.namespace == "" || (o.source.chart == "" && o.source.uploadId == "") {
      return Err(ParamInvalid);
    }
    if Text.Bytes(o.releaseName) > 53 || Text.Bytes(o.namespace) > 63 || Text.Bytes(o.source.chart) > 2048
      || Text.Bytes(o.source.repoUrl) > 2048 {
      return Err(ParamInvalid);
    }
    if o.timeout == 0 { o := o.(timeout := DEFAULT_TIMEOUT); }
    if o.timeout < MIN_TIMEOUT || o.timeout > MAX_TIMEOUT { return Err(ParamInvalid); }
    if o.values.None? || Text.Bytes(o.values.value) > MAX_VALUES { return Err(ParamInvalid); }
    r := Ok(o);
  }

  lemma TrimmedTwice(o: ChangeOptions)
    ensures Trimmed(Trimmed(o)) == Trimmed(o)
  {
    Text.TrimSpaceTrims(o.releaseName);
    Text.TrimSpaceTrims(o.namespace);
    Text.TrimSpaceTrims(o.source.chart);
    Text.TrimSpaceTrims(Text.TrimSpace(o.releaseName));
    Text.TrimSpaceTrims(Text.TrimSpace(o.namespace));
    Text.TrimSpaceTrims(Text.TrimSpace(o.source.chart));
  }

  // ----- grants -----

  datatype Grant = Grant(user: nat, operation: string, cluster: string, fingerprint: Fingerprint, digest: string,
                         expiresAt: int)

  type Grants = map<string, Grant>

  function Pruned(grants: Grants, now: int): Grants {
    map t | t in grants && now <= grants[t].expiresAt :: grants[t]
  }

  lemma PrunedKeys(grants: Grants, now: int)
    ensures Pruned(grants, now).Keys == set t | t in grants && now <= grants[t].expiresAt
  {
  }

  predicate HasRoom(grants: Grants, now: int) { |Pruned(grants, now)| < MAX_GRANTS }

  function MintIn(grants: Grants, token: string, grant: Grant, now: int): Grants {
    if HasRoom(grants, now) then Pruned(grants, now)[token := grant] else Pruned(grants, now)
  }

  /** A validated change, as one actor asks for it. */
  datatype Request = Request(user: nat, operation: string, cluster: string, options: ChangeOptions)

  function GrantFor(request: Request, digest: string, now: int): Grant {
    Grant(request.user, request.operation, request.cluster, FingerprintOf(request.options), digest, now + GRANT_TTL)
  }

  /** The grant answers for exactly this change, now. */
  predicate Covers(g: Grant, request: Request, now: int) {
    now <= g.expiresAt && g.user == request.user && g.operation == request.operation && g.cluster == request.cluster
    && g.fingerprint == FingerprintOf(request.options)
  }

  predicate Confirms(grants: Grants, token: string, request: Request, now: int) {
    token in grants && Covers(grants[token], request, now)
  }

  datatype PreparedChange = PreparedChange(operation: string, cluster: string, options: ChangeOptions,
                                           expectedDigest: string)

  /** The request with the source the catalog gives, if there is a catalog. */
  function WithSource(opts: ChangeOptions, checks: Checks): ChangeOptions
    requires checks.hasCatalog ==> checks.resolved.Some?
  {
    if checks.hasCatalog then opts.(source := checks.resolved.value) else opts
  }

  /** The first reason for which a request is turned away before it is rendered or its grant is looked up. */
  function Refusal(actor: Actor, opts: ChangeOptions, checks: Checks, known: bool): Option<Problem> {
    if opts.source.repositoryId != 0 && !actor.admin && !actor.superAdmin then Some(Forbidden)
    else if checks.hasCatalog && !checks.uploadAllowed then Some(UploadRefused)
    else if checks.hasCatalog && checks.resolved.None? then Some(SourceFailed)
    else if !known then Some(ParamInvalid)
    else if !checks.allowed then Some(Forbidden)
    else if !Acceptable(Trimmed(WithSource(opts, checks))) then Some(ParamInvalid)
    else None
  }

  /** In plain terms: what is not turned away. */
  lemma RefusedUnless(actor: Actor, opts: ChangeOptions, checks: Checks, known: bool)
    ensures Refusal(actor, opts, checks, known).None? <==>
      && (opts.source.repositoryId != 0 ==> actor.admin || actor.superAdmin)
      && (checks.hasCatalog ==> checks.uploadAllowed && checks.resolved.Some?)
      && known && checks.allowed
      && Acceptable(Trimmed(if checks.hasCatalog then opts.(source := checks.resolved.value) else opts))
    ensures Refusal(actor, opts, checks, known) == Some(Forbidden) ==>
      !checks.allowed || (opts.source.repositoryId != 0 && !(actor.admin || actor.superAdmin))
  {
  }

  /** A critical change, or one that creates its namespace or uses a managed repository, is an admin's to confirm. */
  predicate Entitled(actor: Actor, critical: bool, createNamespace: bool, repositoryId: nat) {
    !actor.previewOnly && (actor.admin || actor.superAdmin || (!critical && !createNamespace && repositoryId == 0))
  }

  class PackageService {
    var previews: Grants

    constructor ()
      ensures previews == map[]
    {
      previews := map[];
    }

    method PrunePreviews(now: int)
      modifies this
      ensures previews == Pruned(old(previews), now)
      ensures forall t :: t in previews <==> t in old(previews) && now <= old(previews)[t].expiresAt
      ensures forall t | t in previews :: previews[t] == old(previews)[t]
    {
      var todo := previews.Keys;
      while todo != {}
        invariant todo <= old(previews).Keys
        invariant forall t :: t in previews <==> t in old(previews) && (t in todo || now <= old(previews)[t].expiresAt)
        invariant forall t | t in previews :: previews[t] == old(previews)[t]
        decreases todo
      {
        var t :| t in todo;
        todo := todo - {t};
        if now > previews[t].expiresAt { previews := previews - {t}; }
      }
    }

    /** `digest` and `critical` describe the rendered manifest; `token` is freshly drawn. */
    method Preview(actor: Actor, operation: string, cluster: string, opts: ChangeOptions, checks: Checks,
                   rendered: Option<(string, bool)>, token: string, now: int)
      returns (r: Result<Option<string>, Problem>)
      requires token !in previews
      modifies this
      ensures r == Ok(Some(token)) ==>
        && !actor.previewOnly && (operation == "install" || operation == "upgrade") && checks.allowed && rendered.Some?
        && (actor.admin || actor.superAdmin
            || (!rendered.value.1 && !opts.createNamespace && opts.source.repositoryId == 0))
      ensures var refusal := Refusal(actor, opts, checks, operation in {"install", "upgrade"});
        && (refusal.Some? ==> r == Err(refusal.value))
        && (refusal.None? && rendered.None? ==> r == Err(PreviewFailed))
        && (refusal.None? && rendered.Some?
            && !Entitled(actor, rendered.value.1, opts.createNamespace, opts.source.repositoryId) ==>
          r == Ok(None))
        && (refusal.None? && rendered.Some?
            && Entitled(actor, rendered.value.1, opts.createNamespace, opts.source.repositoryId) ==>
          r == if |set t | t in old(previews) && now <= old(previews)[t].expiresAt| < 5000 then Ok(Some(token))
               else Err(TooManyPreviews))
      ensures r == Ok(Some(token)) ==>
        && token in previews && (checks.hasCatalog ==> checks.resolved.Some?)
        && previews[token] == Grant(actor.user, operation, cluster, FingerprintOf(Trimmed(WithSource(opts, checks))),
                                    rendered.value.0, now + 10 * 60 * 1000)
        && previews == MintIn(old(previews), token, previews[token], now)
      ensures r.Ok? && r.value != Some(token) ==> r.value == None && previews == old(previews)
      ensures r.Err? ==> previews == if r.error == TooManyPreviews then Pruned(old(previews), now) else old(previews)
    {
      var o := opts;
      if o.source.repositoryId != 0 && !(actor.admin || actor.superAdmin) { return Err(Forbidden); }
      if checks.hasCatalog {
        if !checks.uploadAllowed { return Err(UploadRefused); }
        if checks.resolved.None? { return Err(SourceFailed); }
        o := o.(source := checks.resolved.value);
      }
      if operation != "install" && operation != "upgrade" { return Err(ParamInvalid); }
      if !checks.allowed { return Err(Forbidden); }
      var valid := ValidateChangeOptions(o);
      if valid.Err? { return Err(ParamInvalid); }
      o := valid.value;
      if rendered.None? { return Err(PreviewFailed); }
      var critical := rendered.value.1 || o.createNamespace;
      var canExecute := !critical || actor.admin || actor.superAdmin;
      if !canExecute || actor.previewOnly { return Ok(None); }
      var expires := now + GRANT_TTL;
      PrunedKeys(previews, now);
      PrunePreviews(now);
      if |previews| >= MAX_GRANTS { return Err(TooManyPreviews); }
      previews := previews[token := Grant(actor.user, operation, cluster, FingerprintOf(o), rendered.value.0, expires)];
      r := Ok(Some(token));
    }

    /** Consumes the grant, whether or not it confirms this change; the requested source, not the
        resolved one with its credentials, is kept in the result. */
    method PrepareChange(actor: Actor, operation: string, cluster: string, opts: ChangeOptions, checks: Checks,
                         now: int)
      returns (r: Result<PreparedChange, Problem>)
      modifies this
      ensures var refusal := Refusal(actor, opts, checks, true);
        && (refusal.Some? ==> r == Err(refusal.value) && previews == old(previews))
        && (refusal.None? ==>
          var o := Trimmed(WithSource(opts, checks));
          && previews == old(previews) - {opts.token}
          && (r.Ok? <==> Confirms(old(previews), opts.token, Request(actor.user, operation, cluster, o), now))
          && (r.Err? ==> r.error == DoesNotMatch)
          && (r.Ok? ==>
            r.value == PreparedChange(operation, cluster, o.(source := opts.source), old(previews)[opts.token].digest)))
      ensures r.Ok? ==>
        && opts.token in old(previews) && now <= old(previews)[opts.token].expiresAt
        && old(previews)[opts.token].user == actor.user && old(previews)[opts.token].operation == operation
        && old(previews)[opts.token].cluster == cluster && r.value.expectedDigest == old(previews)[opts.token].digest
        && r.value.operation == operation && r.value.cluster == cluster && r.value.options.source == opts.source
    {
      var o := opts;
      var trackedSource := opts.source;
      if o.source.repositoryId != 0 && !(actor.admin || actor.superAdmin) { return Err(Forbidden); }
      if checks.hasCatalog {
        if !checks.uploadAllowed { return Err(UploadRefused); }
        if checks.resolved.None? { return Err(SourceFailed); }
        o := o.(source := checks.resolved.value);
      }
      if !checks.allowed { return Err(Forbidden); }
      var valid := ValidateChangeOptions(o);
      if valid.Err? { return Err(ParamInvalid); }
      o := valid.value;
      var grant := if o.token in previews then Some(previews[o.token]) else None;
      previews := previews - {o.token};
      if grant.None? || now > grant.value.expiresAt || grant.value.user != actor.user
        || grant.value.operation != operation
         || grant.value.cluster != cluster || grant.value.fingerprint != FingerprintOf(o) {
        return Err(DoesNotMatch);
      }
      o := o.(source := trackedSource);
      r := Ok(PreparedChange(operation, cluster, o, grant.value.digest));
    }
  }

  // ----- all runs -----

  /** The critical sections of Preview and PrepareChange, in the order in which the mutex lets them in. */
  datatype Event =
    | Mint(token: string, request: Request, actor: Actor, critical: bool, digest: string, at: int)
    | Prepare(token: string, request: Request, at: int)

  /** Tokens are fresh, and go to whom Preview gives them. */
  predicate Enabled(issued: set<string>, e: Event) {
    e.Mint? ==>
      && e.token !in issued && e.request.user == e.actor.user
      && Entitled(e.actor, e.critical, e.request.options.createNamespace, e.request.options.source.repositoryId)
  }

  function Apply(grants: Grants, e: Event): Grants {
    match e
    case Mint(token, request, _, _, digest, at) => MintIn(grants, token, GrantFor(request, digest, at), at)
    case Prepare(token, _, _) => grants - {token}
  }

  function Issued(es: seq<Event>): set<string> {
    set e | e in es && e.Mint? :: e.token
  }

  ghost predicate IsRun(gs: seq<Grants>, es: seq<Event>) {
    |gs| == |es| + 1 && gs[0] == map[]
    && forall i {:trigger es[i]} | 0 <= i < |es| :: Enabled(Issued(es[..i]), es[i]) && gs[i + 1] == Apply(gs[i], es[i])
  }

  predicate Succeeds(grants: Grants, e: Event) {
    e.Prepare? && Confirms(grants, e.token, e.request, e.at)
  }

  lemma PrunedIsSmaller(grants: Grants, now: int)
    ensures |Pruned(grants, now)| <= |grants|
  {
    var keys := Pruned(grants, now).Keys;
    assert grants.Keys == keys + (grants.Keys - keys);
  }

  /** At most 5000 confirmations are pending. */
  lemma {:induction false} GrantsBounded(gs: seq<Grants>, es: seq<Event>, i: nat)
    requires IsRun(gs, es) && i < |gs|
    ensures |gs[i]| <= 5000
  {
    if i > 0 {
      GrantsBounded(gs, es, i - 1);
      var before, e := gs[i - 1], es[i - 1];
      assert gs[i] == Apply(before, e);
      if e.Mint? {
        PrunedIsSmaller(before, e.at);
        if HasRoom(before, e.at) { assert gs[i].Keys == Pruned(before, e.at).Keys + {e.token}; }
      } else {
        assert gs[i].Keys == before.Keys - {e.token};
      }
    }
  }

  ghost predicate MintedAt(gs: seq<Grants>, es: seq<Event>, j: nat, token: string, grant: Grant)
    requires j < |es| && j < |gs|
  {
    es[j].Mint? && es[j].token == token && GrantFor(es[j].request, es[j].digest, es[j].at) == grant
    && HasRoom(gs[j], es[j].at)
  }

  /** A pending grant was minted earlier in the run, and its token has not been presented since. */
  lemma {:induction false} PendingWasMinted(gs: seq<Grants>, es: seq<Event>, i: nat, token: string) returns (j: nat)
    requires IsRun(gs, es) && i < |gs| && token in gs[i]
    ensures j < i && MintedAt(gs, es, j, token, gs[i][token])
    ensures forall k | j < k < i :: es[k].token != token
  {
    var before, e := gs[i - 1], es[i - 1];
    assert gs[i] == Apply(before, e);
    if token in before && !(e.Mint? && e.token == token && HasRoom(before, e.at)) {
      j := PendingWasMinted(gs, es, i - 1, token);
      assert es[j] in es[..i - 1];
      assert e.Mint? ==> e.token != token;
    } else {
      j := i - 1;
    }
  }

  /** b asks for the same as a, but for the timeout, the repository credentials, the token and the digest;
      an empty set of values is as good as none. */
  predicate SameChange(a: ChangeOptions, b: ChangeOptions) {
    && a.releaseName == b.releaseName && a.namespace == b.namespace && a.createNamespace == b.createNamespace
    && a.wait == b.wait && a.atomic == b.atomic
    && a.source.chart == b.source.chart && a.source.repoUrl == b.source.repoUrl && a.source.version == b.source.version
    && a.source.repositoryId == b.source.repositoryId && a.source.uploadId == b.source.uploadId
    && (a.values == b.values || ({a.values, b.values} <= {Some("null"), Some("{}"), Some("")}))
  }

  lemma FingerprintPins(a: ChangeOptions, b: ChangeOptions)
    ensures FingerprintOf(a) == FingerprintOf(b) <==> SameChange(a, b)
  {
    assert a.values in {a.values, b.values} && b.values in {a.values, b.values};
  }

  /** Preview j answers for the change presented at i: same token, actor, operation, cluster and change, not
      more than ten minutes before, and there was room for it. */
  ghost predicate AnswersFor(gs: seq<Grants>, es: seq<Event>, j: nat, i: nat)
    requires j < i < |es| && |gs| == |es| + 1
  {
    && es[j].Mint? && es[i].Prepare? && es[j].token == es[i].token && HasRoom(gs[j], es[j].at)
    && es[j].request.user == es[i].request.user && es[j].request.operation == es[i].request.operation
    && es[j].request.cluster == es[i].request.cluster && SameChange(es[j].request.options, es[i].request.options)
    && es[i].at <= es[j].at + 10 * 60 * 1000
  }

  /** Creating the namespace and using a managed repository are an admin's to confirm. */
  predicate NeedsAdmin(o: ChangeOptions) { o.createNamespace || o.source.repositoryId != 0 }

  /** Every confirmed change was previewed so, and its token not presented in between; it carries the
      preview's digest, and if it was critical, creates its namespace or uses a managed repository, then the
      preview was an admin's. */
  lemma PreparedMatchesPreview(gs: seq<Grants>, es: seq<Event>, i: nat) returns (j: nat)
    requires IsRun(gs, es) && i < |es| && Succeeds(gs[i], es[i])
    ensures j < i && AnswersFor(gs, es, j, i) && (forall k | j < k < i :: es[k].token != es[i].token)
    ensures es[j].digest == gs[i][es[i].token].digest && es[j].actor.user == es[i].request.user
      && !es[j].actor.previewOnly
    ensures es[j].critical || NeedsAdmin(es[i].request.options) ==>
      es[j].actor.admin || es[j].actor.superAdmin
  {
    j := PendingWasMinted(gs, es, i, es[i].token);
    assert MintedAt(gs, es, j, es[i].token, gs[i][es[i].token]);
    FingerprintPins(es[j].request.options, es[i].request.options);
    var issued := StepOf(gs, es, j);
  }

  ghost predicate Monotone(es: seq<Event>) { forall i, j | 0 <= i < j < |es| :: es[i].at <= es[j].at }

  /** Until it is presented or expires, a grant stays as it was minted. */
  lemma {:induction false} StaysPending(gs: seq<Grants>, es: seq<Event>, j: nat, i: nat)
    requires IsRun(gs, es) && j < i < |gs| && es[j].Mint? && HasRoom(gs[j], es[j].at)
    requires forall k | j < k < i :: es[k].token != es[j].token && es[k].at <= es[j].at + GRANT_TTL
    ensures es[j].token in gs[i] && gs[i][es[j].token] == GrantFor(es[j].request, es[j].digest, es[j].at)
  {
    var issued := StepOf(gs, es, i - 1);
    if j < i - 1 { StaysPending(gs, es, j, i - 1); }
  }

  /** With a clock that does not run backwards, a change is confirmed exactly when a preview answers for it
      and its token has not been presented since. */
  lemma ConfirmedExactly(gs: seq<Grants>, es: seq<Event>, i: nat)
    requires IsRun(gs, es) && i < |es| && es[i].Prepare? && Monotone(es)
    ensures Succeeds(gs[i], es[i]) <==>
      exists j: nat | j < i :: AnswersFor(gs, es, j, i) && forall k | j < k < i :: es[k].token != es[i].token
  {
    if Succeeds(gs[i], es[i]) { var j := PreparedMatchesPreview(gs, es, i); }
    if j: nat :| j < i && AnswersFor(gs, es, j, i) && forall k | j < k < i :: es[k].token != es[i].token {
      StaysPending(gs, es, j, i);
      FingerprintPins(es[j].request.options, es[i].request.options);
    }
  }

  lemma StaysGone(issued: set<string>, grants: Grants, e: Event, token: string)
    requires Enabled(issued, e) && token in issued && (token !in grants || (e.Prepare? && e.token == token))
    ensures token !in Apply(grants, e)
  {
  }

  lemma StepOf(gs: seq<Grants>, es: seq<Event>, i: nat) returns (issued: set<string>)
    requires IsRun(gs, es) && i < |es|
    ensures issued == Issued(es[..i]) && Enabled(issued, es[i]) && gs[i + 1] == Apply(gs[i], es[i])
  {
    issued := Issued(es[..i]);
  }

  ghost predicate WasIssued(es: seq<Event>, i: nat, token: string) {
    exists j | 0 <= j < i && j < |es| :: es[j].Mint? && es[j].token == token
  }

  lemma NextGone(gs: seq<Grants>, es: seq<Event>, j: nat, i: nat, token: string)
    requires IsRun(gs, es) && j < i < |es| && es[j].Mint? && es[j].token == token
    requires token !in gs[i] || (es[i].Prepare? && es[i].token == token)
    ensures token !in gs[i + 1]
  {
    var issued := StepOf(gs, es, i);
    assert es[j] in es[..i];
    StaysGone(issued, gs[i], es[i], token);
  }

  lemma {:induction false} GoneForGood(gs: seq<Grants>, es: seq<Event>, j: nat, i: nat, k: nat, token: string)
    requires IsRun(gs, es) && j < i <= k < |gs| && es[j].Mint? && es[j].token == token && token !in gs[i]
    ensures token !in gs[k]
  {
    if i < k {
      GoneForGood(gs, es, j, i, k - 1, token);
      NextGone(gs, es, j, k - 1, token);
    }
  }

  /** A token never confirms twice: presenting it, with or without a match, uses it up. */
  lemma TokenWorksOnce(gs: seq<Grants>, es: seq<Event>, i: nat, k: nat)
    requires IsRun(gs, es) && i < k < |es| && es[i].Prepare? && es[k].Prepare? && es[i].token == es[k].token
    requires WasIssued(es, i, es[i].token)
    ensures !Succeeds(gs[k], es[k])
  {
    var j :| 0 <= j < i && es[j].Mint? && es[j].token == es[i].token;
    NextGone(gs, es, j, i, es[i].token);
    GoneForGood(gs, es, j, i + 1, k, es[i].token);
  }

  /** Different confirmed changes match different previews. */
  lemma DistinctPreviews(gs: seq<Grants>, es: seq<Event>, i: nat, k: nat)
    requires IsRun(gs, es) && i < k < |es| && Succeeds(gs[i], es[i]) && Succeeds(gs[k], es[k])
    ensures es[i].token != es[k].token
  {
    var j := PendingWasMinted(gs, es, i, es[i].token);
    assert WasIssued(es, i, es[i].token);
    if es[i].token == es[k].token { TokenWorksOnce(gs, es, i, k); }
  }
}
