/** Provider selection and the fetch/manifest control flow of
    packages/cli/src/utils/registry-providers/index.ts.

    A provider is a record of functions. What the concrete GitHub, GitLab,
    BitBucket, Azure and HTTP providers compute is not part of this model:
    `matches`, `resolveRaw`, `authHeader` and `formatFetchError` are
    whatever functions the record holds. The transport is a parameter. */
module Registry {
  import opened Results
  import opened Json
  import opened Schema
  import opened Transport

  // ---------------------------------------------------------------------
  // Providers.

  /** One hosting backend. `S` is the provider-specific part of a resolved
      registry (owner, repository, ref, ...). `authHeader` is absent for a
      backend without token authentication. */
  datatype Provider<!S> = Provider(
    matches: string -> bool,
    resolveRaw: (S, string, Option<string>) -> string,
    authHeader: Option<string -> (string, string)>,
    formatFetchError: (S, string, string) -> string)

  /** A provider bound to one resolved registry URL. */
  datatype ProviderState<!S> = ProviderState(provider: Provider<S>, data: S)

  /** The five providers; `InOrder` is the order they are tried in. */
  datatype Providers<!S> = Providers(
    github: Provider<S>,
    gitlab: Provider<S>,
    bitbucket: Provider<S>,
    azure: Provider<S>,
    http: Provider<S>)
  {
    function InOrder(): (ps: seq<Provider<S>>)
      ensures |ps| == 5
      ensures ps[0] == github && ps[1] == gitlab && ps[2] == bitbucket && ps[3] == azure && ps[4] == http
    {
      [github, gitlab, bitbucket, azure, http]
    }
  }

  /** Where `InOrder` puts the generic HTTP provider: last. */
  const HttpIndex: nat := 4

  /** The least index whose element satisfies `p`, as `Array.prototype.find`
      scans. */
  function FirstMatch<T>(xs: seq<T>, p: T -> bool): (r: Option<nat>)
    ensures r.None? <==> forall i :: 0 <= i < |xs| ==> !p(xs[i])
    ensures r.Some? ==> r.value < |xs| && p(xs[r.value])
    ensures r.Some? ==> forall i :: 0 <= i < r.value ==> !p(xs[i])
    decreases |xs|
  {
    if |xs| == 0 then
      None
    else if p(xs[0]) then
      Some(0)
    else
      match FirstMatch(xs[1..], p)
      case None => None
      case Some(i) => Some(i + 1)
  }

  /** The position, in `InOrder`, of the provider `SelectProvider` picks. */
  function SelectIndex<S>(ps: Providers<S>, url: string): (r: Option<nat>)
    ensures r.None? <==> forall i :: 0 <= i < 5 ==> !ps.InOrder()[i].matches(url)
    ensures r.Some? ==> r.value < 5 && ps.InOrder()[r.value].matches(url)
    ensures r.Some? ==> forall i :: 0 <= i < r.value ==> !ps.InOrder()[i].matches(url)
  {
    FirstMatch(ps.InOrder(), (p: Provider<S>) => p.matches(url))
  }

  /** The first provider whose `matches` accepts `url`; `None` when none
      does (an unsupported source). */
  function SelectProvider<S>(ps: Providers<S>, url: string): (r: Option<Provider<S>>)
    ensures r.None? <==> forall i :: 0 <= i < 5 ==> !ps.InOrder()[i].matches(url)
    ensures r.Some? ==> r.value.matches(url)
    ensures r.Some? ==> exists i :: 0 <= i < 5 && r.value == ps.InOrder()[i] &&
                                    forall k :: 0 <= k < i ==> !ps.InOrder()[k].matches(url)
  {
    match SelectIndex(ps, url)
    case None => None
    case Some(i) => Some(ps.InOrder()[i])
  }

  // ---------------------------------------------------------------------
  // Fetching.

  /** The `verbose` callback. Its output is not modelled. */
  type Logger = string -> ()

  /** The options bag; every field may be absent (`Partial<FetchOptions>`). */
  datatype FetchOptions = FetchOptions(
    token: Option<string>,
    fetch: Option<Fetch>,
    verbose: Option<Logger>,
    tag: Option<string>)

  /** The options default `{}`. */
  const NoOptions: FetchOptions := FetchOptions(None, None, None, None)

  /** The URL `fetchRaw` requests: the provider's raw URL for the resource
      at the positional `tag`. */
  function RawUrl<S>(state: ProviderState<S>, resourcePath: string, tag: Option<string>): string {
    state.provider.resolveRaw(state.data, resourcePath, tag)
  }

  /** The headers `fetchRaw` sends. */
  function RequestHeaders<S>(provider: Provider<S>, token: Option<string>): (h: Headers)
    ensures token.Some? && provider.authHeader.Some? ==> h == [provider.authHeader.value(token.value)]
    ensures token.None? || provider.authHeader.None? ==> h == []
  {
    match (token, provider.authHeader)
    case (Some(t), Some(auth)) => [auth(t)]
    case _ => []
  }

  /** The fetch implementation used: the override, else the ambient one. */
  function ChosenFetch(options: FetchOptions, ambient: Fetch): (f: Fetch)
    ensures options.fetch.Some? ==> f == options.fetch.value
    ensures options.fetch.None? ==> f == ambient
  {
    options.fetch.GetOr(ambient)
  }

  /** What the transport answers to the one request `fetchRaw` makes. */
  function Answer<S>(state: ProviderState<S>, resourcePath: string, options: FetchOptions, tag: Option<string>, ambient: Fetch): Outcome {
    ChosenFetch(options, ambient)(RawUrl(state, resourcePath, tag), RequestHeaders(state.provider, options.token))
  }

  /** `fetchRaw`. With `resolveRaw`, `verbose` and `formatFetchError` total,
      it never throws: every failure is a returned `Err` holding the
      provider's formatting of a cause. */
  function FetchRaw<S>(state: ProviderState<S>, resourcePath: string, options: FetchOptions, tag: Option<string>, ambient: Fetch): (r: Result<string, string>)
    ensures var a := Answer(state, resourcePath, options, tag, ambient);
      r.Ok? <==> a.Response? && a.ok && a.body.Ok?
    ensures var a := Answer(state, resourcePath, options, tag, ambient);
      r.Ok? ==> r.value == a.body.value
    ensures var a := Answer(state, resourcePath, options, tag, ambient);
      a.Response? && !a.ok ==>
        r == Err(state.provider.formatFetchError(state.data, resourcePath, StatusLine(a.status, a.statusText)))
    ensures var a := Answer(state, resourcePath, options, tag, ambient);
      a.Thrown? ==> r == Err(state.provider.formatFetchError(state.data, resourcePath, a.err))
    ensures var a := Answer(state, resourcePath, options, tag, ambient);
      a.Response? && a.ok && a.body.Err? ==>
        r == Err(state.provider.formatFetchError(state.data, resourcePath, a.body.error))
    ensures r.Err? ==> exists cause :: r.error == state.provider.formatFetchError(state.data, resourcePath, cause)
  {
    var url := RawUrl(state, resourcePath, tag);
    var f := ChosenFetch(options, ambient);
    var headers := RequestHeaders(state.provider, options.token);
    var formatError := (cause: string) => state.provider.formatFetchError(state.data, resourcePath, cause);
    match f(url, headers)
    case Thrown(err) => Err(formatError(err))
    case Response(ok, status, statusText, body) =>
      if !ok then
        Err(formatError(StatusLine(status, statusText)))
      else
        match body
        case Ok(text) => Ok(text)
        case Err(err) => Err(formatError(err))
  }

  /** Where a registry keeps its manifest. */
  const ManifestFile: string := "jsrepo-manifest.json"

  /** `fetchManifest`: the manifest file at the same tag, a fetch failure
      passed on unchanged, and otherwise whatever `parseManifest` makes of
      the text. */
  function FetchManifest<S>(state: ProviderState<S>, options: FetchOptions, tag: Option<string>, ambient: Fetch,
                            parseManifest: string -> Result<Manifest, string>): (r: Result<Manifest, string>)
    ensures var raw := FetchRaw(state, ManifestFile, options, tag, ambient);
      raw.Err? ==> r == Err(raw.error)
    ensures var raw := FetchRaw(state, ManifestFile, options, tag, ambient);
      raw.Ok? ==> r == parseManifest(raw.value)
  {
    var f := ChosenFetch(options, ambient);
    var raw := FetchRaw(state, ManifestFile, options.(fetch := Some(f)), tag, ambient);
    if raw.Err? then Err(raw.error) else parseManifest(raw.value)
  }

  /** How a validation issue reads. */
  function IssueMessage(e: Issue): string {
    "invalid manifest: expected " + e.expected
  }

  /** `parseManifest` as decoding JSON text (a parameter here) followed by
      the manifest schema. */
  function ParseManifest(decodeJson: string -> Result<Json, string>, text: string): (r: Result<Manifest, string>)
    ensures r.Ok? <==> decodeJson(text).Ok? && ManifestShape(decodeJson(text).value)
    ensures r.Ok? ==> ManifestRead(decodeJson(text).value, r.value)
    ensures decodeJson(text).Err? ==> r == Err(decodeJson(text).error)
  {
    match decodeJson(text)
    case Err(e) => Err(e)
    case Ok(j) => ValidateManifest(j).MapErr(IssueMessage)
  }
}
