/** Properties of provider selection and of the fetch control flow that
    relate several calls or fix concrete scenarios. */
module RegistryLaws {
  import opened Results
  import opened Json
  import opened Schema
  import opened SchemaLaws
  import opened Transport
  import opened Registry

  // ---------------------------------------------------------------------
  // Selection order.

  /** When two providers both accept a URL, the later one is never picked. */
  lemma EarlierProviderWins<S>(ps: Providers<S>, url: string, i: nat, j: nat)
    requires i < j < 5
    requires ps.InOrder()[i].matches(url) && ps.InOrder()[j].matches(url)
    ensures SelectIndex(ps, url).Some? && SelectIndex(ps, url).value <= i
  {
  }

  /** The generic HTTP provider is picked exactly when it accepts the URL
      and none of the four specific backends does. */
  lemma HttpOnlyAsFallback<S>(ps: Providers<S>, url: string)
    ensures SelectIndex(ps, url) == Some(HttpIndex) <==>
              && !ps.github.matches(url)
              && !ps.gitlab.matches(url)
              && !ps.bitbucket.matches(url)
              && !ps.azure.matches(url)
              && ps.http.matches(url)
  {
  }

  /** A URL only one provider accepts selects that provider. */
  lemma SoleMatchSelected<S>(ps: Providers<S>, url: string, i: nat)
    requires i < 5 && ps.InOrder()[i].matches(url)
    requires forall k :: 0 <= k < 5 && k != i ==> !ps.InOrder()[k].matches(url)
    ensures SelectIndex(ps, url) == Some(i)
  {
  }

  // ---------------------------------------------------------------------
  // What the result of `fetchRaw` depends on.

  /** The only request made is the raw URL at the positional tag with the
      auth headers: transports that answer it alike give the same result. */
  lemma FetchRawMakesOneRequest<S>(state: ProviderState<S>, resourcePath: string, options: FetchOptions,
                                   tag: Option<string>, f1: Fetch, f2: Fetch)
    requires options.fetch.None?
    requires f1(RawUrl(state, resourcePath, tag), RequestHeaders(state.provider, options.token))
             == f2(RawUrl(state, resourcePath, tag), RequestHeaders(state.provider, options.token))
    ensures FetchRaw(state, resourcePath, options, tag, f1) == FetchRaw(state, resourcePath, options, tag, f2)
  {
  }

  /** Without an override, the ambient fetch is used. */
  lemma FetchRawDefaultsToAmbient<S>(state: ProviderState<S>, resourcePath: string, options: FetchOptions,
                                     tag: Option<string>, ambient: Fetch, other: Fetch)
    requires options.fetch.None?
    ensures FetchRaw(state, resourcePath, options, tag, ambient)
            == FetchRaw(state, resourcePath, options.(fetch := Some(ambient)), tag, other)
  {
  }

  /** The `verbose` callback and the `tag` inside the options never change
      the result; only the positional `tag` is passed on. */
  lemma FetchRawIgnoresVerboseAndOptionsTag<S>(state: ProviderState<S>, resourcePath: string, options: FetchOptions,
                                               tag: Option<string>, ambient: Fetch,
                                               verbose: Option<Logger>, optionsTag: Option<string>)
    ensures FetchRaw(state, resourcePath, options, tag, ambient)
            == FetchRaw(state, resourcePath, options.(verbose := verbose, tag := optionsTag), tag, ambient)
  {
  }

  /** A token for a provider without `authHeader` is silently ignored. */
  lemma TokenIgnoredWithoutAuthHeader<S>(state: ProviderState<S>, resourcePath: string, options: FetchOptions,
                                         tag: Option<string>, ambient: Fetch)
    requires state.provider.authHeader.None?
    ensures FetchRaw(state, resourcePath, options, tag, ambient)
            == FetchRaw(state, resourcePath, options.(token := None), tag, ambient)
  {
  }

  /** A failed response hands the formatter a cause from which its status
      and status text can be read back. */
  lemma FailureCauseCarriesStatus<S>(state: ProviderState<S>, resourcePath: string, options: FetchOptions,
                                     tag: Option<string>, ambient: Fetch)
    requires var a := Answer(state, resourcePath, options, tag, ambient);
      a.Response? && !a.ok
    ensures var a := Answer(state, resourcePath, options, tag, ambient);
      exists cause ::
        && FetchRaw(state, resourcePath, options, tag, ambient)
             == Err(state.provider.formatFetchError(state.data, resourcePath, cause))
        && ParseStatusLine(cause) == Some((a.status, a.statusText))
  {
    var a := Answer(state, resourcePath, options, tag, ambient);
    StatusLineRoundTrip(a.status, a.statusText);
    var cause := StatusLine(a.status, a.statusText);
    assert FetchRaw(state, resourcePath, options, tag, ambient)
           == Err(state.provider.formatFetchError(state.data, resourcePath, cause));
  }

  // ---------------------------------------------------------------------
  // Scenarios.

  /** A 500 from a generic HTTP registry: the formatter receives
      "500 Internal Server Error". */
  lemma ServerError<S>(state: ProviderState<S>, resourcePath: string, tag: Option<string>, ambient: Fetch)
    requires Answer(state, resourcePath, NoOptions, tag, ambient)
             == Response(false, 500, "Internal Server Error", Ok("oops"))
    ensures FetchRaw(state, resourcePath, NoOptions, tag, ambient)
            == Err(state.provider.formatFetchError(state.data, resourcePath, "500 Internal Server Error"))
  {
    assert NatToString(5) == "5";
    assert NatToString(50) == "50";
    assert NatToString(500) == "500";
    assert StatusLine(500, "Internal Server Error") == "500 Internal Server Error";
  }

  /** A 404 on the manifest: the failure is the provider's message, passed
      on unchanged by `fetchManifest`. */
  lemma ManifestNotFound<S>(state: ProviderState<S>, options: FetchOptions, tag: Option<string>, ambient: Fetch,
                            parseManifest: string -> Result<Manifest, string>)
    requires Answer(state, ManifestFile, options, tag, ambient) == Response(false, 404, "Not Found", Ok(""))
    ensures FetchManifest(state, options, tag, ambient, parseManifest)
            == Err(state.provider.formatFetchError(state.data, ManifestFile, "404 Not Found"))
  {
    assert NatToString(4) == "4";
    assert NatToString(40) == "40";
    assert NatToString(404) == "404";
    assert StatusLine(404, "Not Found") == "404 Not Found";
  }

  /** A 200 whose text decodes to a manifest with one empty category and
      nothing else gives exactly that manifest, with `meta` absent. */
  lemma ManifestFetchedAndValidated<S>(state: ProviderState<S>, options: FetchOptions, tag: Option<string>,
                                       ambient: Fetch, decodeJson: string -> Result<Json, string>, text: string)
    requires Answer(state, ManifestFile, options, tag, ambient) == Response(true, 200, "OK", Ok(text))
    requires decodeJson(text)
             == Ok(Obj(map["categories" := Arr([Obj(map["name" := Str("utils"), "blocks" := Arr([])])])]))
    ensures FetchManifest(state, options, tag, ambient, t => ParseManifest(decodeJson, t))
            == Ok(Manifest(None, None, None, [Category("utils", [])]))
  {
    SmallestManifest();
  }

  /** A 200 whose document lacks `categories` fails, and the failure is not
      the provider's: it comes from validation. */
  lemma ManifestWithoutCategoriesRejected<S>(state: ProviderState<S>, options: FetchOptions, tag: Option<string>,
                                             ambient: Fetch, decodeJson: string -> Result<Json, string>,
                                             text: string, o: map<string, Json>)
    requires Answer(state, ManifestFile, options, tag, ambient) == Response(true, 200, "OK", Ok(text))
    requires decodeJson(text) == Ok(Obj(o)) && "categories" !in o
    ensures var r := FetchManifest(state, options, tag, ambient, t => ParseManifest(decodeJson, t));
      r.Err? && r.error == IssueMessage(ValidateManifest(Obj(o)).error)
  {
    ManifestNeedsCategories(o);
  }
}
