/** Properties of the manifest schema that relate several validations:
    encoding then validating gives back the value, entries under
    undeclared keys make no difference, and omitting a defaulted entry
    yields exactly its default. */
module SchemaLaws {
  import opened Results
  import opened Json
  import opened Schema

  // ---------------------------------------------------------------------
  // What a JSON value holds determines the typed value read from it, and
  // only JSON of the accepted shape holds anything.

  lemma OptionalMatchesUnique<T>(o: map<string, Json>, key: string, a: Option<T>, b: Option<T>, encode: T -> Json)
    requires OptionalMatches(o, key, a, encode) && OptionalMatches(o, key, b, encode)
    requires forall x, y :: encode(x) == encode(y) ==> x == y
    ensures a == b
  {
  }

  lemma FromStringsIsInjective()
    ensures forall xs: seq<string>, ys: seq<string> :: FromStrings(xs) == FromStrings(ys) ==> xs == ys
  {
    forall xs: seq<string>, ys: seq<string> | FromStrings(xs) == FromStrings(ys)
      ensures xs == ys
    {
      FromStringsInjective(xs, ys);
    }
  }

  lemma BlockReadUnique(j: Json, a: Block, b: Block)
    requires BlockRead(j, a) && BlockRead(j, b)
    ensures a == b && BlockShape(j)
  {
    FromStringsInjective(a.localDependencies, b.localDependencies);
    FromStringsInjective(a.dependencies, b.dependencies);
    FromStringsInjective(a.devDependencies, b.devDependencies);
    FromStringsInjective(a.files, b.files);
    FromStringMapInjective(a.imports, b.imports);
  }

  lemma CategoryReadUnique(j: Json, a: Category, b: Category)
    requires CategoryRead(j, a) && CategoryRead(j, b)
    ensures a == b && CategoryShape(j)
  {
    var items := j.fields["blocks"].items;
    forall i | 0 <= i < |items|
      ensures a.blocks[i] == b.blocks[i] && BlockShape(items[i])
    {
      BlockReadUnique(items[i], a.blocks[i], b.blocks[i]);
    }
  }

  lemma MetaReadUnique(j: Json, a: Meta, b: Meta)
    requires MetaRead(j, a) && MetaRead(j, b)
    ensures a == b && MetaShape(j)
  {
    FromStringsIsInjective();
    OptionalMatchesUnique(j.fields, "authors", a.authors, b.authors, FromStrings);
    OptionalMatchesUnique(j.fields, "tags", a.tags, b.tags, FromStrings);
  }

  lemma PeerDependenciesReadUnique(j: Json, a: map<string, PeerDependency>, b: map<string, PeerDependency>)
    requires PeerDependenciesRead(j, a) && PeerDependenciesRead(j, b)
    ensures a == b && PeerDependenciesShape(j)
  {
    forall k | k in a
      ensures a[k] == b[k] && PeerDependencyShape(j.fields[k])
    {
    }
  }

  lemma ConfigFileReadUnique(j: Json, a: ConfigFile, b: ConfigFile)
    requires ConfigFileRead(j, a) && ConfigFileRead(j, b)
    ensures a == b && ConfigFileShape(j)
  {
    OptionalMatchesUnique(j.fields, "expectedPath", a.expectedPath, b.expectedPath, FromString);
  }

  lemma ManifestConfigFileReadUnique(j: Json, a: ManifestConfigFile, b: ManifestConfigFile)
    requires ManifestConfigFileRead(j, a) && ManifestConfigFileRead(j, b)
    ensures a == b && ManifestConfigFileShape(j)
  {
    FromStringsIsInjective();
    OptionalMatchesUnique(j.fields, "dependencies", a.dependencies, b.dependencies, FromStrings);
    OptionalMatchesUnique(j.fields, "devDependencies", a.devDependencies, b.devDependencies, FromStrings);
  }

  lemma ManifestReadUnique(j: Json, a: Manifest, b: Manifest)
    requires ManifestRead(j, a) && ManifestRead(j, b)
    ensures a == b && ManifestShape(j)
  {
    if a.meta.Some? {
      MetaReadUnique(j.fields["meta"], a.meta.value, b.meta.value);
    }
    if a.peerDependencies.Some? {
      PeerDependenciesReadUnique(j.fields["peerDependencies"], a.peerDependencies.value, b.peerDependencies.value);
    }
    if a.configFiles.Some? {
      var items := j.fields["configFiles"].items;
      forall i | 0 <= i < |items|
        ensures a.configFiles.value[i] == b.configFiles.value[i] && ManifestConfigFileShape(items[i])
      {
        ManifestConfigFileReadUnique(items[i], a.configFiles.value[i], b.configFiles.value[i]);
      }
      assert a.configFiles.value == b.configFiles.value;
    }
    var items := j.fields["categories"].items;
    forall i | 0 <= i < |items|
      ensures a.categories[i] == b.categories[i] && CategoryShape(items[i])
    {
      CategoryReadUnique(items[i], a.categories[i], b.categories[i]);
    }
    assert a.categories == b.categories;
  }

  // ---------------------------------------------------------------------
  // Each encoder produces JSON that holds exactly the encoded value.

  lemma EncodedMatches<T>(o: map<string, Json>, key: string, v: Option<T>, encode: T -> Json)
    requires key in o <==> Encoded(v, encode).Some?
    requires key in o ==> o[key] == Encoded(v, encode).value
    ensures OptionalMatches(o, key, v, encode)
  {
  }

  lemma BlockToJsonRead(b: Block)
    ensures BlockRead(BlockToJson(b), b)
  {
  }

  lemma CategoryToJsonRead(c: Category)
    ensures CategoryRead(CategoryToJson(c), c)
  {
    var items := CategoryToJson(c).fields["blocks"].items;
    forall i | 0 <= i < |c.blocks|
      ensures BlockRead(items[i], c.blocks[i])
    {
      BlockToJsonRead(c.blocks[i]);
    }
  }

  lemma MetaToJsonRead(m: Meta)
    ensures MetaRead(MetaToJson(m), m)
  {
    var o := MetaToJson(m).fields;
    EncodedMatches(o, "authors", m.authors, FromStrings);
    EncodedMatches(o, "bugs", m.bugs, FromString);
    EncodedMatches(o, "description", m.description, FromString);
    EncodedMatches(o, "homepage", m.homepage, FromString);
    EncodedMatches(o, "repository", m.repository, FromString);
    EncodedMatches(o, "tags", m.tags, FromStrings);
    EncodedMatches(o, "signature", m.signature, FromString);
    EncodedMatches(o, "isOrigin", m.isOrigin, FromBool);
    EncodedMatches(o, "publicKeyUrl", m.publicKeyUrl, FromString);
    EncodedMatches(o, "secureSource", m.secureSource, FromBool);
    EncodedMatches(o, "verifiedSignature", m.verifiedSignature, FromBool);
  }

  lemma PeerDependenciesToJsonRead(m: map<string, PeerDependency>)
    ensures PeerDependenciesRead(PeerDependenciesToJson(m), m)
  {
  }

  lemma ConfigFileToJsonRead(c: ConfigFile)
    ensures ConfigFileRead(ConfigFileToJson(c), c)
  {
  }

  lemma ManifestConfigFileToJsonRead(c: ManifestConfigFile)
    ensures ManifestConfigFileRead(ManifestConfigFileToJson(c), c)
  {
  }

  lemma ManifestToJsonRead(m: Manifest)
    ensures ManifestRead(ManifestToJson(m), m)
  {
    var o := ManifestToJson(m).fields;
    if m.meta.Some? {
      MetaToJsonRead(m.meta.value);
    }
    if m.peerDependencies.Some? {
      PeerDependenciesToJsonRead(m.peerDependencies.value);
    }
    if m.configFiles.Some? {
      forall i | 0 <= i < |m.configFiles.value|
        ensures ManifestConfigFileRead(o["configFiles"].items[i], m.configFiles.value[i])
      {
        ManifestConfigFileToJsonRead(m.configFiles.value[i]);
      }
    }
    forall i | 0 <= i < |m.categories|
      ensures CategoryRead(o["categories"].items[i], m.categories[i])
    {
      CategoryToJsonRead(m.categories[i]);
    }
  }

  // ---------------------------------------------------------------------
  // Round trips: validating the encoding of a value gives the value back.

  lemma BlockRoundTrip(b: Block)
    ensures ValidateBlock(BlockToJson(b)) == Ok(b)
  {
    var j := BlockToJson(b);
    BlockToJsonRead(b);
    BlockReadUnique(j, b, b);
    BlockReadUnique(j, ValidateBlock(j).value, b);
  }

  lemma CategoryRoundTrip(c: Category)
    ensures ValidateCategory(CategoryToJson(c)) == Ok(c)
  {
    var j := CategoryToJson(c);
    CategoryToJsonRead(c);
    CategoryReadUnique(j, c, c);
    CategoryReadUnique(j, ValidateCategory(j).value, c);
  }

  lemma MetaRoundTrip(m: Meta)
    ensures ValidateMeta(MetaToJson(m)) == Ok(m)
  {
    var j := MetaToJson(m);
    MetaToJsonRead(m);
    MetaReadUnique(j, m, m);
    MetaReadUnique(j, ValidateMeta(j).value, m);
  }

  lemma PeerDependenciesRoundTrip(m: map<string, PeerDependency>)
    ensures ValidatePeerDependencies(PeerDependenciesToJson(m)) == Ok(m)
  {
    var j := PeerDependenciesToJson(m);
    PeerDependenciesToJsonRead(m);
    PeerDependenciesReadUnique(j, m, m);
    PeerDependenciesReadUnique(j, ValidatePeerDependencies(j).value, m);
  }

  /** Both forms of a peer dependency: a bare version string and an
      object with a version and a message. */
  lemma PeerDependencyRoundTrip(p: PeerDependency)
    ensures ValidatePeerDependency(PeerDependencyToJson(p)) == Ok(p)
  {
    var j := PeerDependencyToJson(p);
    assert PeerDependencyRead(j, p);
    match ValidatePeerDependency(j).value
    case Version(_) =>
    case Detailed(_, _) =>
  }

  lemma ConfigFileRoundTrip(c: ConfigFile)
    ensures ValidateConfigFile(ConfigFileToJson(c)) == Ok(c)
  {
    var j := ConfigFileToJson(c);
    ConfigFileToJsonRead(c);
    ConfigFileReadUnique(j, c, c);
    ConfigFileReadUnique(j, ValidateConfigFile(j).value, c);
  }

  lemma ManifestConfigFileRoundTrip(c: ManifestConfigFile)
    ensures ValidateManifestConfigFile(ManifestConfigFileToJson(c)) == Ok(c)
  {
    var j := ManifestConfigFileToJson(c);
    ManifestConfigFileToJsonRead(c);
    ManifestConfigFileReadUnique(j, c, c);
    ManifestConfigFileReadUnique(j, ValidateManifestConfigFile(j).value, c);
  }

  lemma ManifestRoundTrip(m: Manifest)
    ensures ValidateManifest(ManifestToJson(m)) == Ok(m)
  {
    var j := ManifestToJson(m);
    ManifestToJsonRead(m);
    ManifestReadUnique(j, m, m);
    ManifestReadUnique(j, ValidateManifest(j).value, m);
  }

  // ---------------------------------------------------------------------
  // Entries under undeclared keys are dropped, not rejected.

  lemma BlockIgnoresUnknownKeys(o: map<string, Json>)
    ensures ValidateBlock(Obj(o)) == ValidateBlock(Obj(Only(o, BlockKeys)))
  {
  }

  lemma CategoryIgnoresUnknownKeys(o: map<string, Json>)
    ensures ValidateCategory(Obj(o)) == ValidateCategory(Obj(Only(o, CategoryKeys)))
  {
  }

  /** The object form of a peer dependency is non-strict too. */
  lemma PeerDependencyIgnoresUnknownKeys(o: map<string, Json>)
    ensures ValidatePeerDependency(Obj(o)) == ValidatePeerDependency(Obj(Only(o, {"version", "message"})))
  {
  }

  lemma MetaIgnoresUnknownKeys(o: map<string, Json>)
    ensures ValidateMeta(Obj(o)) == ValidateMeta(Obj(Only(o, MetaKeys)))
  {
    var p := Only(o, MetaKeys);
    forall key | key in MetaKeys
      ensures (key in o <==> key in p) && (key in o ==> o[key] == p[key])
    {
    }
    assert Optional(o, "authors", StringArray) == Optional(p, "authors", StringArray);
    assert Optional(o, "bugs", AsString) == Optional(p, "bugs", AsString);
    assert Optional(o, "description", AsString) == Optional(p, "description", AsString);
    assert Optional(o, "homepage", AsString) == Optional(p, "homepage", AsString);
    assert Optional(o, "repository", AsString) == Optional(p, "repository", AsString);
    assert Optional(o, "tags", StringArray) == Optional(p, "tags", StringArray);
    assert Optional(o, "signature", AsString) == Optional(p, "signature", AsString);
    assert Optional(o, "isOrigin", AsBool) == Optional(p, "isOrigin", AsBool);
    assert Optional(o, "publicKeyUrl", AsString) == Optional(p, "publicKeyUrl", AsString);
    assert Optional(o, "secureSource", AsBool) == Optional(p, "secureSource", AsBool);
    assert Optional(o, "verifiedSignature", AsBool) == Optional(p, "verifiedSignature", AsBool);
  }

  lemma ConfigFileIgnoresUnknownKeys(o: map<string, Json>)
    ensures ValidateConfigFile(Obj(o)) == ValidateConfigFile(Obj(Only(o, ConfigFileKeys)))
    ensures ValidateManifestConfigFile(Obj(o)) == ValidateManifestConfigFile(Obj(Only(o, ManifestConfigFileKeys)))
  {
  }

  lemma ManifestIgnoresUnknownKeys(o: map<string, Json>)
    ensures ValidateManifest(Obj(o)) == ValidateManifest(Obj(Only(o, ManifestKeys)))
  {
  }

  // ---------------------------------------------------------------------
  // Defaults.

  /** Dropping `list` from an accepted block keeps it accepted and changes
      only `list`, to true. */
  lemma BlockListDefault(o: map<string, Json>)
    requires ValidateBlock(Obj(o)).Ok?
    ensures ValidateBlock(Obj(o - {"list"})) == Ok(ValidateBlock(Obj(o)).value.(list := true))
  {
    var b := ValidateBlock(Obj(o)).value;
    var j := Obj(o - {"list"});
    assert BlockShape(j);
    assert BlockRead(j, b.(list := true));
    BlockReadUnique(j, ValidateBlock(j).value, b.(list := true));
  }

  /** Dropping `optional` from an accepted config file keeps it accepted
      and changes only `optional`, to false. */
  lemma ConfigFileOptionalDefault(o: map<string, Json>)
    requires ValidateConfigFile(Obj(o)).Ok?
    ensures ValidateConfigFile(Obj(o - {"optional"})) == Ok(ValidateConfigFile(Obj(o)).value.(optional := false))
  {
  }

  // ---------------------------------------------------------------------
  // A manifest config file is a config file with two more optional lists.

  lemma ManifestConfigFileExtendsConfigFile(j: Json)
    ensures ValidateManifestConfigFile(j).Ok? <==>
              && ValidateConfigFile(j).Ok?
              && ("dependencies" in j.fields ==> IsStringArray(j.fields["dependencies"]))
              && ("devDependencies" in j.fields ==> IsStringArray(j.fields["devDependencies"]))
    ensures ValidateManifestConfigFile(j).Ok? ==>
              ValidateConfigFile(j) == Ok(ValidateManifestConfigFile(j).value.Base())
  {
  }

  // ---------------------------------------------------------------------
  // The smallest manifest: one empty category and nothing else.

  lemma SmallestManifest()
    ensures ValidateManifest(Obj(map["categories" := Arr([Obj(map["name" := Str("utils"), "blocks" := Arr([])])])]))
            == Ok(Manifest(None, None, None, [Category("utils", [])]))
  {
    var m := Manifest(None, None, None, [Category("utils", [])]);
    assert |CategoryToJson(m.categories[0]).fields["blocks"].items| == 0;
    assert CategoryToJson(m.categories[0]) == Obj(map["name" := Str("utils"), "blocks" := Arr([])]);
    assert ManifestToJson(m).fields["categories"].items == [CategoryToJson(m.categories[0])];
    assert ManifestToJson(m) == Obj(map["categories" := Arr([Obj(map["name" := Str("utils"), "blocks" := Arr([])])])]);
    ManifestRoundTrip(m);
  }

  /** Without `categories` a manifest is rejected, whatever else it holds. */
  lemma ManifestNeedsCategories(o: map<string, Json>)
    requires "categories" !in o
    ensures ValidateManifest(Obj(o)).Err?
  {
  }
}
