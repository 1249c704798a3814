/** The manifest schema of packages/cli/src/types.ts as a validator from a
    parsed JSON value to typed values. Objects are non-strict: entries
    under keys the schema does not declare are dropped. For each shape
    there is

      - the typed value (`Block`, `Category`, `Meta`, ...),
      - `...Shape(j)`, a declarative statement of which JSON is accepted,
      - `...Read(j, x)`, stating that `x` holds exactly the values of `j`
        (defaults filled in where the schema has them),
      - `Validate...(j)`, the validator, proved to accept exactly the shape
        and to return what it read,
      - `...ToJson(x)`, an encoder, with the round trip through the
        validator proved. */
module Schema {
  import opened Results
  import opened Json

  // ---------------------------------------------------------------------
  // Typed values.

  /** `_imports_` is spelled `imports` here. */
  datatype Block = Block(
    name: string,
    category: string,
    localDependencies: seq<string>,
    dependencies: seq<string>,
    devDependencies: seq<string>,
    tests: bool,
    list: bool,
    directory: string,
    subdirectory: bool,
    files: seq<string>,
    imports: map<string, string>)

  datatype Category = Category(name: string, blocks: seq<Block>)

  datatype Meta = Meta(
    authors: Option<seq<string>>,
    bugs: Option<string>,
    description: Option<string>,
    homepage: Option<string>,
    repository: Option<string>,
    tags: Option<seq<string>>,
    signature: Option<string>,
    isOrigin: Option<bool>,
    publicKeyUrl: Option<string>,
    secureSource: Option<bool>,
    verifiedSignature: Option<bool>)

  /** A peer dependency is a bare version string or a version with a
      message. */
  datatype PeerDependency =
    | Version(version: string)
    | Detailed(version: string, message: string)

  datatype ConfigFile = ConfigFile(
    name: string,
    path: string,
    expectedPath: Option<string>,
    optional: bool)

  /** A config file as the manifest declares it: the entries of
      `ConfigFile` plus two optional dependency lists. */
  datatype ManifestConfigFile = ManifestConfigFile(
    name: string,
    path: string,
    expectedPath: Option<string>,
    optional: bool,
    dependencies: Option<seq<string>>,
    devDependencies: Option<seq<string>>)
  {
    /** The part that a plain config file carries. */
    function Base(): ConfigFile {
      ConfigFile(name, path, expectedPath, optional)
    }
  }

  datatype Manifest = Manifest(
    meta: Option<Meta>,
    peerDependencies: Option<map<string, PeerDependency>>,
    configFiles: Option<seq<ManifestConfigFile>>,
    categories: seq<Category>)

  // ---------------------------------------------------------------------
  // Block.

  const BlockKeys: set<string> := {
    "name", "category", "localDependencies", "dependencies", "devDependencies",
    "tests", "list", "directory", "subdirectory", "files", "_imports_"}

  /** Every entry is required except `list`, which may be absent. */
  predicate BlockShape(j: Json) {
    && j.Obj?
    && "name" in j.fields && j.fields["name"].Str?
    && "category" in j.fields && j.fields["category"].Str?
    && "localDependencies" in j.fields && IsStringArray(j.fields["localDependencies"])
    && "dependencies" in j.fields && IsStringArray(j.fields["dependencies"])
    && "devDependencies" in j.fields && IsStringArray(j.fields["devDependencies"])
    && "tests" in j.fields && j.fields["tests"].Bool?
    && ("list" in j.fields ==> j.fields["list"].Bool?)
    && "directory" in j.fields && j.fields["directory"].Str?
    && "subdirectory" in j.fields && j.fields["subdirectory"].Bool?
    && "files" in j.fields && IsStringArray(j.fields["files"])
    && "_imports_" in j.fields && IsStringRecord(j.fields["_imports_"])
  }

  /** `b` holds the entries of `j`; `list` is true when `j` omits it. */
  predicate BlockRead(j: Json, b: Block) {
    && j.Obj?
    && "name" in j.fields && j.fields["name"] == FromString(b.name)
    && "category" in j.fields && j.fields["category"] == FromString(b.category)
    && "localDependencies" in j.fields && j.fields["localDependencies"] == FromStrings(b.localDependencies)
    && "dependencies" in j.fields && j.fields["dependencies"] == FromStrings(b.dependencies)
    && "devDependencies" in j.fields && j.fields["devDependencies"] == FromStrings(b.devDependencies)
    && "tests" in j.fields && j.fields["tests"] == FromBool(b.tests)
    && (if "list" in j.fields then j.fields["list"] == FromBool(b.list) else b.list)
    && "directory" in j.fields && j.fields["directory"] == FromString(b.directory)
    && "subdirectory" in j.fields && j.fields["subdirectory"] == FromBool(b.subdirectory)
    && "files" in j.fields && j.fields["files"] == FromStrings(b.files)
    && "_imports_" in j.fields && j.fields["_imports_"] == FromStringMap(b.imports)
  }

  function ValidateBlock(j: Json): (r: Result<Block, Issue>)
    ensures r.Ok? <==> BlockShape(j)
    ensures r.Ok? ==> BlockRead(j, r.value)
  {
    var o :- AsObject(j);
    var name :- Required(o, "name", AsString);
    var category :- Required(o, "category", AsString);
    var localDependencies :- Required(o, "localDependencies", StringArray);
    var dependencies :- Required(o, "dependencies", StringArray);
    var devDependencies :- Required(o, "devDependencies", StringArray);
    var tests :- Required(o, "tests", AsBool);
    var list :- WithDefault(o, "list", AsBool, true);
    var directory :- Required(o, "directory", AsString);
    var subdirectory :- Required(o, "subdirectory", AsBool);
    var files :- Required(o, "files", StringArray);
    var imports :- Required(o, "_imports_", StringRecord);
    Ok(Block(name, category, localDependencies, dependencies, devDependencies,
             tests, list, directory, subdirectory, files, imports))
  }

  function BlockToJson(b: Block): Json {
    Obj(map[
      "name" := FromString(b.name),
      "category" := FromString(b.category),
      "localDependencies" := FromStrings(b.localDependencies),
      "dependencies" := FromStrings(b.dependencies),
      "devDependencies" := FromStrings(b.devDependencies),
      "tests" := FromBool(b.tests),
      "list" := FromBool(b.list),
      "directory" := FromString(b.directory),
      "subdirectory" := FromBool(b.subdirectory),
      "files" := FromStrings(b.files),
      "_imports_" := FromStringMap(b.imports)])
  }

  // ---------------------------------------------------------------------
  // Category.

  const CategoryKeys: set<string> := {"name", "blocks"}

  predicate CategoryShape(j: Json) {
    && j.Obj?
    && "name" in j.fields && j.fields["name"].Str?
    && "blocks" in j.fields && j.fields["blocks"].Arr?
    && forall i :: 0 <= i < |j.fields["blocks"].items| ==> BlockShape(j.fields["blocks"].items[i])
  }

  /** `c` holds the name of `j` and one block per item of its `blocks`,
      in the same order. */
  predicate CategoryRead(j: Json, c: Category) {
    && j.Obj?
    && "name" in j.fields && j.fields["name"] == FromString(c.name)
    && "blocks" in j.fields && j.fields["blocks"].Arr?
    && |c.blocks| == |j.fields["blocks"].items|
    && forall i :: 0 <= i < |c.blocks| ==> BlockRead(j.fields["blocks"].items[i], c.blocks[i])
  }

  /** `v.array(blockSchema)`: every item a block, read in order. */
  function Blocks(j: Json): (r: Result<seq<Block>, Issue>)
    ensures r.Ok? <==> j.Arr? && forall i :: 0 <= i < |j.items| ==> BlockShape(j.items[i])
    ensures r.Ok? ==> |r.value| == |j.items| && forall i :: 0 <= i < |j.items| ==> BlockRead(j.items[i], r.value[i])
  {
    ArrayOf(j, ValidateBlock)
  }

  function ValidateCategory(j: Json): (r: Result<Category, Issue>)
    ensures r.Ok? <==> CategoryShape(j)
    ensures r.Ok? ==> CategoryRead(j, r.value)
  {
    var o :- AsObject(j);
    var name :- Required(o, "name", AsString);
    var blocks :- Required(o, "blocks", Blocks);
    Ok(Category(name, blocks))
  }

  function CategoryToJson(c: Category): Json {
    Obj(map[
      "name" := FromString(c.name),
      "blocks" := Arr(seq(|c.blocks|, i requires 0 <= i < |c.blocks| => BlockToJson(c.blocks[i])))])
  }

  // ---------------------------------------------------------------------
  // Meta.

  const MetaKeys: set<string> := {
    "authors", "bugs", "description", "homepage", "repository", "tags",
    "signature", "isOrigin", "publicKeyUrl", "secureSource", "verifiedSignature"}

  /** Every entry is optional; a present one must have its declared type. */
  predicate MetaShape(j: Json) {
    && j.Obj?
    && ("authors" in j.fields ==> IsStringArray(j.fields["authors"]))
    && ("bugs" in j.fields ==> j.fields["bugs"].Str?)
    && ("description" in j.fields ==> j.fields["description"].Str?)
    && ("homepage" in j.fields ==> j.fields["homepage"].Str?)
    && ("repository" in j.fields ==> j.fields["repository"].Str?)
    && ("tags" in j.fields ==> IsStringArray(j.fields["tags"]))
    && ("signature" in j.fields ==> j.fields["signature"].Str?)
    && ("isOrigin" in j.fields ==> j.fields["isOrigin"].Bool?)
    && ("publicKeyUrl" in j.fields ==> j.fields["publicKeyUrl"].Str?)
    && ("secureSource" in j.fields ==> j.fields["secureSource"].Bool?)
    && ("verifiedSignature" in j.fields ==> j.fields["verifiedSignature"].Bool?)
  }

  predicate MetaRead(j: Json, m: Meta) {
    && j.Obj?
    && OptionalMatches(j.fields, "authors", m.authors, FromStrings)
    && OptionalMatches(j.fields, "bugs", m.bugs, FromString)
    && OptionalMatches(j.fields, "description", m.description, FromString)
    && OptionalMatches(j.fields, "homepage", m.homepage, FromString)
    && OptionalMatches(j.fields, "repository", m.repository, FromString)
    && OptionalMatches(j.fields, "tags", m.tags, FromStrings)
    && OptionalMatches(j.fields, "signature", m.signature, FromString)
    && OptionalMatches(j.fields, "isOrigin", m.isOrigin, FromBool)
    && OptionalMatches(j.fields, "publicKeyUrl", m.publicKeyUrl, FromString)
    && OptionalMatches(j.fields, "secureSource", m.secureSource, FromBool)
    && OptionalMatches(j.fields, "verifiedSignature", m.verifiedSignature, FromBool)
  }

  function ValidateMeta(j: Json): (r: Result<Meta, Issue>)
    ensures r.Ok? <==> MetaShape(j)
    ensures r.Ok? ==> MetaRead(j, r.value)
  {
    var o :- AsObject(j);
    var authors :- Optional(o, "authors", StringArray);
    var bugs :- Optional(o, "bugs", AsString);
    var description :- Optional(o, "description", AsString);
    var homepage :- Optional(o, "homepage", AsString);
    var repository :- Optional(o, "repository", AsString);
    var tags :- Optional(o, "tags", StringArray);
    var signature :- Optional(o, "signature", AsString);
    var isOrigin :- Optional(o, "isOrigin", AsBool);
    var publicKeyUrl :- Optional(o, "publicKeyUrl", AsString);
    var secureSource :- Optional(o, "secureSource", AsBool);
    var verifiedSignature :- Optional(o, "verifiedSignature", AsBool);
    Ok(Meta(authors, bugs, description, homepage, repository, tags, signature,
            isOrigin, publicKeyUrl, secureSource, verifiedSignature))
  }

  /** What `MetaToJson` holds under `key`: the encoded field, when set. */
  function MetaEntry(m: Meta, key: string): Option<Json> {
    if key == "authors" then Encoded(m.authors, FromStrings)
    else if key == "bugs" then Encoded(m.bugs, FromString)
    else if key == "description" then Encoded(m.description, FromString)
    else if key == "homepage" then Encoded(m.homepage, FromString)
    else if key == "repository" then Encoded(m.repository, FromString)
    else if key == "tags" then Encoded(m.tags, FromStrings)
    else if key == "signature" then Encoded(m.signature, FromString)
    else if key == "isOrigin" then Encoded(m.isOrigin, FromBool)
    else if key == "publicKeyUrl" then Encoded(m.publicKeyUrl, FromString)
    else if key == "secureSource" then Encoded(m.secureSource, FromBool)
    else if key == "verifiedSignature" then Encoded(m.verifiedSignature, FromBool)
    else None
  }

  function MetaToJson(m: Meta): Json {
    Obj(map key | key in MetaKeys && MetaEntry(m, key).Some? :: MetaEntry(m, key).value)
  }

  // ---------------------------------------------------------------------
  // Peer dependencies.

  /** A string, or an object with string `version` and string `message`. */
  predicate PeerDependencyShape(j: Json) {
    || j.Str?
    || (&& j.Obj?
        && "version" in j.fields && j.fields["version"].Str?
        && "message" in j.fields && j.fields["message"].Str?)
  }

  predicate PeerDependencyRead(j: Json, p: PeerDependency) {
    match p
    case Version(v) => j == FromString(v)
    case Detailed(v, msg) =>
      && j.Obj?
      && "version" in j.fields && j.fields["version"] == FromString(v)
      && "message" in j.fields && j.fields["message"] == FromString(msg)
  }

  /** The union tries the string alternative first, then the object. */
  function ValidatePeerDependency(j: Json): (r: Result<PeerDependency, Issue>)
    ensures r.Ok? <==> PeerDependencyShape(j)
    ensures r.Ok? ==> PeerDependencyRead(j, r.value)
  {
    if j.Str? then
      Ok(Version(j.s))
    else if j.Obj? then
      var version :- Required(j.fields, "version", AsString);
      var message :- Required(j.fields, "message", AsString);
      Ok(Detailed(version, message))
    else
      Err(Issue([], "string or object"))
  }

  predicate PeerDependenciesShape(j: Json) {
    j.Obj? && forall k :: k in j.fields ==> PeerDependencyShape(j.fields[k])
  }

  predicate PeerDependenciesRead(j: Json, m: map<string, PeerDependency>) {
    && j.Obj?
    && m.Keys == j.fields.Keys
    && forall k :: k in m ==> PeerDependencyRead(j.fields[k], m[k])
  }

  function ValidatePeerDependencies(j: Json): (r: Result<map<string, PeerDependency>, Issue>)
    ensures r.Ok? <==> PeerDependenciesShape(j)
    ensures r.Ok? ==> PeerDependenciesRead(j, r.value)
  {
    RecordOf(j, ValidatePeerDependency)
  }

  function PeerDependencyToJson(p: PeerDependency): Json {
    match p
    case Version(v) => FromString(v)
    case Detailed(v, msg) => Obj(map["version" := FromString(v), "message" := FromString(msg)])
  }

  function PeerDependenciesToJson(m: map<string, PeerDependency>): Json {
    Obj(map k | k in m :: PeerDependencyToJson(m[k]))
  }

  // ---------------------------------------------------------------------
  // Config files.

  const ConfigFileKeys: set<string> := {"name", "path", "expectedPath", "optional"}

  const ManifestConfigFileKeys: set<string> := ConfigFileKeys + {"dependencies", "devDependencies"}

  predicate ConfigFileShape(j: Json) {
    && j.Obj?
    && "name" in j.fields && j.fields["name"].Str?
    && "path" in j.fields && j.fields["path"].Str?
    && ("expectedPath" in j.fields ==> j.fields["expectedPath"].Str?)
    && ("optional" in j.fields ==> j.fields["optional"].Bool?)
  }

  /** `c` holds the entries of `j`; `optional` is false when `j` omits it. */
  predicate ConfigFileRead(j: Json, c: ConfigFile) {
    && j.Obj?
    && "name" in j.fields && j.fields["name"] == FromString(c.name)
    && "path" in j.fields && j.fields["path"] == FromString(c.path)
    && OptionalMatches(j.fields, "expectedPath", c.expectedPath, FromString)
    && (if "optional" in j.fields then j.fields["optional"] == FromBool(c.optional) else !c.optional)
  }

  function ValidateConfigFile(j: Json): (r: Result<ConfigFile, Issue>)
    ensures r.Ok? <==> ConfigFileShape(j)
    ensures r.Ok? ==> ConfigFileRead(j, r.value)
  {
    var o :- AsObject(j);
    var name :- Required(o, "name", AsString);
    var path :- Required(o, "path", AsString);
    var expectedPath :- Optional(o, "expectedPath", AsString);
    var optional :- WithDefault(o, "optional", AsBool, false);
    Ok(ConfigFile(name, path, expectedPath, optional))
  }

  function ConfigFileToJson(c: ConfigFile): Json {
    var o0 := map["name" := FromString(c.name), "path" := FromString(c.path), "optional" := FromBool(c.optional)];
    Obj(WithOptional(o0, "expectedPath", c.expectedPath, FromString))
  }

  predicate ManifestConfigFileShape(j: Json) {
    && ConfigFileShape(j)
    && ("dependencies" in j.fields ==> IsStringArray(j.fields["dependencies"]))
    && ("devDependencies" in j.fields ==> IsStringArray(j.fields["devDependencies"]))
  }

  predicate ManifestConfigFileRead(j: Json, c: ManifestConfigFile) {
    && ConfigFileRead(j, c.Base())
    && OptionalMatches(j.fields, "dependencies", c.dependencies, FromStrings)
    && OptionalMatches(j.fields, "devDependencies", c.devDependencies, FromStrings)
  }

  function ValidateManifestConfigFile(j: Json): (r: Result<ManifestConfigFile, Issue>)
    ensures r.Ok? <==> ManifestConfigFileShape(j)
    ensures r.Ok? ==> ManifestConfigFileRead(j, r.value)
  {
    var o :- AsObject(j);
    var name :- Required(o, "name", AsString);
    var path :- Required(o, "path", AsString);
    var expectedPath :- Optional(o, "expectedPath", AsString);
    var optional :- WithDefault(o, "optional", AsBool, false);
    var dependencies :- Optional(o, "dependencies", StringArray);
    var devDependencies :- Optional(o, "devDependencies", StringArray);
    Ok(ManifestConfigFile(name, path, expectedPath, optional, dependencies, devDependencies))
  }

  function ManifestConfigFileToJson(c: ManifestConfigFile): Json {
    var o0 := map["name" := FromString(c.name), "path" := FromString(c.path), "optional" := FromBool(c.optional)];
    var o1 := WithOptional(o0, "expectedPath", c.expectedPath, FromString);
    var o2 := WithOptional(o1, "dependencies", c.dependencies, FromStrings);
    var o3 := WithOptional(o2, "devDependencies", c.devDependencies, FromStrings);
    Obj(o3)
  }

  // ---------------------------------------------------------------------
  // Manifest.

  const ManifestKeys: set<string> := {"meta", "peerDependencies", "configFiles", "categories"}

  predicate ConfigFilesShape(j: Json) {
    j.Arr? && forall i :: 0 <= i < |j.items| ==> ManifestConfigFileShape(j.items[i])
  }

  predicate CategoriesShape(j: Json) {
    j.Arr? && forall i :: 0 <= i < |j.items| ==> CategoryShape(j.items[i])
  }

  /** Only `categories` is required. */
  predicate ManifestShape(j: Json) {
    && j.Obj?
    && ("meta" in j.fields ==> MetaShape(j.fields["meta"]))
    && ("peerDependencies" in j.fields ==> PeerDependenciesShape(j.fields["peerDependencies"]))
    && ("configFiles" in j.fields ==> ConfigFilesShape(j.fields["configFiles"]))
    && "categories" in j.fields && CategoriesShape(j.fields["categories"])
  }

  /** `m` holds what `j` holds: an absent optional entry stays absent, and
      the config files and categories keep their order. */
  predicate ManifestRead(j: Json, m: Manifest) {
    && j.Obj?
    && (m.meta.Some? <==> "meta" in j.fields)
    && (m.meta.Some? ==> MetaRead(j.fields["meta"], m.meta.value))
    && (m.peerDependencies.Some? <==> "peerDependencies" in j.fields)
    && (m.peerDependencies.Some? ==> PeerDependenciesRead(j.fields["peerDependencies"], m.peerDependencies.value))
    && (m.configFiles.Some? <==> "configFiles" in j.fields)
    && (m.configFiles.Some? ==>
          && j.fields["configFiles"].Arr?
          && |m.configFiles.value| == |j.fields["configFiles"].items|
          && forall i :: 0 <= i < |m.configFiles.value| ==>
               ManifestConfigFileRead(j.fields["configFiles"].items[i], m.configFiles.value[i]))
    && "categories" in j.fields && j.fields["categories"].Arr?
    && |m.categories| == |j.fields["categories"].items|
    && forall i :: 0 <= i < |m.categories| ==> CategoryRead(j.fields["categories"].items[i], m.categories[i])
  }

  /** `v.array(manifestConfigFileSchema)`: every item a manifest config
      file, read in order. */
  function ConfigFiles(j: Json): (r: Result<seq<ManifestConfigFile>, Issue>)
    ensures r.Ok? <==> ConfigFilesShape(j)
    ensures r.Ok? ==> |r.value| == |j.items| &&
                      forall i :: 0 <= i < |j.items| ==> ManifestConfigFileRead(j.items[i], r.value[i])
  {
    ArrayOf(j, ValidateManifestConfigFile)
  }

  /** `v.array(categorySchema)`: every item a category, read in order. */
  function Categories(j: Json): (r: Result<seq<Category>, Issue>)
    ensures r.Ok? <==> CategoriesShape(j)
    ensures r.Ok? ==> |r.value| == |j.items| && forall i :: 0 <= i < |j.items| ==> CategoryRead(j.items[i], r.value[i])
  {
    ArrayOf(j, ValidateCategory)
  }

  function ValidateManifest(j: Json): (r: Result<Manifest, Issue>)
    ensures r.Ok? <==> ManifestShape(j)
    ensures r.Ok? ==> ManifestRead(j, r.value)
  {
    var o :- AsObject(j);
    var meta :- Optional(o, "meta", ValidateMeta);
    var peerDependencies :- Optional(o, "peerDependencies", ValidatePeerDependencies);
    var configFiles :- Optional(o, "configFiles", ConfigFiles);
    var categories :- Required(o, "categories", Categories);
    Ok(Manifest(meta, peerDependencies, configFiles, categories))
  }

  function ManifestToJson(m: Manifest): Json {
    var cs := m.categories;
    var o0 := map["categories" := Arr(seq(|cs|, i requires 0 <= i < |cs| => CategoryToJson(cs[i])))];
    var o1 := WithOptional(o0, "meta", m.meta, MetaToJson);
    var o2 := WithOptional(o1, "peerDependencies", m.peerDependencies, PeerDependenciesToJson);
    var o3 := WithOptional(o2, "configFiles", m.configFiles, ConfigFilesToJson);
    Obj(o3)
  }

  function ConfigFilesToJson(cs: seq<ManifestConfigFile>): Json {
    Arr(seq(|cs|, i requires 0 <= i < |cs| => ManifestConfigFileToJson(cs[i])))
  }
}
