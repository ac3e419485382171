/** The JSON coding of the version-1 model, as Swift synthesizes it from
    `Codable`: every entity is an object whose keys are its property names,
    except that `_description` travels under "description"; optional
    properties are written only when present and read as absent when their
    key is missing or null; required keys must be present. Properties are
    decoded in declaration order, so the first failing one is reported. */
module PackageCollectionCoding {
  import opened Json
  import opened PackageCollectionModel

  // ---------------------------------------------------------------------
  // Wire keys (the `CodingKeys` of each entity)

  const CollectionKeys: set<string> :=
    {"title", "description", "keywords", "packages", "formatVersion", "revision", "generatedAt", "generatedBy"}
  const CollectionRequiredKeys: set<string> := {"title", "packages", "formatVersion", "generatedAt"}
  const CollectionOptionalKeys: set<string> := {"description", "keywords", "revision", "generatedBy"}
  const AuthorKeys: set<string> := {"name"}
  const PackageKeys: set<string> := {"url", "description", "keywords", "versions", "readmeURL"}
  const PackageRequiredKeys: set<string> := {"url", "versions"}
  const PackageOptionalKeys: set<string> := {"description", "keywords", "readmeURL"}
  const VersionKeys: set<string> :=
    {"version", "packageName", "targets", "products", "toolsVersion",
     "minimumPlatformVersions", "verifiedPlatforms", "verifiedSwiftVersions", "license"}
  const VersionRequiredKeys: set<string> := {"version", "packageName", "targets", "products", "toolsVersion"}
  const VersionOptionalKeys: set<string> :=
    {"minimumPlatformVersions", "verifiedPlatforms", "verifiedSwiftVersions", "license"}
  const TargetKeys: set<string> := {"name", "moduleName"}
  const TargetRequiredKeys: set<string> := {"name"}
  const TargetOptionalKeys: set<string> := {"moduleName"}
  const ProductKeys: set<string> := {"name", "type", "targets"}
  const PlatformVersionKeys: set<string> := {"name", "version"}
  const PlatformKeys: set<string> := {"name"}
  const LicenseKeys: set<string> := {"name", "url"}

  // ---------------------------------------------------------------------
  // Foreign and enumerated values

  const InvalidFormatVersion: string := "Cannot initialize FormatVersion from invalid String value"

  function EncodeFormatVersion(v: FormatVersion): Json {
    JString(FormatVersionRawValue(v))
  }

  /** A raw-value enum decodes from its raw string; an unknown string is
      corrupted data. */
  function DecodeFormatVersion(j: Json, path: Path): (r: Result<FormatVersion>)
    ensures r.Ok? <==> j == JString("1.0")
    ensures j.JString? && j.s != "1.0" ==> r == Err(DataCorrupted(path, InvalidFormatVersion))
  {
    var s :- DecodeString(j, path);
    match FormatVersionFromRawValue(s)
    case Some(v) => Ok(v)
    case None => Err(DataCorrupted(path, InvalidFormatVersion))
  }

  function EncodeUrl(u: Url): Json { JString(u.absoluteString) }

  function DecodeUrl(j: Json, path: Path): (r: Result<Url>)
    ensures r.Ok? <==> j.JString?
    ensures r.Ok? ==> r.value.absoluteString == j.s
  {
    var s :- DecodeString(j, path);
    Ok(Url(s))
  }

  function EncodeTimestamp(t: Timestamp): Json { JNumber(t.sinceReferenceDate) }

  function DecodeTimestamp(j: Json, path: Path): (r: Result<Timestamp>)
    ensures r.Ok? <==> j.JNumber?
    ensures r.Ok? ==> r.value.sinceReferenceDate == j.n
  {
    match j
    case JNumber(n) => Ok(Timestamp(n))
    case JNull => Err(ValueNotFound(path, "Double"))
    case _ => Err(TypeMismatch(path, "Double"))
  }

  function LibraryTypeRawValue(t: LibraryType): string {
    match t
    case Static => "static"
    case Dynamic => "dynamic"
    case Automatic => "automatic"
  }

  function DecodeLibraryType(j: Json, path: Path): (r: Result<LibraryType>)
    ensures r.Ok? ==> j == JString(LibraryTypeRawValue(r.value))
  {
    var s :- DecodeString(j, path);
    if s == "static" then Ok(Static)
    else if s == "dynamic" then Ok(Dynamic)
    else if s == "automatic" then Ok(Automatic)
    else Err(DataCorrupted(path, "Cannot initialize LibraryType from invalid String value"))
  }

  /** A library is `{"library": [<library type>]}`; the other product
      types are a single key with a null value. */
  function EncodeProductType(t: ProductType): Json {
    match t
    case Library(l) => JObject(map["library" := JArray([JString(LibraryTypeRawValue(l))])])
    case Executable => JObject(map["executable" := JNull])
    case Test => JObject(map["test" := JNull])
  }

  function DecodeProductType(j: Json, path: Path): (r: Result<ProductType>)
    ensures r.Ok? ==> j.JObject? && ("library" in j.obj || "executable" in j.obj || "test" in j.obj)
  {
    var m :- DecodeObject(j, path);
    if "library" in m then
      var libraryPath := path + [Key("library")];
      match m["library"]
      case JArray(items) =>
        if items == [] then Err(ValueNotFound(libraryPath, "LibraryType"))
        else
          var l :- DecodeLibraryType(items[0], libraryPath + [Index(0)]);
          Ok(Library(l))
      case JNull => Err(ValueNotFound(libraryPath, "Array"))
      case _ => Err(TypeMismatch(libraryPath, "Array"))
    else if "executable" in m then Ok(Executable)
    else if "test" in m then Ok(Test)
    else Err(DataCorrupted(path, "Did not find a matching key"))
  }

  // ---------------------------------------------------------------------
  // Arrays of each element type

  function EncodeStrings(xs: seq<string>): Json { EncodeArray(xs, EncodeString) }
  function DecodeStrings(j: Json, path: Path): Result<seq<string>> { DecodeArray(j, path, DecodeString) }

  function EncodePackages(xs: seq<Package>): Json { EncodeArray(xs, EncodePackage) }
  function DecodePackages(j: Json, path: Path): Result<seq<Package>> { DecodeArray(j, path, DecodePackage) }

  function EncodeVersions(xs: seq<Version>): Json { EncodeArray(xs, EncodeVersion) }
  function DecodeVersions(j: Json, path: Path): Result<seq<Version>> { DecodeArray(j, path, DecodeVersion) }

  function EncodeTargets(xs: seq<Target>): Json { EncodeArray(xs, EncodeTarget) }
  function DecodeTargets(j: Json, path: Path): Result<seq<Target>> { DecodeArray(j, path, DecodeTarget) }

  function EncodeProducts(xs: seq<Product>): Json { EncodeArray(xs, EncodeProduct) }
  function DecodeProducts(j: Json, path: Path): Result<seq<Product>> { DecodeArray(j, path, DecodeProduct) }

  function EncodePlatformVersions(xs: seq<PlatformVersion>): Json { EncodeArray(xs, EncodePlatformVersion) }
  function DecodePlatformVersions(j: Json, path: Path): Result<seq<PlatformVersion>> {
    DecodeArray(j, path, DecodePlatformVersion)
  }

  function EncodePlatforms(xs: seq<Platform>): Json { EncodeArray(xs, EncodePlatform) }
  function DecodePlatforms(j: Json, path: Path): Result<seq<Platform>> { DecodeArray(j, path, DecodePlatform) }

  // ---------------------------------------------------------------------
  // PackageCollection and Author

  /** The value written under each coding key, if any (the synthesized
      `encode(to:)`). */
  function CollectionField(c: PackageCollection, key: string): Option<Json> {
    if key == "title" then Some(EncodeString(c.title))
    else if key == "description" then EncodeIfPresent(c._description, EncodeString)
    else if key == "keywords" then EncodeIfPresent(c.keywords, EncodeStrings)
    else if key == "packages" then Some(EncodePackages(c.packages))
    else if key == "formatVersion" then Some(EncodeFormatVersion(c.formatVersion))
    else if key == "revision" then EncodeIfPresent(c.revision, EncodeInt)
    else if key == "generatedAt" then Some(EncodeTimestamp(c.generatedAt))
    else if key == "generatedBy" then EncodeIfPresent(c.generatedBy, EncodeAuthor)
    else None
  }

  function EncodePackageCollection(c: PackageCollection): (r: Json)
    ensures r.JObject? && r.obj.Keys <= CollectionKeys
  {
    JObject(map k | k in CollectionKeys && CollectionField(c, k).Some? :: CollectionField(c, k).value)
  }

  /** `c` is what the synthesized `init(from:)` reads from `m`: every
      property is what the value under its coding key decodes to, and an
      optional one is nil exactly when its key is missing or null. */
  ghost predicate CollectionRead(m: map<string, Json>, path: Path, c: PackageCollection) {
    && ReadsRequired(m, "title", path, DecodeString, c.title)
    && ReadsOptional(m, "description", path, DecodeString, c._description)
    && ReadsOptional(m, "keywords", path, DecodeStrings, c.keywords)
    && ReadsRequired(m, "packages", path, DecodePackages, c.packages)
    && ReadsRequired(m, "formatVersion", path, DecodeFormatVersion, c.formatVersion)
    && ReadsOptional(m, "revision", path, DecodeInt, c.revision)
    && ReadsRequired(m, "generatedAt", path, DecodeTimestamp, c.generatedAt)
    && ReadsOptional(m, "generatedBy", path, DecodeAuthor, c.generatedBy)
  }

  function DecodePackageCollection(j: Json, path: Path): (r: Result<PackageCollection>)
    ensures r.Ok? ==> j.JObject? && CollectionRead(j.obj, path, r.value)
    ensures r.Ok? ==> j.JObject? && "title" in j.obj && "packages" in j.obj
    ensures r.Ok? ==> "formatVersion" in j.obj && "generatedAt" in j.obj
    ensures r.Ok? ==> j.obj["formatVersion"] == JString("1.0")
  {
    var m :- DecodeObject(j, path);
    var title :- Required(m, "title", path, DecodeString);
    var description :- Optional(m, "description", path, DecodeString);
    var keywords :- Optional(m, "keywords", path, DecodeStrings);
    var packages :- Required(m, "packages", path, DecodePackages);
    var formatVersion :- Required(m, "formatVersion", path, DecodeFormatVersion);
    var revision :- Optional(m, "revision", path, DecodeInt);
    var generatedAt :- Required(m, "generatedAt", path, DecodeTimestamp);
    var generatedBy :- Optional(m, "generatedBy", path, DecodeAuthor);
    Ok(PackageCollection(title, description, keywords, packages, formatVersion, revision, generatedAt, generatedBy))
  }

  function EncodeAuthor(a: Author): (r: Json)
    ensures r.JObject? && r.obj.Keys == AuthorKeys
  {
    JObject(map["name" := EncodeString(a.name)])
  }

  ghost predicate AuthorRead(m: map<string, Json>, path: Path, a: Author) {
    ReadsRequired(m, "name", path, DecodeString, a.name)
  }

  function DecodeAuthor(j: Json, path: Path): (r: Result<Author>)
    ensures r.Ok? ==> j.JObject? && AuthorRead(j.obj, path, r.value)
    ensures r.Ok? ==> j.JObject? && "name" in j.obj
  {
    var m :- DecodeObject(j, path);
    var name :- Required(m, "name", path, DecodeString);
    Ok(Author(name))
  }

  // ---------------------------------------------------------------------
  // Package

  function PackageField(p: Package, key: string): Option<Json> {
    if key == "url" then Some(EncodeUrl(p.url))
    else if key == "description" then EncodeIfPresent(p._description, EncodeString)
    else if key == "keywords" then EncodeIfPresent(p.keywords, EncodeStrings)
    else if key == "versions" then Some(EncodeVersions(p.versions))
    else if key == "readmeURL" then EncodeIfPresent(p.readmeURL, EncodeUrl)
    else None
  }

  function EncodePackage(p: Package): (r: Json)
    ensures r.JObject? && r.obj.Keys <= PackageKeys
  {
    JObject(map k | k in PackageKeys && PackageField(p, k).Some? :: PackageField(p, k).value)
  }

  ghost predicate PackageRead(m: map<string, Json>, path: Path, pk: Package) {
    && ReadsRequired(m, "url", path, DecodeUrl, pk.url)
    && ReadsOptional(m, "description", path, DecodeString, pk._description)
    && ReadsOptional(m, "keywords", path, DecodeStrings, pk.keywords)
    && ReadsRequired(m, "versions", path, DecodeVersions, pk.versions)
    && ReadsOptional(m, "readmeURL", path, DecodeUrl, pk.readmeURL)
  }

  function DecodePackage(j: Json, path: Path): (r: Result<Package>)
    ensures r.Ok? ==> j.JObject? && PackageRead(j.obj, path, r.value)
    ensures r.Ok? ==> j.JObject? && "url" in j.obj && "versions" in j.obj
  {
    var m :- DecodeObject(j, path);
    var url :- Required(m, "url", path, DecodeUrl);
    var description :- Optional(m, "description", path, DecodeString);
    var keywords :- Optional(m, "keywords", path, DecodeStrings);
    var versions :- Required(m, "versions", path, DecodeVersions);
    var readmeURL :- Optional(m, "readmeURL", path, DecodeUrl);
    Ok(Package(url, description, keywords, versions, readmeURL))
  }

  // ---------------------------------------------------------------------
  // Version

  function VersionField(v: Version, key: string): Option<Json> {
    if key == "version" then Some(EncodeString(v.version))
    else if key == "packageName" then Some(EncodeString(v.packageName))
    else if key == "targets" then Some(EncodeTargets(v.targets))
    else if key == "products" then Some(EncodeProducts(v.products))
    else if key == "toolsVersion" then Some(EncodeString(v.toolsVersion))
    else if key == "minimumPlatformVersions" then EncodeIfPresent(v.minimumPlatformVersions, EncodePlatformVersions)
    else if key == "verifiedPlatforms" then EncodeIfPresent(v.verifiedPlatforms, EncodePlatforms)
    else if key == "verifiedSwiftVersions" then EncodeIfPresent(v.verifiedSwiftVersions, EncodeStrings)
    else if key == "license" then EncodeIfPresent(v.license, EncodeLicense)
    else None
  }

  function EncodeVersion(v: Version): (r: Json)
    ensures r.JObject? && r.obj.Keys <= VersionKeys
  {
    JObject(map k | k in VersionKeys && VersionField(v, k).Some? :: VersionField(v, k).value)
  }

  ghost predicate VersionRead(m: map<string, Json>, path: Path, v: Version) {
    && ReadsRequired(m, "version", path, DecodeString, v.version)
    && ReadsRequired(m, "packageName", path, DecodeString, v.packageName)
    && ReadsRequired(m, "targets", path, DecodeTargets, v.targets)
    && ReadsRequired(m, "products", path, DecodeProducts, v.products)
    && ReadsRequired(m, "toolsVersion", path, DecodeString, v.toolsVersion)
    && ReadsOptional(m, "minimumPlatformVersions", path, DecodePlatformVersions, v.minimumPlatformVersions)
    && ReadsOptional(m, "verifiedPlatforms", path, DecodePlatforms, v.verifiedPlatforms)
    && ReadsOptional(m, "verifiedSwiftVersions", path, DecodeStrings, v.verifiedSwiftVersions)
    && ReadsOptional(m, "license", path, DecodeLicense, v.license)
  }

  function DecodeVersion(j: Json, path: Path): (r: Result<Version>)
    ensures r.Ok? ==> j.JObject? && VersionRead(j.obj, path, r.value)
    ensures r.Ok? ==> j.JObject? && "version" in j.obj && "packageName" in j.obj
    ensures r.Ok? ==> "targets" in j.obj && "products" in j.obj && "toolsVersion" in j.obj
  {
    var m :- DecodeObject(j, path);
    var version :- Required(m, "version", path, DecodeString);
    var packageName :- Required(m, "packageName", path, DecodeString);
    var targets :- Required(m, "targets", path, DecodeTargets);
    var products :- Required(m, "products", path, DecodeProducts);
    var toolsVersion :- Required(m, "toolsVersion", path, DecodeString);
    var minimumPlatformVersions :- Optional(m, "minimumPlatformVersions", path, DecodePlatformVersions);
    var verifiedPlatforms :- Optional(m, "verifiedPlatforms", path, DecodePlatforms);
    var verifiedSwiftVersions :- Optional(m, "verifiedSwiftVersions", path, DecodeStrings);
    var license :- Optional(m, "license", path, DecodeLicense);
    Ok(Version(version, packageName, targets, products, toolsVersion,
               minimumPlatformVersions, verifiedPlatforms, verifiedSwiftVersions, license))
  }

  // ---------------------------------------------------------------------
  // Target, Product, PlatformVersion, Platform, License

  function TargetField(t: Target, key: string): Option<Json> {
    if key == "name" then Some(EncodeString(t.name))
    else if key == "moduleName" then EncodeIfPresent(t.moduleName, EncodeString)
    else None
  }

  function EncodeTarget(t: Target): (r: Json)
    ensures r.JObject? && r.obj.Keys <= TargetKeys
  {
    JObject(map k | k in TargetKeys && TargetField(t, k).Some? :: TargetField(t, k).value)
  }

  ghost predicate TargetRead(m: map<string, Json>, path: Path, t: Target) {
    && ReadsRequired(m, "name", path, DecodeString, t.name)
    && ReadsOptional(m, "moduleName", path, DecodeString, t.moduleName)
  }

  function DecodeTarget(j: Json, path: Path): (r: Result<Target>)
    ensures r.Ok? ==> j.JObject? && TargetRead(j.obj, path, r.value)
    ensures r.Ok? ==> j.JObject? && "name" in j.obj
  {
    var m :- DecodeObject(j, path);
    var name :- Required(m, "name", path, DecodeString);
    var moduleName :- Optional(m, "moduleName", path, DecodeString);
    Ok(Target(name, moduleName))
  }

  function EncodeProduct(p: Product): (r: Json)
    ensures r.JObject? && r.obj.Keys == ProductKeys
  {
    JObject(map["name" := EncodeString(p.name),
                "type" := EncodeProductType(p.productType),
                "targets" := EncodeStrings(p.targets)])
  }

  /** The product's target names are read as plain strings; they are not
      matched against any target. */
  ghost predicate ProductRead(m: map<string, Json>, path: Path, pr: Product) {
    && ReadsRequired(m, "name", path, DecodeString, pr.name)
    && ReadsRequired(m, "type", path, DecodeProductType, pr.productType)
    && ReadsRequired(m, "targets", path, DecodeStrings, pr.targets)
  }

  function DecodeProduct(j: Json, path: Path): (r: Result<Product>)
    ensures r.Ok? ==> j.JObject? && ProductRead(j.obj, path, r.value)
    ensures r.Ok? ==> j.JObject? && "name" in j.obj && "type" in j.obj && "targets" in j.obj
  {
    var m :- DecodeObject(j, path);
    var name :- Required(m, "name", path, DecodeString);
    var productType :- Required(m, "type", path, DecodeProductType);
    var targets :- Required(m, "targets", path, DecodeStrings);
    Ok(Product(name, productType, targets))
  }

  function EncodePlatformVersion(pv: PlatformVersion): (r: Json)
    ensures r.JObject? && r.obj.Keys == PlatformVersionKeys
  {
    JObject(map["name" := EncodeString(pv.name), "version" := EncodeString(pv.version)])
  }

  ghost predicate PlatformVersionRead(m: map<string, Json>, path: Path, pv: PlatformVersion) {
    && ReadsRequired(m, "name", path, DecodeString, pv.name)
    && ReadsRequired(m, "version", path, DecodeString, pv.version)
  }

  function DecodePlatformVersion(j: Json, path: Path): (r: Result<PlatformVersion>)
    ensures r.Ok? ==> j.JObject? && PlatformVersionRead(j.obj, path, r.value)
    ensures r.Ok? ==> j.JObject? && "name" in j.obj && "version" in j.obj
  {
    var m :- DecodeObject(j, path);
    var name :- Required(m, "name", path, DecodeString);
    var version :- Required(m, "version", path, DecodeString);
    Ok(PlatformVersion(name, version))
  }

  function EncodePlatform(p: Platform): (r: Json)
    ensures r.JObject? && r.obj.Keys == PlatformKeys
  {
    JObject(map["name" := EncodeString(p.name)])
  }

  ghost predicate PlatformRead(m: map<string, Json>, path: Path, pl: Platform) {
    ReadsRequired(m, "name", path, DecodeString, pl.name)
  }

  function DecodePlatform(j: Json, path: Path): (r: Result<Platform>)
    ensures r.Ok? ==> j.JObject? && PlatformRead(j.obj, path, r.value)
    ensures r.Ok? ==> j.JObject? && "name" in j.obj
  {
    var m :- DecodeObject(j, path);
    var name :- Required(m, "name", path, DecodeString);
    Ok(Platform(name))
  }

  function EncodeLicense(l: License): (r: Json)
    ensures r.JObject? && r.obj.Keys == LicenseKeys
  {
    JObject(map["name" := EncodeString(l.name), "url" := EncodeUrl(l.url)])
  }

  ghost predicate LicenseRead(m: map<string, Json>, path: Path, l: License) {
    && ReadsRequired(m, "name", path, DecodeString, l.name)
    && ReadsRequired(m, "url", path, DecodeUrl, l.url)
  }

  function DecodeLicense(j: Json, path: Path): (r: Result<License>)
    ensures r.Ok? ==> j.JObject? && LicenseRead(j.obj, path, r.value)
    ensures r.Ok? ==> j.JObject? && "name" in j.obj && "url" in j.obj
  {
    var m :- DecodeObject(j, path);
    var name :- Required(m, "name", path, DecodeString);
    var url :- Required(m, "url", path, DecodeUrl);
    Ok(License(name, url))
  }
}
