/** The version-1 package-collection document model: immutable value types
    with a field-by-field initializer each. Values of the foreign types the
    Swift code takes from Foundation and PackageModel (`URL`, `Date`,
    `ProductType`) are given minimal stand-ins here. */
module PackageCollectionModel {
  import opened Json

  /** The JSON schema version; the only case is "1.0". */
  datatype FormatVersion = V1_0

  function FormatVersionRawValue(v: FormatVersion): string {
    match v
    case V1_0 => "1.0"
  }

  /** `FormatVersion(rawValue:)`: recognises exactly the one raw value. */
  function FormatVersionFromRawValue(s: string): (r: Option<FormatVersion>)
    ensures r.Some? <==> s == "1.0"
    ensures r.Some? ==> FormatVersionRawValue(r.value) == s
  {
    if s == "1.0" then Some(V1_0) else None
  }

  /** A `URL`, kept as its absolute string. */
  datatype Url = Url(absoluteString: string)

  /** A `Date`, as the number the default JSON encoder writes for it:
      seconds since the reference date (whole seconds here). */
  datatype Timestamp = Timestamp(sinceReferenceDate: int)

  /** Stand-in for PackageModel's `ProductType`. */
  datatype LibraryType = Static | Dynamic | Automatic
  datatype ProductType = Library(libraryType: LibraryType) | Executable | Test

  datatype Author = Author(name: string)

  datatype PackageCollection = PackageCollection(
    title: string,
    _description: Option<string>,
    keywords: Option<seq<string>>,
    packages: seq<Package>,
    formatVersion: FormatVersion,
    revision: Option<Int64>,
    generatedAt: Timestamp,
    generatedBy: Option<Author>)

  datatype Package = Package(
    url: Url,
    _description: Option<string>,
    keywords: Option<seq<string>>,
    versions: seq<Version>,
    readmeURL: Option<Url>)

  datatype Version = Version(
    version: string,
    packageName: string,
    targets: seq<Target>,
    products: seq<Product>,
    toolsVersion: string,
    minimumPlatformVersions: Option<seq<PlatformVersion>>,
    verifiedPlatforms: Option<seq<Platform>>,
    verifiedSwiftVersions: Option<seq<string>>,
    license: Option<License>)

  datatype Target = Target(name: string, moduleName: Option<string>)

  /** `targets` names targets of the owning version; nothing checks that
      they exist. The Swift property `type` is `productType` here. */
  datatype Product = Product(name: string, productType: ProductType, targets: seq<string>)

  datatype PlatformVersion = PlatformVersion(name: string, version: string)

  datatype Platform = Platform(name: string)

  datatype License = License(name: string, url: Url)

  // ---------------------------------------------------------------------
  // Initializers. Author, Product, PlatformVersion, Platform and License
  // have no defaulted arguments: their initializers are the datatype
  // constructors above.

  /** Creates a collection. Only format version 1.0 is supported; the
      current time that Swift supplies for `generatedAt` by default is an
      argument here. */
  function NewPackageCollection(
    title: string,
    packages: seq<Package>,
    formatVersion: FormatVersion,
    generatedAt: Timestamp,
    description: Option<string> := None,
    keywords: Option<seq<string>> := None,
    revision: Option<Int64> := None,
    generatedBy: Option<Author> := None): (c: PackageCollection)
    requires formatVersion == V1_0
    ensures c.formatVersion == V1_0
    ensures c.title == title && c._description == description && c.keywords == keywords
    ensures c.packages == packages && c.revision == revision
    ensures c.generatedAt == generatedAt && c.generatedBy == generatedBy
  {
    PackageCollection(title, description, keywords, packages, formatVersion, revision, generatedAt, generatedBy)
  }

  function NewPackage(
    url: Url,
    versions: seq<Version>,
    description: Option<string> := None,
    keywords: Option<seq<string>> := None,
    readmeURL: Option<Url> := None): (p: Package)
    ensures p.url == url && p._description == description && p.keywords == keywords
    ensures p.versions == versions && p.readmeURL == readmeURL
  {
    Package(url, description, keywords, versions, readmeURL)
  }

  function NewVersion(
    version: string,
    packageName: string,
    targets: seq<Target>,
    products: seq<Product>,
    toolsVersion: string,
    minimumPlatformVersions: Option<seq<PlatformVersion>> := None,
    verifiedPlatforms: Option<seq<Platform>> := None,
    verifiedSwiftVersions: Option<seq<string>> := None,
    license: Option<License> := None): (v: Version)
    ensures v.version == version && v.packageName == packageName
    ensures v.targets == targets && v.products == products && v.toolsVersion == toolsVersion
    ensures v.minimumPlatformVersions == minimumPlatformVersions
    ensures v.verifiedPlatforms == verifiedPlatforms
    ensures v.verifiedSwiftVersions == verifiedSwiftVersions && v.license == license
  {
    Version(version, packageName, targets, products, toolsVersion,
            minimumPlatformVersions, verifiedPlatforms, verifiedSwiftVersions, license)
  }

  function NewTarget(name: string, moduleName: Option<string> := None): (t: Target)
    ensures t.name == name && t.moduleName == moduleName
  {
    Target(name, moduleName)
  }
}
