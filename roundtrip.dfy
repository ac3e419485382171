/** Encode-then-decode gives back the value, for every entity of the
    version-1 model. Each entity with optional properties gets a predicate
    `XObject(m, x)`: object `m` carries `x` under the entity's coding keys
    (optionals as `decodeIfPresent` reads them). The encoder produces such
    an object, and any such object decodes to `x`, whatever else it holds. */
module CodingRoundTrip {
  import opened Json
  import opened PackageCollectionModel
  import opened PackageCollectionCoding

  // ---------------------------------------------------------------------
  // Leaves

  lemma FormatVersionRoundTrip(v: FormatVersion, path: Path)
    ensures DecodeFormatVersion(EncodeFormatVersion(v), path) == Ok(v)
  {
  }

  lemma UrlRoundTrip(u: Url, path: Path)
    ensures DecodeUrl(EncodeUrl(u), path) == Ok(u)
  {
  }

  lemma TimestampRoundTrip(t: Timestamp, path: Path)
    ensures DecodeTimestamp(EncodeTimestamp(t), path) == Ok(t)
  {
  }

  lemma ProductTypeRoundTrip(t: ProductType, path: Path)
    ensures DecodeProductType(EncodeProductType(t), path) == Ok(t)
  {
  }

  lemma AuthorRoundTrip(a: Author, path: Path)
    ensures DecodeAuthor(EncodeAuthor(a), path) == Ok(a)
  {
  }

  lemma PlatformRoundTrip(pl: Platform, path: Path)
    ensures DecodePlatform(EncodePlatform(pl), path) == Ok(pl)
  {
  }

  lemma PlatformVersionRoundTrip(pv: PlatformVersion, path: Path)
    ensures DecodePlatformVersion(EncodePlatformVersion(pv), path) == Ok(pv)
  {
  }

  lemma LicenseRoundTrip(l: License, path: Path)
    ensures DecodeLicense(EncodeLicense(l), path) == Ok(l)
  {
  }

  /** A product's target names come back as written, in order. */
  lemma ProductRoundTrip(pr: Product, path: Path)
    ensures DecodeProduct(EncodeProduct(pr), path) == Ok(pr)
  {
    ProductTypeRoundTrip(pr.productType, path + [Key("type")]);
    StringsRoundTrip(pr.targets, path + [Key("targets")]);
  }

  // ---------------------------------------------------------------------
  // Target

  ghost predicate TargetObject(m: map<string, Json>, t: Target) {
    && Holds(m, "name", t.name, EncodeString)
    && HoldsIfPresent(m, "moduleName", t.moduleName, EncodeString)
  }

  lemma EncodeTargetObject(t: Target)
    ensures TargetObject(EncodeTarget(t).obj, t)
  {
  }

  lemma DecodeTargetObject(m: map<string, Json>, t: Target, path: Path)
    requires TargetObject(m, t)
    ensures DecodeTarget(JObject(m), path) == Ok(t)
  {
    OptionalReadsBack(m, "moduleName", t.moduleName, EncodeString, DecodeString, path);
  }

  lemma TargetRoundTrip(t: Target, path: Path)
    ensures DecodeTarget(EncodeTarget(t), path) == Ok(t)
  {
    EncodeTargetObject(t);
    DecodeTargetObject(EncodeTarget(t).obj, t, path);
  }

  // ---------------------------------------------------------------------
  // Arrays of each element type keep their elements and their order

  lemma PlatformsRoundTrip(xs: seq<Platform>, path: Path)
    ensures DecodePlatforms(EncodePlatforms(xs), path) == Ok(xs)
  {
    forall x, p | x in xs ensures DecodePlatform(EncodePlatform(x), p) == Ok(x) {
      PlatformRoundTrip(x, p);
    }
    ArrayRoundTrip(xs, EncodePlatform, DecodePlatform, path);
  }

  lemma PlatformVersionsRoundTrip(xs: seq<PlatformVersion>, path: Path)
    ensures DecodePlatformVersions(EncodePlatformVersions(xs), path) == Ok(xs)
  {
    forall x, p | x in xs ensures DecodePlatformVersion(EncodePlatformVersion(x), p) == Ok(x) {
      PlatformVersionRoundTrip(x, p);
    }
    ArrayRoundTrip(xs, EncodePlatformVersion, DecodePlatformVersion, path);
  }

  lemma TargetsRoundTrip(xs: seq<Target>, path: Path)
    ensures DecodeTargets(EncodeTargets(xs), path) == Ok(xs)
  {
    forall x, p | x in xs ensures DecodeTarget(EncodeTarget(x), p) == Ok(x) {
      TargetRoundTrip(x, p);
    }
    ArrayRoundTrip(xs, EncodeTarget, DecodeTarget, path);
  }

  lemma ProductsRoundTrip(xs: seq<Product>, path: Path)
    ensures DecodeProducts(EncodeProducts(xs), path) == Ok(xs)
  {
    forall x, p | x in xs ensures DecodeProduct(EncodeProduct(x), p) == Ok(x) {
      ProductRoundTrip(x, p);
    }
    ArrayRoundTrip(xs, EncodeProduct, DecodeProduct, path);
  }

  lemma VersionsRoundTrip(xs: seq<Version>, path: Path)
    ensures DecodeVersions(EncodeVersions(xs), path) == Ok(xs)
  {
    forall x, p | x in xs ensures DecodeVersion(EncodeVersion(x), p) == Ok(x) {
      VersionRoundTrip(x, p);
    }
    ArrayRoundTrip(xs, EncodeVersion, DecodeVersion, path);
  }

  lemma PackagesRoundTrip(xs: seq<Package>, path: Path)
    ensures DecodePackages(EncodePackages(xs), path) == Ok(xs)
  {
    forall x, p | x in xs ensures DecodePackage(EncodePackage(x), p) == Ok(x) {
      PackageRoundTrip(x, p);
    }
    ArrayRoundTrip(xs, EncodePackage, DecodePackage, path);
  }

  // ---------------------------------------------------------------------
  // Version

  ghost predicate VersionObject(m: map<string, Json>, v: Version) {
    && Holds(m, "version", v.version, EncodeString)
    && Holds(m, "packageName", v.packageName, EncodeString)
    && Holds(m, "targets", v.targets, EncodeTargets)
    && Holds(m, "products", v.products, EncodeProducts)
    && Holds(m, "toolsVersion", v.toolsVersion, EncodeString)
    && HoldsIfPresent(m, "minimumPlatformVersions", v.minimumPlatformVersions, EncodePlatformVersions)
    && HoldsIfPresent(m, "verifiedPlatforms", v.verifiedPlatforms, EncodePlatforms)
    && HoldsIfPresent(m, "verifiedSwiftVersions", v.verifiedSwiftVersions, EncodeStrings)
    && HoldsIfPresent(m, "license", v.license, EncodeLicense)
  }

  lemma EncodeVersionObject(v: Version)
    ensures VersionObject(EncodeVersion(v).obj, v)
  {
  }

  lemma DecodeVersionObject(m: map<string, Json>, v: Version, path: Path)
    requires VersionObject(m, v)
    ensures DecodeVersion(JObject(m), path) == Ok(v)
  {
    TargetsRoundTrip(v.targets, path + [Key("targets")]);
    ProductsRoundTrip(v.products, path + [Key("products")]);
    if v.minimumPlatformVersions.Some? {
      PlatformVersionsRoundTrip(v.minimumPlatformVersions.value, path + [Key("minimumPlatformVersions")]);
    }
    OptionalReadsBack(m, "minimumPlatformVersions", v.minimumPlatformVersions,
                      EncodePlatformVersions, DecodePlatformVersions, path);
    if v.verifiedPlatforms.Some? {
      PlatformsRoundTrip(v.verifiedPlatforms.value, path + [Key("verifiedPlatforms")]);
    }
    OptionalReadsBack(m, "verifiedPlatforms", v.verifiedPlatforms, EncodePlatforms, DecodePlatforms, path);
    if v.verifiedSwiftVersions.Some? {
      StringsRoundTrip(v.verifiedSwiftVersions.value, path + [Key("verifiedSwiftVersions")]);
    }
    OptionalReadsBack(m, "verifiedSwiftVersions", v.verifiedSwiftVersions, EncodeStrings, DecodeStrings, path);
    if v.license.Some? {
      LicenseRoundTrip(v.license.value, path + [Key("license")]);
    }
    OptionalReadsBack(m, "license", v.license, EncodeLicense, DecodeLicense, path);
  }

  lemma VersionRoundTrip(v: Version, path: Path)
    ensures DecodeVersion(EncodeVersion(v), path) == Ok(v)
  {
    EncodeVersionObject(v);
    DecodeVersionObject(EncodeVersion(v).obj, v, path);
  }

  // ---------------------------------------------------------------------
  // Package

  ghost predicate PackageObject(m: map<string, Json>, pk: Package) {
    && Holds(m, "url", pk.url, EncodeUrl)
    && HoldsIfPresent(m, "description", pk._description, EncodeString)
    && HoldsIfPresent(m, "keywords", pk.keywords, EncodeStrings)
    && Holds(m, "versions", pk.versions, EncodeVersions)
    && HoldsIfPresent(m, "readmeURL", pk.readmeURL, EncodeUrl)
  }

  lemma EncodePackageObject(pk: Package)
    ensures PackageObject(EncodePackage(pk).obj, pk)
  {
  }

  lemma DecodePackageObject(m: map<string, Json>, pk: Package, path: Path)
    requires PackageObject(m, pk)
    ensures DecodePackage(JObject(m), path) == Ok(pk)
  {
    OptionalReadsBack(m, "description", pk._description, EncodeString, DecodeString, path);
    if pk.keywords.Some? {
      StringsRoundTrip(pk.keywords.value, path + [Key("keywords")]);
    }
    OptionalReadsBack(m, "keywords", pk.keywords, EncodeStrings, DecodeStrings, path);
    VersionsRoundTrip(pk.versions, path + [Key("versions")]);
    OptionalReadsBack(m, "readmeURL", pk.readmeURL, EncodeUrl, DecodeUrl, path);
  }

  lemma PackageRoundTrip(pk: Package, path: Path)
    ensures DecodePackage(EncodePackage(pk), path) == Ok(pk)
  {
    EncodePackageObject(pk);
    DecodePackageObject(EncodePackage(pk).obj, pk, path);
  }

  // ---------------------------------------------------------------------
  // PackageCollection

  ghost predicate CollectionObject(m: map<string, Json>, c: PackageCollection) {
    && Holds(m, "title", c.title, EncodeString)
    && HoldsIfPresent(m, "description", c._description, EncodeString)
    && HoldsIfPresent(m, "keywords", c.keywords, EncodeStrings)
    && Holds(m, "packages", c.packages, EncodePackages)
    && Holds(m, "formatVersion", c.formatVersion, EncodeFormatVersion)
    && HoldsIfPresent(m, "revision", c.revision, EncodeInt)
    && Holds(m, "generatedAt", c.generatedAt, EncodeTimestamp)
    && HoldsIfPresent(m, "generatedBy", c.generatedBy, EncodeAuthor)
  }

  lemma EncodeCollectionObject(c: PackageCollection)
    ensures CollectionObject(EncodePackageCollection(c).obj, c)
  {
  }

  lemma DecodeCollectionObject(m: map<string, Json>, c: PackageCollection, path: Path)
    requires CollectionObject(m, c)
    ensures DecodePackageCollection(JObject(m), path) == Ok(c)
  {
    RequiredReadsBack(m, "title", c.title, EncodeString, DecodeString, path);
    OptionalReadsBack(m, "description", c._description, EncodeString, DecodeString, path);
    if c.keywords.Some? {
      StringsRoundTrip(c.keywords.value, path + [Key("keywords")]);
    }
    OptionalReadsBack(m, "keywords", c.keywords, EncodeStrings, DecodeStrings, path);
    PackagesRoundTrip(c.packages, path + [Key("packages")]);
    RequiredReadsBack(m, "packages", c.packages, EncodePackages, DecodePackages, path);
    FormatVersionRoundTrip(c.formatVersion, path + [Key("formatVersion")]);
    RequiredReadsBack(m, "formatVersion", c.formatVersion, EncodeFormatVersion, DecodeFormatVersion, path);
    OptionalReadsBack(m, "revision", c.revision, EncodeInt, DecodeInt, path);
    RequiredReadsBack(m, "generatedAt", c.generatedAt, EncodeTimestamp, DecodeTimestamp, path);
    if c.generatedBy.Some? {
      AuthorRoundTrip(c.generatedBy.value, path + [Key("generatedBy")]);
    }
    OptionalReadsBack(m, "generatedBy", c.generatedBy, EncodeAuthor, DecodeAuthor, path);
  }

  /** Decoding the encoding of any collection gives back an equal
      collection, at every depth and in every order. */
  lemma PackageCollectionRoundTrip(c: PackageCollection, path: Path)
    ensures DecodePackageCollection(EncodePackageCollection(c), path) == Ok(c)
  {
    EncodeCollectionObject(c);
    DecodeCollectionObject(EncodePackageCollection(c).obj, c, path);
  }
}
