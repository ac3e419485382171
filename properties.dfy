/** The rest of the coding contract of the version-1 model: wire keys and
    the `_description` rename, omission of absent optionals, required-key
    failures, unknown keys, the format-version gate on decode, and document
    order of arrays. */
module PackageCollectionProperties {
  import opened Json
  import opened PackageCollectionModel
  import opened PackageCollectionCoding
  import opened CodingRoundTrip

  // ---------------------------------------------------------------------
  // Wire keys: exactly the required keys plus the present optionals

  lemma CollectionWireKeys(c: PackageCollection)
    ensures EncodePackageCollection(c).obj.Keys == CollectionRequiredKeys
      + KeyIfPresent("description", c._description) + KeyIfPresent("keywords", c.keywords)
      + KeyIfPresent("revision", c.revision) + KeyIfPresent("generatedBy", c.generatedBy)
  {
  }

  lemma PackageWireKeys(pk: Package)
    ensures EncodePackage(pk).obj.Keys == PackageRequiredKeys
      + KeyIfPresent("description", pk._description) + KeyIfPresent("keywords", pk.keywords)
      + KeyIfPresent("readmeURL", pk.readmeURL)
  {
  }

  lemma VersionWireKeys(v: Version)
    ensures EncodeVersion(v).obj.Keys == VersionRequiredKeys
      + KeyIfPresent("minimumPlatformVersions", v.minimumPlatformVersions)
      + KeyIfPresent("verifiedPlatforms", v.verifiedPlatforms)
      + KeyIfPresent("verifiedSwiftVersions", v.verifiedSwiftVersions)
      + KeyIfPresent("license", v.license)
  {
  }

  lemma TargetWireKeys(t: Target)
    ensures EncodeTarget(t).obj.Keys == TargetRequiredKeys + KeyIfPresent("moduleName", t.moduleName)
  {
  }

  /** The in-memory `_description` of a collection and of a package is
      written under "description"; the Swift property name never appears. */
  lemma DescriptionKeyRenamed(c: PackageCollection, pk: Package)
    ensures "_description" !in EncodePackageCollection(c).obj && "_description" !in EncodePackage(pk).obj
    ensures ("description" in EncodePackageCollection(c).obj) == c._description.Some?
    ensures c._description.Some? ==>
      EncodePackageCollection(c).obj["description"] == JString(c._description.value)
    ensures ("description" in EncodePackage(pk).obj) == pk._description.Some?
    ensures pk._description.Some? ==> EncodePackage(pk).obj["description"] == JString(pk._description.value)
  {
  }

  // ---------------------------------------------------------------------
  // What each decoder reads: an object decodes to `x` exactly when every
  // property of `x` is what the value under its coding key decodes to

  lemma DecodeCollectionExactly(m: map<string, Json>, path: Path, c: PackageCollection)
    ensures DecodePackageCollection(JObject(m), path) == Ok(c) <==> CollectionRead(m, path, c)
  {
    if CollectionRead(m, path, c) {
      RequiredExactly(m, "title", path, DecodeString, c.title);
      OptionalExactly(m, "description", path, DecodeString, c._description);
      OptionalExactly(m, "keywords", path, DecodeStrings, c.keywords);
      RequiredExactly(m, "packages", path, DecodePackages, c.packages);
      RequiredExactly(m, "formatVersion", path, DecodeFormatVersion, c.formatVersion);
      OptionalExactly(m, "revision", path, DecodeInt, c.revision);
      RequiredExactly(m, "generatedAt", path, DecodeTimestamp, c.generatedAt);
      OptionalExactly(m, "generatedBy", path, DecodeAuthor, c.generatedBy);
    }
  }

  lemma DecodePackageExactly(m: map<string, Json>, path: Path, pk: Package)
    ensures DecodePackage(JObject(m), path) == Ok(pk) <==> PackageRead(m, path, pk)
  {
    if PackageRead(m, path, pk) {
      RequiredExactly(m, "url", path, DecodeUrl, pk.url);
      OptionalExactly(m, "description", path, DecodeString, pk._description);
      OptionalExactly(m, "keywords", path, DecodeStrings, pk.keywords);
      RequiredExactly(m, "versions", path, DecodeVersions, pk.versions);
      OptionalExactly(m, "readmeURL", path, DecodeUrl, pk.readmeURL);
    }
  }

  lemma DecodeVersionExactly(m: map<string, Json>, path: Path, v: Version)
    ensures DecodeVersion(JObject(m), path) == Ok(v) <==> VersionRead(m, path, v)
  {
    if VersionRead(m, path, v) {
      RequiredExactly(m, "version", path, DecodeString, v.version);
      RequiredExactly(m, "packageName", path, DecodeString, v.packageName);
      RequiredExactly(m, "targets", path, DecodeTargets, v.targets);
      RequiredExactly(m, "products", path, DecodeProducts, v.products);
      RequiredExactly(m, "toolsVersion", path, DecodeString, v.toolsVersion);
      OptionalExactly(m, "minimumPlatformVersions", path, DecodePlatformVersions, v.minimumPlatformVersions);
      OptionalExactly(m, "verifiedPlatforms", path, DecodePlatforms, v.verifiedPlatforms);
      OptionalExactly(m, "verifiedSwiftVersions", path, DecodeStrings, v.verifiedSwiftVersions);
      OptionalExactly(m, "license", path, DecodeLicense, v.license);
    }
  }

  lemma DecodeTargetExactly(m: map<string, Json>, path: Path, t: Target)
    ensures DecodeTarget(JObject(m), path) == Ok(t) <==> TargetRead(m, path, t)
  {
  }

  lemma DecodeProductExactly(m: map<string, Json>, path: Path, pr: Product)
    ensures DecodeProduct(JObject(m), path) == Ok(pr) <==> ProductRead(m, path, pr)
  {
  }

  lemma DecodeLeavesExactly(m: map<string, Json>, path: Path, a: Author, pv: PlatformVersion, pl: Platform, l: License)
    ensures DecodeAuthor(JObject(m), path) == Ok(a) <==> AuthorRead(m, path, a)
    ensures DecodePlatformVersion(JObject(m), path) == Ok(pv) <==> PlatformVersionRead(m, path, pv)
    ensures DecodePlatform(JObject(m), path) == Ok(pl) <==> PlatformRead(m, path, pl)
    ensures DecodeLicense(JObject(m), path) == Ok(l) <==> LicenseRead(m, path, l)
  {
  }

  // ---------------------------------------------------------------------
  // A present value of the wrong shape is a decode error

  lemma CollectionWrongShapeRejected(m: map<string, Json>, path: Path)
    requires || ("title" in m && !m["title"].JString?)
             || ("description" in m && !m["description"].JNull? && !m["description"].JString?)
             || ("keywords" in m && !m["keywords"].JNull? && !m["keywords"].JArray?)
             || ("packages" in m && !m["packages"].JArray?)
             || ("formatVersion" in m && m["formatVersion"] != JString("1.0"))
             || ("revision" in m && !m["revision"].JNull? && !m["revision"].JNumber?)
             || ("generatedAt" in m && !m["generatedAt"].JNumber?)
             || ("generatedBy" in m && !m["generatedBy"].JNull? && !m["generatedBy"].JObject?)
    ensures DecodePackageCollection(JObject(m), path).Err?
    ensures "title" in m && !m["title"].JString? ==>
      DecodePackageCollection(JObject(m), path).error.path == path + [Key("title")]
  {
  }

  lemma PackageWrongShapeRejected(m: map<string, Json>, path: Path)
    requires || ("url" in m && !m["url"].JString?)
             || ("description" in m && !m["description"].JNull? && !m["description"].JString?)
             || ("keywords" in m && !m["keywords"].JNull? && !m["keywords"].JArray?)
             || ("versions" in m && !m["versions"].JArray?)
             || ("readmeURL" in m && !m["readmeURL"].JNull? && !m["readmeURL"].JString?)
    ensures DecodePackage(JObject(m), path).Err?
    ensures "url" in m && !m["url"].JString? ==> DecodePackage(JObject(m), path).error.path == path + [Key("url")]
  {
  }

  lemma VersionWrongShapeRejected(m: map<string, Json>, path: Path)
    requires || ("version" in m && !m["version"].JString?)
             || ("packageName" in m && !m["packageName"].JString?)
             || ("targets" in m && !m["targets"].JArray?)
             || ("products" in m && !m["products"].JArray?)
             || ("toolsVersion" in m && !m["toolsVersion"].JString?)
             || ("minimumPlatformVersions" in m && !m["minimumPlatformVersions"].JNull?
                 && !m["minimumPlatformVersions"].JArray?)
             || ("verifiedPlatforms" in m && !m["verifiedPlatforms"].JNull? && !m["verifiedPlatforms"].JArray?)
             || ("verifiedSwiftVersions" in m && !m["verifiedSwiftVersions"].JNull?
                 && !m["verifiedSwiftVersions"].JArray?)
             || ("license" in m && !m["license"].JNull? && !m["license"].JObject?)
    ensures DecodeVersion(JObject(m), path).Err?
    ensures "version" in m && !m["version"].JString? ==>
      DecodeVersion(JObject(m), path).error.path == path + [Key("version")]
  {
  }

  lemma TargetWrongShapeRejected(m: map<string, Json>, path: Path)
    requires || ("name" in m && !m["name"].JString?)
             || ("moduleName" in m && !m["moduleName"].JNull? && !m["moduleName"].JString?)
    ensures DecodeTarget(JObject(m), path).Err?
    ensures "name" in m && !m["name"].JString? ==> DecodeTarget(JObject(m), path).error.path == path + [Key("name")]
  {
  }

  lemma ProductWrongShapeRejected(m: map<string, Json>, path: Path)
    requires || ("name" in m && !m["name"].JString?)
             || ("type" in m && !m["type"].JObject?)
             || ("targets" in m && !m["targets"].JArray?)
    ensures DecodeProduct(JObject(m), path).Err?
    ensures "name" in m && !m["name"].JString? ==> DecodeProduct(JObject(m), path).error.path == path + [Key("name")]
  {
  }

  lemma LeavesWrongShapeRejected(m: map<string, Json>, path: Path)
    requires "name" in m && !m["name"].JString?
    ensures DecodeAuthor(JObject(m), path).Err? && DecodeAuthor(JObject(m), path).error.path == path + [Key("name")]
    ensures DecodePlatform(JObject(m), path).Err? && DecodePlatform(JObject(m), path).error.path == path + [Key("name")]
    ensures DecodePlatformVersion(JObject(m), path).Err?
      && DecodePlatformVersion(JObject(m), path).error.path == path + [Key("name")]
    ensures DecodeLicense(JObject(m), path).Err? && DecodeLicense(JObject(m), path).error.path == path + [Key("name")]
  {
  }

  // ---------------------------------------------------------------------
  // Absent optionals: a missing key and an explicit null both read as nil

  /** `x` with the optional property stored under `key` set to nil. */
  function ClearCollectionOptional(c: PackageCollection, key: string): PackageCollection
    requires key in CollectionOptionalKeys
  {
    if key == "description" then PackageCollection(c.title, None, c.keywords, c.packages, c.formatVersion, c.revision,
                           c.generatedAt, c.generatedBy)
    else if key == "keywords" then c.(keywords := None)
    else if key == "revision" then c.(revision := None)
    else c.(generatedBy := None)
  }

  function ClearPackageOptional(pk: Package, key: string): Package
    requires key in PackageOptionalKeys
  {
    if key == "description" then Package(pk.url, None, pk.keywords, pk.versions, pk.readmeURL)
    else if key == "keywords" then pk.(keywords := None)
    else pk.(readmeURL := None)
  }

  function ClearVersionOptional(v: Version, key: string): Version
    requires key in VersionOptionalKeys
  {
    if key == "minimumPlatformVersions" then v.(minimumPlatformVersions := None)
    else if key == "verifiedPlatforms" then v.(verifiedPlatforms := None)
    else if key == "verifiedSwiftVersions" then v.(verifiedSwiftVersions := None)
    else v.(license := None)
  }

  lemma CollectionOptionalKeyAbsent(c: PackageCollection, key: string, path: Path)
    requires key in CollectionOptionalKeys
    ensures DecodePackageCollection(JObject(EncodePackageCollection(c).obj - {key}), path)
      == Ok(ClearCollectionOptional(c, key))
    ensures DecodePackageCollection(JObject(EncodePackageCollection(c).obj[key := JNull]), path)
      == Ok(ClearCollectionOptional(c, key))
  {
    var m := EncodePackageCollection(c).obj;
    var c' := ClearCollectionOptional(c, key);
    EncodeCollectionObject(c);
    CollectionObjectCleared(m, c, key);
    DecodeCollectionObject(m - {key}, c', path);
    DecodeCollectionObject(m[key := JNull], c', path);
  }

  lemma CollectionObjectCleared(m: map<string, Json>, c: PackageCollection, key: string)
    requires key in CollectionOptionalKeys && CollectionObject(m, c)
    ensures CollectionObject(m - {key}, ClearCollectionOptional(c, key))
    ensures CollectionObject(m[key := JNull], ClearCollectionOptional(c, key))
  {
    if key == "description" {
    } else if key == "keywords" {
    } else if key == "revision" {
    } else {
    }
  }

  lemma PackageOptionalKeyAbsent(pk: Package, key: string, path: Path)
    requires key in PackageOptionalKeys
    ensures DecodePackage(JObject(EncodePackage(pk).obj - {key}), path) == Ok(ClearPackageOptional(pk, key))
    ensures DecodePackage(JObject(EncodePackage(pk).obj[key := JNull]), path) == Ok(ClearPackageOptional(pk, key))
  {
    var m := EncodePackage(pk).obj;
    var pk' := ClearPackageOptional(pk, key);
    EncodePackageObject(pk);
    PackageObjectCleared(m, pk, key);
    DecodePackageObject(m - {key}, pk', path);
    DecodePackageObject(m[key := JNull], pk', path);
  }

  lemma PackageObjectCleared(m: map<string, Json>, pk: Package, key: string)
    requires key in PackageOptionalKeys && PackageObject(m, pk)
    ensures PackageObject(m - {key}, ClearPackageOptional(pk, key))
    ensures PackageObject(m[key := JNull], ClearPackageOptional(pk, key))
  {
  }

  lemma VersionOptionalKeyAbsent(v: Version, key: string, path: Path)
    requires key in VersionOptionalKeys
    ensures DecodeVersion(JObject(EncodeVersion(v).obj - {key}), path) == Ok(ClearVersionOptional(v, key))
    ensures DecodeVersion(JObject(EncodeVersion(v).obj[key := JNull]), path) == Ok(ClearVersionOptional(v, key))
  {
    var m := EncodeVersion(v).obj;
    var v' := ClearVersionOptional(v, key);
    EncodeVersionObject(v);
    VersionObjectCleared(m, v, key);
    DecodeVersionObject(m - {key}, v', path);
    DecodeVersionObject(m[key := JNull], v', path);
  }

  lemma VersionObjectCleared(m: map<string, Json>, v: Version, key: string)
    requires key in VersionOptionalKeys && VersionObject(m, v)
    ensures VersionObject(m - {key}, ClearVersionOptional(v, key))
    ensures VersionObject(m[key := JNull], ClearVersionOptional(v, key))
  {
    if key == "minimumPlatformVersions" {
    } else if key == "verifiedPlatforms" {
    } else if key == "verifiedSwiftVersions" {
    } else {
    }
  }

  lemma TargetOptionalKeyAbsent(t: Target, path: Path)
    ensures DecodeTarget(JObject(EncodeTarget(t).obj - {"moduleName"}), path) == Ok(t.(moduleName := None))
    ensures DecodeTarget(JObject(EncodeTarget(t).obj["moduleName" := JNull]), path) == Ok(t.(moduleName := None))
  {
  }

  // ---------------------------------------------------------------------
  // Required keys: a missing one is `keyNotFound`, a null one
  // `valueNotFound`; the properties before it have decoded by then

  lemma CollectionRequiredKeyMissing(c: PackageCollection, key: string, path: Path)
    requires key in CollectionRequiredKeys
    ensures DecodePackageCollection(JObject(EncodePackageCollection(c).obj - {key}), path)
      == Err(KeyNotFound(path, key))
  {
    EncodeCollectionObject(c);
    CollectionPrefixDecodes(EncodePackageCollection(c).obj, EncodePackageCollection(c).obj - {key}, c, key, path);
  }

  lemma CollectionRequiredKeyNull(c: PackageCollection, key: string, path: Path)
    requires key in CollectionRequiredKeys
    ensures var r := DecodePackageCollection(JObject(EncodePackageCollection(c).obj[key := JNull]), path);
      r.Err? && r.error.ValueNotFound? && r.error.path == path + [Key(key)]
  {
    EncodeCollectionObject(c);
    CollectionPrefixDecodes(EncodePackageCollection(c).obj, EncodePackageCollection(c).obj[key := JNull], c, key, path);
  }

  /** Every property decoded before the required `key` reads back from
      `m'`, which agrees with a `CollectionObject` everywhere but at `key`
      (there it is missing or holds anything). */
  lemma CollectionPrefixDecodes(m: map<string, Json>, m': map<string, Json>, c: PackageCollection, key: string, path: Path)
    requires key in CollectionRequiredKeys && CollectionObject(m, c)
    requires m' == m - {key} || (key in m' && m' == m[key := m'[key]])
    ensures key != "title" ==> Required(m', "title", path, DecodeString) == Ok(c.title)
    ensures Optional(m', "description", path, DecodeString) == Ok(c._description)
    ensures Optional(m', "keywords", path, DecodeStrings) == Ok(c.keywords)
    ensures key != "packages" ==> Required(m', "packages", path, DecodePackages) == Ok(c.packages)
    ensures key != "formatVersion" ==> Required(m', "formatVersion", path, DecodeFormatVersion) == Ok(c.formatVersion)
    ensures Optional(m', "revision", path, DecodeInt) == Ok(c.revision)
  {
    CollectionObjectOutside(m, m', c, key);
    if key != "title" {
      RequiredReadsBack(m', "title", c.title, EncodeString, DecodeString, path);
    }
    OptionalReadsBack(m', "description", c._description, EncodeString, DecodeString, path);
    if c.keywords.Some? {
      StringsRoundTrip(c.keywords.value, path + [Key("keywords")]);
    }
    OptionalReadsBack(m', "keywords", c.keywords, EncodeStrings, DecodeStrings, path);
    if key != "packages" {
      PackagesRoundTrip(c.packages, path + [Key("packages")]);
      RequiredReadsBack(m', "packages", c.packages, EncodePackages, DecodePackages, path);
    }
    if key != "formatVersion" {
      FormatVersionRoundTrip(c.formatVersion, path + [Key("formatVersion")]);
      RequiredReadsBack(m', "formatVersion", c.formatVersion, EncodeFormatVersion, DecodeFormatVersion, path);
    }
    OptionalReadsBack(m', "revision", c.revision, EncodeInt, DecodeInt, path);
  }

  lemma CollectionObjectOutside(m: map<string, Json>, m': map<string, Json>, c: PackageCollection, key: string)
    requires key in CollectionRequiredKeys && CollectionObject(m, c)
    requires m' == m - {key} || (key in m' && m' == m[key := m'[key]])
    ensures key != "title" ==> Holds(m', "title", c.title, EncodeString)
    ensures HoldsIfPresent(m', "description", c._description, EncodeString)
    ensures HoldsIfPresent(m', "keywords", c.keywords, EncodeStrings)
    ensures key != "packages" ==> Holds(m', "packages", c.packages, EncodePackages)
    ensures key != "formatVersion" ==> Holds(m', "formatVersion", c.formatVersion, EncodeFormatVersion)
    ensures HoldsIfPresent(m', "revision", c.revision, EncodeInt)
  {
  }

  lemma PackageRequiredKeyMissing(pk: Package, key: string, path: Path)
    requires key in PackageRequiredKeys
    ensures DecodePackage(JObject(EncodePackage(pk).obj - {key}), path) == Err(KeyNotFound(path, key))
  {
  }

  lemma VersionRequiredKeyMissing(v: Version, key: string, path: Path)
    requires key in VersionRequiredKeys
    ensures DecodeVersion(JObject(EncodeVersion(v).obj - {key}), path) == Err(KeyNotFound(path, key))
  {
    EncodeVersionObject(v);
    VersionPrefixDecodes(EncodeVersion(v).obj, v, key, path);
  }

  /** The required properties of a version come first; the ones before
      `key` still read back once `key` is removed. */
  lemma VersionPrefixDecodes(m: map<string, Json>, v: Version, key: string, path: Path)
    requires key in VersionRequiredKeys && VersionObject(m, v)
    ensures key != "version" ==> Required(m - {key}, "version", path, DecodeString) == Ok(v.version)
    ensures key != "packageName" ==> Required(m - {key}, "packageName", path, DecodeString) == Ok(v.packageName)
    ensures key != "targets" ==> Required(m - {key}, "targets", path, DecodeTargets) == Ok(v.targets)
    ensures key != "products" ==> Required(m - {key}, "products", path, DecodeProducts) == Ok(v.products)
  {
    var m' := m - {key};
    if key != "version" {
      RequiredReadsBack(m', "version", v.version, EncodeString, DecodeString, path);
    }
    if key != "packageName" {
      RequiredReadsBack(m', "packageName", v.packageName, EncodeString, DecodeString, path);
    }
    if key != "targets" {
      TargetsRoundTrip(v.targets, path + [Key("targets")]);
      RequiredReadsBack(m', "targets", v.targets, EncodeTargets, DecodeTargets, path);
    }
    if key != "products" {
      ProductsRoundTrip(v.products, path + [Key("products")]);
      RequiredReadsBack(m', "products", v.products, EncodeProducts, DecodeProducts, path);
    }
  }

  lemma TargetRequiredKeyMissing(t: Target, path: Path)
    ensures DecodeTarget(JObject(EncodeTarget(t).obj - {"name"}), path) == Err(KeyNotFound(path, "name"))
  {
  }

  lemma ProductRequiredKeyMissing(pr: Product, key: string, path: Path)
    requires key in ProductKeys
    ensures DecodeProduct(JObject(EncodeProduct(pr).obj - {key}), path) == Err(KeyNotFound(path, key))
  {
  }

  lemma LeafRequiredKeyMissing(a: Author, pv: PlatformVersion, pl: Platform, l: License, key: string, path: Path)
    ensures DecodeAuthor(JObject(EncodeAuthor(a).obj - {"name"}), path) == Err(KeyNotFound(path, "name"))
    ensures DecodePlatform(JObject(EncodePlatform(pl).obj - {"name"}), path) == Err(KeyNotFound(path, "name"))
    ensures key in PlatformVersionKeys ==>
      DecodePlatformVersion(JObject(EncodePlatformVersion(pv).obj - {key}), path) == Err(KeyNotFound(path, key))
    ensures key in LicenseKeys ==>
      DecodeLicense(JObject(EncodeLicense(l).obj - {key}), path) == Err(KeyNotFound(path, key))
  {
  }

  // ---------------------------------------------------------------------
  // Keys outside an entity's coding keys are ignored

  lemma CollectionUnknownKeyIgnored(m: map<string, Json>, key: string, x: Json, path: Path)
    requires key !in CollectionKeys
    ensures DecodePackageCollection(JObject(m[key := x]), path) == DecodePackageCollection(JObject(m), path)
  {
    var m' := m[key := x];
    assert Required(m', "title", path, DecodeString) == Required(m, "title", path, DecodeString);
    assert Optional(m', "description", path, DecodeString) == Optional(m, "description", path, DecodeString);
    assert Optional(m', "keywords", path, DecodeStrings) == Optional(m, "keywords", path, DecodeStrings);
    assert Required(m', "packages", path, DecodePackages) == Required(m, "packages", path, DecodePackages);
    assert Required(m', "formatVersion", path, DecodeFormatVersion)
      == Required(m, "formatVersion", path, DecodeFormatVersion);
    assert Optional(m', "revision", path, DecodeInt) == Optional(m, "revision", path, DecodeInt);
    assert Required(m', "generatedAt", path, DecodeTimestamp) == Required(m, "generatedAt", path, DecodeTimestamp);
    assert Optional(m', "generatedBy", path, DecodeAuthor) == Optional(m, "generatedBy", path, DecodeAuthor);
  }

  lemma PackageUnknownKeyIgnored(m: map<string, Json>, key: string, x: Json, path: Path)
    requires key !in PackageKeys
    ensures DecodePackage(JObject(m[key := x]), path) == DecodePackage(JObject(m), path)
  {
    var m' := m[key := x];
    assert Required(m', "url", path, DecodeUrl) == Required(m, "url", path, DecodeUrl);
    assert Optional(m', "description", path, DecodeString) == Optional(m, "description", path, DecodeString);
    assert Optional(m', "keywords", path, DecodeStrings) == Optional(m, "keywords", path, DecodeStrings);
    assert Required(m', "versions", path, DecodeVersions) == Required(m, "versions", path, DecodeVersions);
    assert Optional(m', "readmeURL", path, DecodeUrl) == Optional(m, "readmeURL", path, DecodeUrl);
  }

  lemma VersionUnknownKeyIgnored(m: map<string, Json>, key: string, x: Json, path: Path)
    requires key !in VersionKeys
    ensures DecodeVersion(JObject(m[key := x]), path) == DecodeVersion(JObject(m), path)
  {
    var m' := m[key := x];
    assert Required(m', "version", path, DecodeString) == Required(m, "version", path, DecodeString);
    assert Required(m', "packageName", path, DecodeString) == Required(m, "packageName", path, DecodeString);
    assert Required(m', "targets", path, DecodeTargets) == Required(m, "targets", path, DecodeTargets);
    assert Required(m', "products", path, DecodeProducts) == Required(m, "products", path, DecodeProducts);
    assert Required(m', "toolsVersion", path, DecodeString) == Required(m, "toolsVersion", path, DecodeString);
    assert Optional(m', "minimumPlatformVersions", path, DecodePlatformVersions)
      == Optional(m, "minimumPlatformVersions", path, DecodePlatformVersions);
    assert Optional(m', "verifiedPlatforms", path, DecodePlatforms) == Optional(m, "verifiedPlatforms", path, DecodePlatforms);
    assert Optional(m', "verifiedSwiftVersions", path, DecodeStrings)
      == Optional(m, "verifiedSwiftVersions", path, DecodeStrings);
    assert Optional(m', "license", path, DecodeLicense) == Optional(m, "license", path, DecodeLicense);
  }

  lemma TargetUnknownKeyIgnored(m: map<string, Json>, key: string, x: Json, path: Path)
    requires key !in TargetKeys
    ensures DecodeTarget(JObject(m[key := x]), path) == DecodeTarget(JObject(m), path)
  {
  }

  lemma ProductUnknownKeyIgnored(m: map<string, Json>, key: string, x: Json, path: Path)
    requires key !in ProductKeys
    ensures DecodeProduct(JObject(m[key := x]), path) == DecodeProduct(JObject(m), path)
  {
  }

  // ---------------------------------------------------------------------
  // The format-version gate on decode

  /** A document that is otherwise a valid encoding but names any format
      version other than "1.0" fails, at the formatVersion key, once the
      properties before it have decoded. */
  lemma UnsupportedFormatVersionRejected(c: PackageCollection, version: string, path: Path)
    requires version != "1.0"
    ensures DecodePackageCollection(JObject(EncodePackageCollection(c).obj["formatVersion" := JString(version)]), path)
      == Err(DataCorrupted(path + [Key("formatVersion")], InvalidFormatVersion))
  {
    var m := EncodePackageCollection(c).obj;
    EncodeCollectionObject(c);
    CollectionPrefixDecodes(m, m["formatVersion" := JString(version)], c, "formatVersion", path);
  }

  // ---------------------------------------------------------------------
  // Arrays are read in document order: element i of a decoded array is
  // what the i-th JSON element decodes to, at index i of the path

  lemma DecodedPackagesInDocumentOrder(j: Json, path: Path)
    requires DecodePackageCollection(j, path).Ok?
    ensures j.obj["packages"].JArray?
    ensures var items := j.obj["packages"].items;
      var c := DecodePackageCollection(j, path).value;
      && |c.packages| == |items|
      && forall i :: 0 <= i < |items| ==>
           DecodePackage(items[i], path + [Key("packages")] + [Index(i)]) == Ok(c.packages[i])
  {
  }

  lemma DecodedVersionsInDocumentOrder(j: Json, path: Path)
    requires DecodePackage(j, path).Ok?
    ensures j.obj["versions"].JArray?
    ensures var items := j.obj["versions"].items;
      var pk := DecodePackage(j, path).value;
      && |pk.versions| == |items|
      && forall i :: 0 <= i < |items| ==>
           DecodeVersion(items[i], path + [Key("versions")] + [Index(i)]) == Ok(pk.versions[i])
  {
  }

  lemma DecodedTargetsAndProductsInDocumentOrder(j: Json, path: Path)
    requires DecodeVersion(j, path).Ok?
    ensures j.obj["targets"].JArray? && j.obj["products"].JArray?
    ensures var targets := j.obj["targets"].items;
      var v := DecodeVersion(j, path).value;
      && |v.targets| == |targets|
      && forall i :: 0 <= i < |targets| ==>
           DecodeTarget(targets[i], path + [Key("targets")] + [Index(i)]) == Ok(v.targets[i])
    ensures var products := j.obj["products"].items;
      var v := DecodeVersion(j, path).value;
      && |v.products| == |products|
      && forall i :: 0 <= i < |products| ==>
           DecodeProduct(products[i], path + [Key("products")] + [Index(i)]) == Ok(v.products[i])
  {
  }

  /** A product's target names are the JSON strings in order; they are not
      looked up among the version's targets. */
  lemma DecodedProductTargetsInDocumentOrder(j: Json, path: Path)
    requires DecodeProduct(j, path).Ok?
    ensures j.obj["targets"].JArray?
    ensures var items := j.obj["targets"].items;
      var pr := DecodeProduct(j, path).value;
      && |pr.targets| == |items|
      && forall i :: 0 <= i < |items| ==> items[i] == JString(pr.targets[i])
  {
  }

  // ---------------------------------------------------------------------
  // Initializer defaults: every defaulted optional argument is nil

  lemma CollectionInitializerDefaults(title: string, packages: seq<Package>, now: Timestamp)
    ensures var c := NewPackageCollection(title, packages, V1_0, now);
      c._description.None? && c.keywords.None? && c.revision.None? && c.generatedBy.None?
  {
  }

  lemma PackageInitializerDefaults(url: Url, versions: seq<Version>)
    ensures var pk := NewPackage(url, versions);
      pk._description.None? && pk.keywords.None? && pk.readmeURL.None?
  {
  }

  lemma VersionInitializerDefaults(version: string, packageName: string, targets: seq<Target>,
                                   products: seq<Product>, toolsVersion: string)
    ensures var v := NewVersion(version, packageName, targets, products, toolsVersion);
      v.minimumPlatformVersions.None? && v.verifiedPlatforms.None? && v.verifiedSwiftVersions.None? && v.license.None?
  {
  }

  lemma TargetInitializerDefaults(name: string)
    ensures NewTarget(name).moduleName.None?
  {
  }


  // ---------------------------------------------------------------------
  // The round-trip scenario of the model's unit test

  /** The collection the unit test builds; `now` stands for `Date()`. */
  function CodableTestCollection(now: Timestamp): PackageCollection {
    var version := NewVersion(
      version := "1.3.2",
      packageName := "Foobar",
      targets := [NewTarget("Foo", moduleName := Some("Foo"))],
      products := [Product("Bar", Library(Automatic), ["Foo"])],
      toolsVersion := "5.2",
      minimumPlatformVersions := Some([PlatformVersion("macOS", "10.15")]),
      verifiedPlatforms := Some([Platform("macOS")]),
      verifiedSwiftVersions := Some(["5.2"]),
      license := Some(License("Apache-2.0", Url("https://package-collection-tests.com/repos/foobar/LICENSE"))));
    var package := NewPackage(
      url := Url("https://package-collection-tests.com/repos/foobar.git"),
      description := Some("Package Foobar"),
      keywords := Some(["test package"]),
      versions := [version],
      readmeURL := Some(Url("https://package-collection-tests.com/repos/foobar/README")));
    NewPackageCollection(
      title := "Test Package Collection",
      description := Some("A test package collection"),
      keywords := Some(["swift packages"]),
      packages := [package],
      formatVersion := V1_0,
      revision := Some(3),
      generatedAt := now,
      generatedBy := Some(Author("Jane Doe")))
  }

  /** Encoding the test collection and decoding it back gives an equal
      collection. */
  lemma CodableTestScenario(now: Timestamp, path: Path)
    ensures DecodePackageCollection(EncodePackageCollection(CodableTestCollection(now)), path)
      == Ok(CodableTestCollection(now))
  {
    PackageCollectionRoundTrip(CodableTestCollection(now), path);
  }
}
