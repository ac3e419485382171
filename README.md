# Package collection model, version 1

A Dafny model of `JSONPackageCollectionModel.V1` from the Swift package
collection generator. The model covers the document types and the JSON
coding that Swift synthesizes for them from `Codable`. A package collection
has a title, an optional description and keywords, a list of packages, a
format version, an optional revision, a generation date and an optional
author. Each package has a URL, an optional description and keywords, a
list of versions and an optional README URL. Each version lists its targets
and products, its tools version, and optionally its minimum platform
versions, verified platforms, verified Swift versions and license.

Modules:

- `Json` (`json.dfy`) models the coding primitives behind `JSONEncoder` and
  `JSONDecoder`. It has an abstract JSON value tree and the four kinds of
  `DecodingError`, each carrying its coding path. It has required fields
  (`decode(_:forKey:)`), optional fields (`encodeIfPresent` and
  `decodeIfPresent`), arrays, strings and 64-bit `Int`.
- `PackageCollectionModel` (`model.dfy`) holds the entities as immutable
  datatypes, the `FormatVersion` raw-value enum, and the initializers with
  their defaulted arguments. The collection initializer's
  `precondition(formatVersion == .v1_0)` is a `requires`.
- `PackageCollectionCoding` (`coding.dfy`) holds the wire keys of each
  entity and one encoder and one decoder per entity. Encoders follow the
  synthesized `encode(to:)`: `_description` is written under
  `"description"`, and a nil optional is omitted. Decoders follow the
  synthesized `init(from:)`: properties are read in declaration order, a
  missing required key is `keyNotFound`, and a missing or null optional is
  nil. Unknown keys are ignored.
- `CodingRoundTrip` (`roundtrip.dfy`) proves that encode-then-decode gives
  the value back, for every entity. For the collection, package, version and
  target it also proves that any object carrying a value's encodings under
  the entity's coding keys decodes to that value, whatever else the object
  holds.
- `PackageCollectionProperties` (`properties.dfy`) proves the rest of the
  coding contract:
  - what each decoder reads: an object decodes to a value exactly when each
    property is what the value under its coding key decodes to;
  - a present value of the wrong shape is a decode error;
  - the exact key sets and the `description` rename;
  - absent optionals, whether missing or null;
  - missing and null required keys;
  - unknown keys;
  - the format-version gate on decode;
  - the document order of every array;
  - initializer defaults;
  - the unit test's scenario.

On two points the documented format and the code differ; the model follows the code:

- `generatedAt` goes through the default `JSONEncoder` date strategy.
  That strategy writes a number of seconds since the reference date, not
  an ISO 8601 string. The doc comment on the property
  (Sources/PackageCollectionModel/PackageCollection.swift:49) says ISO
  8601, but nothing in the code sets that strategy.
- A document whose `formatVersion` is `"2.0"` cannot be decoded at all.
  `FormatVersion` is a `String` raw-value enum, so decoding any string
  other than `"1.0"` fails with `dataCorrupted` at the `formatVersion` key.
  Such a document never gets as far as the initializer's precondition.

## Model

All source paths are relative to the repository root.
`PackageCollection.swift` is `Sources/PackageCollectionModel/PackageCollection.swift`.
The test is `Tests/PackageCollectionModelTests/PackageCollectionModelTests.swift`.

| member | source | states |
|---|---|---|
| PackageCollectionModel.FormatVersionFromRawValue | Sources/PackageCollectionModel/PackageCollection.swift:23-26 | `FormatVersion(rawValue:)` succeeds exactly for "1.0", and the case it yields has raw value "1.0" |
| PackageCollectionModel.NewPackageCollection | Sources/PackageCollectionModel/PackageCollection.swift:55-76 | only format version 1.0 may be passed; every stored property equals its argument |
| PackageCollectionModel.NewPackage | Sources/PackageCollectionModel/PackageCollection.swift:118-131 | every stored property equals its argument |
| PackageCollectionModel.NewVersion | Sources/PackageCollectionModel/PackageCollection.swift:172-193 | every stored property equals its argument |
| PackageCollectionModel.NewTarget | Sources/PackageCollectionModel/PackageCollection.swift:203-207 | both stored properties equal their arguments |
| PackageCollectionProperties.CollectionInitializerDefaults | Sources/PackageCollectionModel/PackageCollection.swift:56-65 | omitting description, keywords, revision and generatedBy leaves them nil |
| PackageCollectionProperties.PackageInitializerDefaults | Sources/PackageCollectionModel/PackageCollection.swift:119-124 | omitting description, keywords and readmeURL leaves them nil |
| PackageCollectionProperties.VersionInitializerDefaults | Sources/PackageCollectionModel/PackageCollection.swift:173-182 | omitting the four optional arguments leaves those properties nil |
| PackageCollectionProperties.TargetInitializerDefaults | Sources/PackageCollectionModel/PackageCollection.swift:204 | omitting moduleName leaves it nil |
| Json.DecodeInt | Sources/PackageCollectionModel/PackageCollection.swift:46-47 | an `Int` decodes exactly from an integral number within the 64-bit range, to that number |
| Json.RequiredExactly | Sources/PackageCollectionModel/PackageCollection.swift:31-32 | a non-optional property reads as `x` exactly when its key is present and the value under it decodes to `x` one key deeper |
| Json.OptionalExactly | Sources/PackageCollectionModel/PackageCollection.swift:34-38 | an optional property reads as nil exactly when its key is missing or null, and as `Some(v)` exactly when the non-null value under it decodes to `v` |
| Json.RequiredReadsBack | Sources/PackageCollectionModel/PackageCollection.swift:31-32 | a non-optional property written under its key reads back, given that its value survives encode-then-decode |
| Json.OptionalReadsBack | Sources/PackageCollectionModel/PackageCollection.swift:34-38 | an optional property written under its key when present, and missing or null when nil, reads back |
| Json.EncodeItems | Sources/PackageCollectionModel/PackageCollection.swift:40-41 | an array is written with one element per item, in the same order |
| Json.DecodeItems | Sources/PackageCollectionModel/PackageCollection.swift:40-41 | an array decodes exactly when every element decodes at its own index; the result has the same length, and element i is element i's decoding |
| Json.ItemsRoundTrip | Sources/PackageCollectionModel/PackageCollection.swift:40-41 | if every element survives encode-then-decode, the whole array does, with length and order kept |
| PackageCollectionCoding.DecodeFormatVersion | Sources/PackageCollectionModel/PackageCollection.swift:23-26 | decoding succeeds exactly on the string "1.0"; any other string is dataCorrupted at the same path |
| PackageCollectionCoding.DecodeUrl | Sources/PackageCollectionModel/PackageCollection.swift:103-104 | a URL decodes exactly from a string, and keeps that string |
| PackageCollectionCoding.DecodeTimestamp | Sources/PackageCollectionModel/PackageCollection.swift:49-50 | a date decodes exactly from a number, and keeps that number |
| PackageCollectionCoding.DecodeProductType | Sources/PackageCollectionModel/PackageCollection.swift:214-215 | a product type decodes only from an object holding one of the case keys |
| PackageCollectionCoding.DecodePackageCollection | Sources/PackageCollectionModel/PackageCollection.swift:78-87 | on success each property is what the value under its coding key decodes to, and an optional is nil exactly when its key is missing or null; title, packages, formatVersion and generatedAt must be present, formatVersion being "1.0" |
| PackageCollectionCoding.DecodePackage | Sources/PackageCollectionModel/PackageCollection.swift:133-139 | on success url and versions are the decodings of their keys' values, and each optional is nil exactly when its key is missing or null, else the decoding of its value |
| PackageCollectionCoding.DecodeVersion | Sources/PackageCollectionModel/PackageCollection.swift:144-170 | on success each of the nine properties is what the value under its name decodes to, and an optional is nil exactly when its key is missing or null |
| PackageCollectionCoding.DecodeTarget | Sources/PackageCollectionModel/PackageCollection.swift:196-201 | on success name is the decoding of its value, and moduleName is nil exactly when its key is missing or null |
| PackageCollectionCoding.DecodeProduct | Sources/PackageCollectionModel/PackageCollection.swift:210-218 | on success name, type and targets are the decodings of the values under those keys |
| PackageCollectionCoding.DecodeAuthor | Sources/PackageCollectionModel/PackageCollection.swift:89-97 | on success name is the string under the key name |
| PackageCollectionCoding.DecodePlatformVersion | Sources/PackageCollectionModel/PackageCollection.swift:232-237 | on success name and version are the strings under those keys |
| PackageCollectionCoding.DecodePlatform | Sources/PackageCollectionModel/PackageCollection.swift:246-248 | on success name is the string under the key name |
| PackageCollectionCoding.DecodeLicense | Sources/PackageCollectionModel/PackageCollection.swift:256-261 | on success name is the string under name and url the URL under url |
| PackageCollectionProperties.DecodeCollectionExactly | Sources/PackageCollectionModel/PackageCollection.swift:78-87 | any object decodes to a collection `c` exactly when every property of `c` is what its coding key's value decodes to, and each nil optional's key is missing or null |
| PackageCollectionProperties.DecodePackageExactly | Sources/PackageCollectionModel/PackageCollection.swift:133-139 | the same for a package |
| PackageCollectionProperties.DecodeVersionExactly | Sources/PackageCollectionModel/PackageCollection.swift:144-170 | the same for a version |
| PackageCollectionProperties.DecodeTargetExactly | Sources/PackageCollectionModel/PackageCollection.swift:196-201 | the same for a target |
| PackageCollectionProperties.DecodeProductExactly | Sources/PackageCollectionModel/PackageCollection.swift:210-218 | the same for a product |
| PackageCollectionProperties.DecodeLeavesExactly | Sources/PackageCollectionModel/PackageCollection.swift:89-268 | the same for an author, a platform version, a platform and a license: any object whose values under their keys decode to the fields decodes to that value |
| PackageCollectionProperties.CollectionWrongShapeRejected | Sources/PackageCollectionModel/PackageCollection.swift:31-53 | a present value of the wrong shape under any coding key, such as a non-string title, a non-array packages or a formatVersion other than "1.0", makes decoding fail; a bad title fails at the title key |
| PackageCollectionProperties.PackageWrongShapeRejected | Sources/PackageCollectionModel/PackageCollection.swift:103-116 | the same for a package; a bad url fails at the url key |
| PackageCollectionProperties.VersionWrongShapeRejected | Sources/PackageCollectionModel/PackageCollection.swift:145-170 | the same for a version; a bad version string fails at the version key |
| PackageCollectionProperties.TargetWrongShapeRejected | Sources/PackageCollectionModel/PackageCollection.swift:197-201 | the same for a target; a bad name fails at the name key |
| PackageCollectionProperties.ProductWrongShapeRejected | Sources/PackageCollectionModel/PackageCollection.swift:211-218 | the same for a product; a bad name fails at the name key |
| PackageCollectionProperties.LeavesWrongShapeRejected | Sources/PackageCollectionModel/PackageCollection.swift:89-268 | a non-string name makes an author, platform, platform version or license fail at the name key |
| PackageCollectionCoding.EncodeAuthor | Sources/PackageCollectionModel/PackageCollection.swift:89-91 | an author is written with exactly the key name |
| PackageCollectionCoding.EncodeProduct | Sources/PackageCollectionModel/PackageCollection.swift:210-218 | a product is written with exactly the keys name, type and targets |
| PackageCollectionCoding.EncodePlatformVersion | Sources/PackageCollectionModel/PackageCollection.swift:232-237 | a platform version is written with exactly the keys name and version |
| PackageCollectionCoding.EncodePlatform | Sources/PackageCollectionModel/PackageCollection.swift:246-248 | a platform is written with exactly the key name |
| PackageCollectionCoding.EncodeLicense | Sources/PackageCollectionModel/PackageCollection.swift:256-261 | a license is written with exactly the keys name and url |
| CodingRoundTrip.PackageCollectionRoundTrip | Tests/PackageCollectionModelTests/PackageCollectionModelTests.swift:46-59 | decoding the encoding of any collection gives back an equal collection |
| CodingRoundTrip.EncodeCollectionObject | Sources/PackageCollectionModel/PackageCollection.swift:78-87 | the encoder writes each present property under its coding key; a nil optional is missing or null (its omission is CollectionWireKeys) |
| CodingRoundTrip.DecodeCollectionObject | Sources/PackageCollectionModel/PackageCollection.swift:78-87 | any object holding a collection's properties under its coding keys decodes to that collection, whatever other keys it has; a nil optional may be missing or null |
| CodingRoundTrip.PackageRoundTrip | Sources/PackageCollectionModel/PackageCollection.swift:102-139 | decoding the encoding of any package gives it back |
| CodingRoundTrip.EncodePackageObject | Sources/PackageCollectionModel/PackageCollection.swift:133-139 | the package encoder writes each present property under its coding key; a nil optional is missing or null (its omission is PackageWireKeys) |
| CodingRoundTrip.DecodePackageObject | Sources/PackageCollectionModel/PackageCollection.swift:133-139 | any object holding a package's properties under its coding keys decodes to that package |
| CodingRoundTrip.VersionRoundTrip | Sources/PackageCollectionModel/PackageCollection.swift:144-194 | decoding the encoding of any version gives it back, including one whose product names a target the version does not declare |
| CodingRoundTrip.EncodeVersionObject | Sources/PackageCollectionModel/PackageCollection.swift:144-170 | the version encoder writes each present property under its name; a nil optional is missing or null (its omission is VersionWireKeys) |
| CodingRoundTrip.DecodeVersionObject | Sources/PackageCollectionModel/PackageCollection.swift:144-170 | any object holding a version's properties under their names decodes to that version |
| CodingRoundTrip.TargetRoundTrip | Sources/PackageCollectionModel/PackageCollection.swift:196-208 | decoding the encoding of any target gives it back |
| CodingRoundTrip.EncodeTargetObject | Sources/PackageCollectionModel/PackageCollection.swift:196-201 | the target encoder writes name, and moduleName when present; a nil moduleName is missing or null (its omission is TargetWireKeys) |
| CodingRoundTrip.DecodeTargetObject | Sources/PackageCollectionModel/PackageCollection.swift:196-201 | any object holding a target's properties decodes to that target |
| CodingRoundTrip.ProductRoundTrip | Sources/PackageCollectionModel/PackageCollection.swift:210-230 | decoding the encoding of any product gives it back, with its target names in order |
| CodingRoundTrip.AuthorRoundTrip | Sources/PackageCollectionModel/PackageCollection.swift:89-97 | decoding the encoding of any author gives it back |
| CodingRoundTrip.PlatformVersionRoundTrip | Sources/PackageCollectionModel/PackageCollection.swift:232-244 | decoding the encoding of any platform version gives it back |
| CodingRoundTrip.PlatformRoundTrip | Sources/PackageCollectionModel/PackageCollection.swift:246-254 | decoding the encoding of any platform gives it back |
| CodingRoundTrip.LicenseRoundTrip | Sources/PackageCollectionModel/PackageCollection.swift:256-268 | decoding the encoding of any license gives it back |
| CodingRoundTrip.FormatVersionRoundTrip | Sources/PackageCollectionModel/PackageCollection.swift:23-26 | the format version survives encode-then-decode |
| CodingRoundTrip.UrlRoundTrip | Sources/PackageCollectionModel/PackageCollection.swift:103-104 | a URL survives encode-then-decode |
| CodingRoundTrip.TimestampRoundTrip | Sources/PackageCollectionModel/PackageCollection.swift:49-50 | a date survives encode-then-decode |
| CodingRoundTrip.ProductTypeRoundTrip | Sources/PackageCollectionModel/PackageCollection.swift:214-215 | a product type survives encode-then-decode |
| CodingRoundTrip.PackagesRoundTrip | Sources/PackageCollectionModel/PackageCollection.swift:40-41 | the packages array keeps its elements and their order |
| CodingRoundTrip.VersionsRoundTrip | Sources/PackageCollectionModel/PackageCollection.swift:112-113 | the versions array keeps its elements and their order |
| CodingRoundTrip.TargetsRoundTrip | Sources/PackageCollectionModel/PackageCollection.swift:151-152 | the targets array keeps its elements and their order |
| CodingRoundTrip.ProductsRoundTrip | Sources/PackageCollectionModel/PackageCollection.swift:154-155 | the products array keeps its elements and their order |
| CodingRoundTrip.PlatformVersionsRoundTrip | Sources/PackageCollectionModel/PackageCollection.swift:160-161 | the minimum platform versions keep their elements and their order |
| CodingRoundTrip.PlatformsRoundTrip | Sources/PackageCollectionModel/PackageCollection.swift:163-164 | the verified platforms keep their elements and their order |
| PackageCollectionProperties.CollectionWireKeys | Sources/PackageCollectionModel/PackageCollection.swift:78-87 | an encoded collection has exactly the four required keys plus the key of each present optional |
| PackageCollectionProperties.PackageWireKeys | Sources/PackageCollectionModel/PackageCollection.swift:133-139 | an encoded package has exactly url and versions plus the key of each present optional |
| PackageCollectionProperties.VersionWireKeys | Sources/PackageCollectionModel/PackageCollection.swift:144-170 | an encoded version has exactly its five required keys plus the key of each present optional |
| PackageCollectionProperties.TargetWireKeys | Sources/PackageCollectionModel/PackageCollection.swift:196-201 | an encoded target has name, plus moduleName exactly when present |
| PackageCollectionProperties.DescriptionKeyRenamed | Sources/PackageCollectionModel/PackageCollection.swift:78-81 | `_description` never appears as a key; "description" is present exactly when the description is, and holds it |
| PackageCollectionProperties.CollectionOptionalKeyAbsent | Sources/PackageCollectionModel/PackageCollection.swift:34-53 | removing an optional key from an encoded collection, or nulling it, decodes to the collection with that property nil |
| PackageCollectionProperties.PackageOptionalKeyAbsent | Sources/PackageCollectionModel/PackageCollection.swift:106-116 | the same for the optional keys of a package |
| PackageCollectionProperties.VersionOptionalKeyAbsent | Sources/PackageCollectionModel/PackageCollection.swift:160-170 | the same for the optional keys of a version |
| PackageCollectionProperties.TargetOptionalKeyAbsent | Sources/PackageCollectionModel/PackageCollection.swift:200-201 | the same for a target's moduleName |
| PackageCollectionProperties.CollectionRequiredKeyMissing | Sources/PackageCollectionModel/PackageCollection.swift:31-50 | removing any required key from an encoded collection fails with keyNotFound for that key at the collection's path |
| PackageCollectionProperties.CollectionRequiredKeyNull | Sources/PackageCollectionModel/PackageCollection.swift:31-50 | a null under a required key fails with valueNotFound at that key, unlike a null optional |
| PackageCollectionProperties.PackageRequiredKeyMissing | Sources/PackageCollectionModel/PackageCollection.swift:103-113 | removing url or versions from an encoded package fails with keyNotFound for that key |
| PackageCollectionProperties.VersionRequiredKeyMissing | Sources/PackageCollectionModel/PackageCollection.swift:145-158 | removing any of the five required keys from an encoded version fails with keyNotFound for that key |
| PackageCollectionProperties.TargetRequiredKeyMissing | Sources/PackageCollectionModel/PackageCollection.swift:197-198 | removing name from an encoded target fails with keyNotFound |
| PackageCollectionProperties.ProductRequiredKeyMissing | Sources/PackageCollectionModel/PackageCollection.swift:211-218 | removing any key from an encoded product fails with keyNotFound for that key |
| PackageCollectionProperties.LeafRequiredKeyMissing | Sources/PackageCollectionModel/PackageCollection.swift:232-268 | removing any key from an encoded author, platform, platform version or license fails with keyNotFound for that key |
| PackageCollectionProperties.CollectionUnknownKeyIgnored | Sources/PackageCollectionModel/PackageCollection.swift:78-87 | adding a key outside the coding keys does not change how a collection object decodes |
| PackageCollectionProperties.PackageUnknownKeyIgnored | Sources/PackageCollectionModel/PackageCollection.swift:133-139 | the same for a package object |
| PackageCollectionProperties.VersionUnknownKeyIgnored | Sources/PackageCollectionModel/PackageCollection.swift:144-170 | the same for a version object |
| PackageCollectionProperties.TargetUnknownKeyIgnored | Sources/PackageCollectionModel/PackageCollection.swift:196-201 | the same for a target object |
| PackageCollectionProperties.ProductUnknownKeyIgnored | Sources/PackageCollectionModel/PackageCollection.swift:210-218 | the same for a product object |
| PackageCollectionProperties.UnsupportedFormatVersionRejected | Sources/PackageCollectionModel/PackageCollection.swift:23-26 | an encoded collection whose formatVersion is replaced by any other string fails with dataCorrupted at the formatVersion key |
| PackageCollectionProperties.DecodedPackagesInDocumentOrder | Sources/PackageCollectionModel/PackageCollection.swift:40-41 | in a decoded collection, package i is what the i-th element of the packages array decodes to |
| PackageCollectionProperties.DecodedVersionsInDocumentOrder | Sources/PackageCollectionModel/PackageCollection.swift:112-113 | in a decoded package, version i is what the i-th element of the versions array decodes to |
| PackageCollectionProperties.DecodedTargetsAndProductsInDocumentOrder | Sources/PackageCollectionModel/PackageCollection.swift:151-155 | in a decoded version, target i and product i come from the i-th elements of their arrays |
| PackageCollectionProperties.DecodedProductTargetsInDocumentOrder | Sources/PackageCollectionModel/PackageCollection.swift:217-218 | a decoded product's target names are the array's strings, in order, not resolved against any target |
| PackageCollectionProperties.CodableTestScenario | Tests/PackageCollectionModelTests/PackageCollectionModelTests.swift:24-60 | the collection built by the unit test, with its date as an argument, survives encode-then-decode |

## Left out

- JSON text: rendering and parsing JSON text are not modelled. Documents are
  abstract JSON values, so key order, whitespace and escaping are not
  captured. A JSON object is a map, so duplicate keys cannot be expressed.
- Non-integral numbers: JSON numbers are integers here.
- PackageCollectionCoding.DecodeTimestamp: a `Date` is modelled as whole
  seconds since the reference date. Fractional seconds and floating-point
  rounding are not modelled.
- `generatedAt`'s default `Date()` reads the clock. Here the date is an
  argument with no default.
- PackageCollectionCoding.DecodeUrl: URLs are opaque strings.
  `URL(string:)` parsing and validation are not modelled, so a malformed
  URL string that the real decoder rejects is accepted here.
- `ProductType` comes from PackageModel, which is not part of this model.
  `ProductType`, `EncodeProductType` and `DecodeProductType` are a minimal
  stand-in with library, executable and test cases.
- PackageCollectionCoding.DecodeProductType: when an object has several
  case keys, the stand-in tries library first, then executable, then test.
  The order the real decoder uses for its keys is not modelled.
- The error strings in `DataCorrupted`, and the `expected` type names, are
  descriptive tokens. They are not Foundation's exact messages.
- Equality of entities is Dafny's structural datatype equality. The
  synthesized `Equatable` compares fields the same way, but Swift's
  `String ==` compares by Unicode canonical equivalence, while Dafny's
  `seq<char>` equality compares character by character. Dafny's equality
  is the stricter one, so the round trip proved here implies the test's
  `XCTAssertEqual`. Canonical equivalence itself is not modelled.
- The XCTest harness is not modelled. Its one test is restated as
  `CodableTestScenario`.
