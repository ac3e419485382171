/** An abstract JSON value tree and the keyed/unkeyed coding primitives that
    Swift's synthesized `Codable` conformances use through `JSONEncoder` and
    `JSONDecoder`: required and optional keyed fields, arrays, strings,
    integers and numbers, with the decoder's error cases. */
module Json {

  datatype Option<+T> = None | Some(value: T)

  /** One step of a coding path: an object key or an array index. */
  datatype CodingKey = Key(name: string) | Index(index: nat)

  type Path = seq<CodingKey>

  /** The four kinds of `DecodingError` the synthesized decoders raise;
      each names the coding path where decoding stopped. */
  datatype DecodeError =
    | KeyNotFound(path: Path, key: string)
    | ValueNotFound(path: Path, expected: string)
    | TypeMismatch(path: Path, expected: string)
    | DataCorrupted(path: Path, reason: string)

  datatype Result<+T> = Ok(value: T) | Err(error: DecodeError) {
    predicate IsFailure() { Err? }

    function PropagateFailure<U>(): Result<U>
      requires Err?
    {
      Err(error)
    }

    function Extract(): T
      requires Ok?
    {
      value
    }
  }

  /** A JSON value. Numbers are integral here (see README, "Left out"). */
  datatype Json =
    | JNull
    | JBool(b: bool)
    | JNumber(n: int)
    | JString(s: string)
    | JArray(items: seq<Json>)
    | JObject(obj: map<string, Json>)

  type Decoder<T> = (Json, Path) -> Result<T>

  // ---------------------------------------------------------------------
  // Scalars

  /** Swift's `Int` on a 64-bit platform. */
  const MinInt: int := -0x8000_0000_0000_0000
  const MaxInt: int := 0x7FFF_FFFF_FFFF_FFFF
  type Int64 = x: int | MinInt <= x <= MaxInt

  function EncodeString(s: string): Json { JString(s) }

  function DecodeString(j: Json, path: Path): (r: Result<string>)
    ensures r.Ok? <==> j.JString?
    ensures r.Ok? ==> r.value == j.s
    ensures j.JNull? ==> r == Err(ValueNotFound(path, "String"))
  {
    match j
    case JString(s) => Ok(s)
    case JNull => Err(ValueNotFound(path, "String"))
    case _ => Err(TypeMismatch(path, "String"))
  }

  function EncodeInt(n: Int64): Json { JNumber(n) }

  /** An `Int` is read from an integral number that fits in 64 bits; a
      larger number is corrupted data, anything else a type mismatch. */
  function DecodeInt(j: Json, path: Path): (r: Result<Int64>)
    ensures r.Ok? <==> j.JNumber? && MinInt <= j.n <= MaxInt
    ensures r.Ok? ==> r.value == j.n
  {
    match j
    case JNumber(n) =>
      if MinInt <= n <= MaxInt then Ok(n as Int64)
      else Err(DataCorrupted(path, "Parsed JSON number does not fit in Int"))
    case JNull => Err(ValueNotFound(path, "Int"))
    case _ => Err(TypeMismatch(path, "Int"))
  }

  // ---------------------------------------------------------------------
  // Containers

  /** Opens a keyed container: only an object qualifies. */
  function DecodeObject(j: Json, path: Path): (r: Result<map<string, Json>>)
    ensures r.Ok? <==> j.JObject?
    ensures r.Ok? ==> r.value == j.obj
  {
    match j
    case JObject(m) => Ok(m)
    case JNull => Err(ValueNotFound(path, "Dictionary"))
    case _ => Err(TypeMismatch(path, "Dictionary"))
  }

  /** `decode(_:forKey:)`: a missing key is `keyNotFound`; otherwise the
      value under the key is decoded with the key appended to the path. */
  function Required<T>(m: map<string, Json>, key: string, path: Path, dec: Decoder<T>): (r: Result<T>)
    ensures key !in m ==> r == Err(KeyNotFound(path, key))
    ensures key in m ==> r == dec(m[key], path + [Key(key)])
  {
    if key !in m then Err(KeyNotFound(path, key)) else dec(m[key], path + [Key(key)])
  }

  /** `decodeIfPresent(_:forKey:)`: a missing key or an explicit null reads
      as absent; any other value must decode. */
  function Optional<T>(m: map<string, Json>, key: string, path: Path, dec: Decoder<T>): (r: Result<Option<T>>)
    ensures (key !in m || m[key].JNull?) ==> r == Ok(None)
    ensures key in m && !m[key].JNull? ==>
      (r.Ok? <==> dec(m[key], path + [Key(key)]).Ok?) &&
      (r.Ok? ==> r.value == Some(dec(m[key], path + [Key(key)]).value))
  {
    if key !in m || m[key].JNull? then Ok(None)
    else
      var x :- dec(m[key], path + [Key(key)]);
      Ok(Some(x))
  }

  /** `encodeIfPresent(_:forKey:)`: an absent value yields no entry. */
  function EncodeIfPresent<T>(x: Option<T>, enc: T -> Json): (r: Option<Json>)
    ensures r.Some? <==> x.Some?
    ensures r.Some? ==> r.value == enc(x.value)
  {
    match x
    case None => None
    case Some(v) => Some(enc(v))
  }

  /** `m` holds `x` under `key`, encoded with `enc`. */
  ghost predicate Holds<T>(m: map<string, Json>, key: string, x: T, enc: T -> Json) {
    key in m && m[key] == enc(x)
  }

  /** `m` holds the optional `x` under `key` the way `decodeIfPresent`
      reads it: the encoded value when present; no key, or null, when
      absent. */
  ghost predicate HoldsIfPresent<T>(m: map<string, Json>, key: string, x: Option<T>, enc: T -> Json) {
    match x
    case Some(v) => key in m && m[key] == enc(v)
    case None => key !in m || m[key].JNull?
  }

  lemma RequiredReadsBack<T>(m: map<string, Json>, key: string, x: T, enc: T -> Json, dec: Decoder<T>, path: Path)
    requires Holds(m, key, x, enc)
    requires dec(enc(x), path + [Key(key)]) == Ok(x)
    ensures Required(m, key, path, dec) == Ok(x)
  {
  }

  lemma OptionalReadsBack<T>(m: map<string, Json>, key: string, x: Option<T>, enc: T -> Json, dec: Decoder<T>, path: Path)
    requires HoldsIfPresent(m, key, x, enc)
    requires x.Some? ==> !enc(x.value).JNull? && dec(enc(x.value), path + [Key(key)]) == Ok(x.value)
    ensures Optional(m, key, path, dec) == Ok(x)
  {
  }

  /** `x` is what `decode(_:forKey:)` reads from `m`: the key is present and
      its value decodes to `x` one key deeper. */
  ghost predicate ReadsRequired<T>(m: map<string, Json>, key: string, path: Path, dec: Decoder<T>, x: T) {
    key in m && dec(m[key], path + [Key(key)]) == Ok(x)
  }

  /** `x` is what `decodeIfPresent(_:forKey:)` reads from `m`: nil when the
      key is missing or null, otherwise the decoding of its value. */
  ghost predicate ReadsOptional<T>(m: map<string, Json>, key: string, path: Path, dec: Decoder<T>, x: Option<T>) {
    match x
    case None => key !in m || m[key].JNull?
    case Some(v) => key in m && !m[key].JNull? && dec(m[key], path + [Key(key)]) == Ok(v)
  }

  lemma RequiredExactly<T>(m: map<string, Json>, key: string, path: Path, dec: Decoder<T>, x: T)
    ensures Required(m, key, path, dec) == Ok(x) <==> ReadsRequired(m, key, path, dec, x)
  {
  }

  lemma OptionalExactly<T>(m: map<string, Json>, key: string, path: Path, dec: Decoder<T>, x: Option<T>)
    ensures Optional(m, key, path, dec) == Ok(x) <==> ReadsOptional(m, key, path, dec, x)
  {
  }

  /** The key an optional value contributes to an encoded object. */
  function KeyIfPresent<T>(key: string, x: Option<T>): set<string> {
    if x.Some? then {key} else {}
  }

  function EncodeItems<T>(xs: seq<T>, enc: T -> Json): (r: seq<Json>)
    ensures |r| == |xs|
    ensures forall i :: 0 <= i < |xs| ==> r[i] == enc(xs[i])
  {
    if xs == [] then [] else [enc(xs[0])] + EncodeItems(xs[1..], enc)
  }

  /** Decodes the elements of an unkeyed container in order, the element
      at position `offset + i` under the path `path + [Index(offset + i)]`;
      the first element that fails decides the error. */
  function DecodeItems<T>(items: seq<Json>, path: Path, offset: nat, dec: Decoder<T>): (r: Result<seq<T>>)
    ensures r.Ok? <==> forall i :: 0 <= i < |items| ==> dec(items[i], path + [Index(offset + i)]).Ok?
    ensures r.Ok? ==> |r.value| == |items|
    ensures r.Ok? ==> forall i :: 0 <= i < |items| ==> r.value[i] == dec(items[i], path + [Index(offset + i)]).value
    decreases |items|
  {
    if items == [] then Ok([])
    else
      var x :- dec(items[0], path + [Index(offset)]);
      var rest :- DecodeItems(items[1..], path, offset + 1, dec);
      Ok([x] + rest)
  }

  function EncodeArray<T>(xs: seq<T>, enc: T -> Json): Json {
    JArray(EncodeItems(xs, enc))
  }

  function DecodeArray<T>(j: Json, path: Path, dec: Decoder<T>): (r: Result<seq<T>>)
    ensures r.Ok? ==> j.JArray? && |r.value| == |j.items|
    ensures j.JArray? ==> r == DecodeItems(j.items, path, 0, dec)
  {
    match j
    case JArray(items) => DecodeItems(items, path, 0, dec)
    case JNull => Err(ValueNotFound(path, "Array"))
    case _ => Err(TypeMismatch(path, "Array"))
  }

  // ---------------------------------------------------------------------
  // Round trips of the primitives

  /** Arrays keep their length and their order: if every element survives
      encode-then-decode at any path, the whole sequence does. */
  lemma {:induction false} ItemsRoundTrip<T>(xs: seq<T>, enc: T -> Json, dec: Decoder<T>, path: Path, offset: nat)
    requires forall x, p :: x in xs ==> dec(enc(x), p) == Ok(x)
    ensures DecodeItems(EncodeItems(xs, enc), path, offset, dec) == Ok(xs)
  {
    if xs != [] {
      ItemsRoundTrip(xs[1..], enc, dec, path, offset + 1);
      assert EncodeItems(xs, enc)[1..] == EncodeItems(xs[1..], enc);
      assert [xs[0]] + xs[1..] == xs;
    }
  }

  lemma ArrayRoundTrip<T>(xs: seq<T>, enc: T -> Json, dec: Decoder<T>, path: Path)
    requires forall x, p :: x in xs ==> dec(enc(x), p) == Ok(x)
    ensures DecodeArray(EncodeArray(xs, enc), path, dec) == Ok(xs)
  {
    ItemsRoundTrip(xs, enc, dec, path, 0);
  }

  lemma StringsRoundTrip(xs: seq<string>, path: Path)
    ensures DecodeArray(EncodeArray(xs, EncodeString), path, DecodeString) == Ok(xs)
  {
    ArrayRoundTrip(xs, EncodeString, DecodeString, path);
  }
}
