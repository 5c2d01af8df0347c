/**
  The Amplify `ArtifactType` enum codec: a name is hashed and compared with
  the hash of the one known name, "TEST"; any other name is kept in the
  process-wide overflow container under its hash, and the hash itself becomes
  the enum value, so that the name can be recovered when the value is encoded.
 */
module ArtifactTypeMapper {
  import opened Common

  /** The enum is an `int`; a value that is not a known symbol is a name's hash. */
  type ArtifactType = int32

  const NOT_SET: ArtifactType := 0
  const TEST: ArtifactType := 1

  /**
    `HashingUtils::HashString` is not part of this model: every operation takes
    the hash as a parameter, so each result holds for any deterministic hash,
    collisions included.
   */
  type Hasher = string -> int32

  /** `TEST_HASH`: the hash of the one known name. */
  function TestHash(hash: Hasher): (h: int32)
    ensures h == hash("TEST")
  {
    hash("TEST")
  }

  /**
    The overflow container (`EnumParseOverflowContainer`). Its bodies are not
    part of this model; the contracts of StoreOverflow and RetrieveOverflow are
    the two behaviours the codec relies on: insert-or-overwrite, and lookup
    that gives the empty string for a missing key.
   */
  class EnumParseOverflowContainer {
    var overflow: map<int32, string>

    constructor ()
      ensures overflow == map[]
    {
      overflow := map[];
    }

    method StoreOverflow(hashCode: int32, value: string)
      modifies this
      ensures overflow == old(overflow)[hashCode := value]
    {
      overflow := overflow[hashCode := value];
    }

    function RetrieveOverflow(hashCode: int32): (s: string)
      reads this
      ensures hashCode in overflow ==> s == overflow[hashCode]
      ensures hashCode !in overflow ==> s == ""
    {
      if hashCode in overflow then overflow[hashCode] else ""
    }
  }

  /** What a caller can observe of the optional process-wide container. */
  function TableOf(container: EnumParseOverflowContainer?): Option<map<int32, string>>
    reads container
  {
    if container == null then None else Some(container.overflow)
  }

  /** A decoded enum value together with the container's state after decoding. */
  datatype Decoded = Decoded(value: ArtifactType, table: Option<map<int32, string>>)

  /** Specification of GetArtifactTypeForName, on the container's state as a value. */
  function Decode(hash: Hasher, table: Option<map<int32, string>>, name: string): Decoded {
    var hashCode := hash(name);
    if hashCode == TestHash(hash) then
      Decoded(TEST, table)
    else
      match table
      case Some(t) => Decoded(hashCode, Some(t[hashCode := name]))
      case None => Decoded(NOT_SET, None)
  }

  /** Specification of GetNameForArtifactType, on the container's state as a value. */
  function Encode(table: Option<map<int32, string>>, value: ArtifactType): string {
    if value == TEST then
      "TEST"
    else
      match table
      case Some(t) => if value in t then t[value] else ""
      case None => ""
  }

  /** The container's state after decoding each of `names` in turn. */
  function DecodeAll(hash: Hasher, table: Option<map<int32, string>>, names: seq<string>): Option<map<int32, string>>
    decreases |names|
  {
    if names == [] then table else DecodeAll(hash, Decode(hash, table, names[0]).table, names[1..])
  }

  /** `GetArtifactTypeForName`: may store the name in the container when one is present. */
  method GetArtifactTypeForName(hash: Hasher, container: EnumParseOverflowContainer?, name: string)
    returns (t: ArtifactType)
    modifies container
    ensures Decoded(t, TableOf(container)) == Decode(hash, old(TableOf(container)), name)
  {
    var hashCode := hash(name);
    if hashCode == TestHash(hash) {
      return TEST;
    }
    if container != null {
      container.StoreOverflow(hashCode, name);
      return hashCode;
    }
    return NOT_SET;
  }

  /** `GetNameForArtifactType`: reads the container and never changes it. */
  function GetNameForArtifactType(container: EnumParseOverflowContainer?, value: ArtifactType): (s: string)
    reads container
    ensures s == Encode(TableOf(container), value)
  {
    if value == TEST then
      "TEST"
    else if container != null then
      container.RetrieveOverflow(value)
    else
      ""
  }

  // ---------------------------------------------------------------------
  // Decoding

  /** A name whose hash is TEST_HASH decodes to TEST and leaves the container alone. */
  lemma DecodeKnownHash(hash: Hasher, table: Option<map<int32, string>>, name: string)
    requires hash(name) == TestHash(hash)
    ensures Decode(hash, table, name) == Decoded(TEST, table)
  {
  }

  /** "TEST" decodes to TEST, whatever the container holds. */
  lemma DecodeTest(hash: Hasher, table: Option<map<int32, string>>)
    ensures Decode(hash, table, "TEST") == Decoded(TEST, table)
  {
  }

  /**
    Any other name, with a container present, is stored under its hash and its
    hash is the result; every other entry of the container is kept.
   */
  lemma DecodeUnknownStores(hash: Hasher, t: map<int32, string>, name: string)
    requires hash(name) != TestHash(hash)
    ensures var d := Decode(hash, Some(t), name);
      && d.value == hash(name)
      && d.table.Some?
      && d.table.value.Keys == t.Keys + {hash(name)}
      && d.table.value[hash(name)] == name
      && forall k :: k in t && k != hash(name) ==> d.table.value[k] == t[k]
  {
  }

  /** Without a container, an unknown name decodes to NOT_SET. */
  lemma DecodeUnknownWithoutContainer(hash: Hasher, name: string)
    requires hash(name) != TestHash(hash)
    ensures Decode(hash, None, name) == Decoded(NOT_SET, None)
  {
  }

  /** Decoding never removes the container or an entry of it. */
  lemma {:induction false} DecodeAllKeepsEntries(hash: Hasher, table: Option<map<int32, string>>, names: seq<string>)
    ensures DecodeAll(hash, table, names).Some? <==> table.Some?
    ensures table.Some? ==> table.value.Keys <= DecodeAll(hash, table, names).value.Keys
    decreases |names|
  {
    if names != [] {
      DecodeAllKeepsEntries(hash, Decode(hash, table, names[0]).table, names[1..]);
    }
  }

  // ---------------------------------------------------------------------
  // Encoding

  /** TEST encodes to exactly "TEST", whatever the container holds. */
  lemma EncodeTest(table: Option<map<int32, string>>)
    ensures Encode(table, TEST) == "TEST"
  {
  }

  /** Any other value, with a container present, is looked up by its integer. */
  lemma EncodeLooksUp(t: map<int32, string>, value: ArtifactType)
    requires value != TEST
    ensures value in t ==> Encode(Some(t), value) == t[value]
    ensures value !in t ==> Encode(Some(t), value) == ""
  {
  }

  /** Without a container, every value but TEST encodes to "" (NOT_SET among them). */
  lemma EncodeWithoutContainer(value: ArtifactType)
    requires value != TEST
    ensures Encode(None, value) == ""
  {
  }

  // ---------------------------------------------------------------------
  // Round trips

  /** The known symbol round-trips both ways. */
  lemma KnownRoundTrip(hash: Hasher, table: Option<map<int32, string>>)
    ensures var d := Decode(hash, table, "TEST"); Encode(d.table, d.value) == "TEST"
  {
  }

  /**
    An unknown name round-trips while a container is present, provided its hash
    is neither TEST_HASH nor the integer of TEST.
   */
  lemma UnknownRoundTrip(hash: Hasher, t: map<int32, string>, u: string)
    requires hash(u) != TestHash(hash) && hash(u) != TEST
    ensures var d := Decode(hash, Some(t), u); Encode(d.table, d.value) == u
  {
  }

  /**
    The round trip survives any later decodes, as long as none of them stores a
    different name under the same hash.
   */
  lemma {:induction false} UnknownRoundTripAfter(hash: Hasher, table: Option<map<int32, string>>, u: string, later: seq<string>)
    requires table.Some? && hash(u) != TestHash(hash) && hash(u) != TEST
    requires hash(u) in table.value && table.value[hash(u)] == u
    requires forall i :: 0 <= i < |later| && hash(later[i]) == hash(u) ==> later[i] == u
    ensures Encode(DecodeAll(hash, table, later), hash(u)) == u
    decreases |later|
  {
    if later != [] {
      var next := Decode(hash, table, later[0]).table;
      assert next.Some? && hash(u) in next.value && next.value[hash(u)] == u;
      UnknownRoundTripAfter(hash, next, u, later[1..]);
    }
  }

  /** Decoding u, then any names that do not collide with it, still encodes back to u. */
  lemma UnknownRoundTripThrough(hash: Hasher, t: map<int32, string>, u: string, later: seq<string>)
    requires hash(u) != TestHash(hash) && hash(u) != TEST
    requires forall i :: 0 <= i < |later| && hash(later[i]) == hash(u) ==> later[i] == u
    ensures var d := Decode(hash, Some(t), u); Encode(DecodeAll(hash, d.table, later), d.value) == u
  {
    var d := Decode(hash, Some(t), u);
    UnknownRoundTripAfter(hash, d.table, u, later);
  }

  /**
    The collisions the design accepts: a name whose hash is the integer of TEST
    encodes back as "TEST", and of two names with one hash the later wins.
   */
  lemma CollisionWithTestValue(hash: Hasher, t: map<int32, string>, u: string)
    requires hash(u) != TestHash(hash) && hash(u) == TEST && u != "TEST"
    ensures var d := Decode(hash, Some(t), u); d.value == TEST && Encode(d.table, d.value) != u
  {
  }

  lemma CollisionBetweenUnknowns(hash: Hasher, t: map<int32, string>, u: string, w: string)
    requires hash(u) == hash(w) && hash(u) != TestHash(hash) && hash(u) != TEST && u != w
    ensures var d := Decode(hash, Some(t), u);
      Encode(DecodeAll(hash, d.table, [w]), d.value) == w != u
  {
  }
}
