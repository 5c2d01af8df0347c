/**
  Pinpoint's `SMSTemplateResponse`: seven members, each with a "has been set"
  flag. Parsing from JSON copies each key that is present and raises its flag;
  serialising emits a key exactly when its flag is raised.
 */
module SMSTemplateResponseModel {
  import opened Common

  /** A JSON value as the generated code reads it: a string or an object. */
  datatype JsonVal = JString(s: string) | JObject(fields: map<string, JsonVal>)

  /** A JSON object: its members by key (member order is not modelled). */
  type JsonObject = map<string, JsonVal>

  /** `GetString` / `AsString`: a value that is not a string reads as "". */
  function AsString(v: JsonVal): string {
    if v.JString? then v.s else ""
  }

  /** `GetObject(..).GetAllObjects()`: a value that is not an object has no members. */
  function AllObjects(v: JsonVal): JsonObject {
    if v.JObject? then v.fields else map[]
  }

  /**
    The `TemplateType` enum is an `int`. Its mapper is not part of this model:
    parsing and serialising take the name-to-value and value-to-name functions
    as parameters.
   */
  type TemplateType = int32

  const TEMPLATE_TYPE_NOT_SET: TemplateType := 0

  /** The value of an `SMSTemplateResponse` object: every member and every flag. */
  datatype TemplateFields = TemplateFields(
    arn: Tracked<string>,
    body: Tracked<string>,
    creationDate: Tracked<string>,
    lastModifiedDate: Tracked<string>,
    tags: Tracked<map<string, string>>,
    templateName: Tracked<string>,
    templateType: Tracked<TemplateType>)

  /** The seven members, to state per-member properties once. */
  datatype Member =
    | ArnMember | BodyMember | CreationDateMember | LastModifiedDateMember
    | TagsMember | TemplateNameMember | TemplateTypeMember
  {
    /** The JSON key the member is read from and written to. */
    function Key(): string {
      match this
      case ArnMember => "Arn"
      case BodyMember => "Body"
      case CreationDateMember => "CreationDate"
      case LastModifiedDateMember => "LastModifiedDate"
      case TagsMember => "tags"
      case TemplateNameMember => "TemplateName"
      case TemplateTypeMember => "TemplateType"
    }

    predicate IsString() {
      !TagsMember? && !TemplateTypeMember?
    }
  }

  function HasBeenSet(x: TemplateFields, m: Member): bool {
    match m
    case ArnMember => x.arn.hasBeenSet
    case BodyMember => x.body.hasBeenSet
    case CreationDateMember => x.creationDate.hasBeenSet
    case LastModifiedDateMember => x.lastModifiedDate.hasBeenSet
    case TagsMember => x.tags.hasBeenSet
    case TemplateNameMember => x.templateName.hasBeenSet
    case TemplateTypeMember => x.templateType.hasBeenSet
  }

  function StringOf(x: TemplateFields, m: Member): Tracked<string>
    requires m.IsString()
  {
    match m
    case ArnMember => x.arn
    case BodyMember => x.body
    case CreationDateMember => x.creationDate
    case LastModifiedDateMember => x.lastModifiedDate
    case TemplateNameMember => x.templateName
  }

  predicate NoFlagSet(x: TemplateFields) {
    forall m: Member :: !HasBeenSet(x, m)
  }

  /** The state both constructors start from. */
  function Initial(): (x: TemplateFields)
    ensures NoFlagSet(x) && x.templateType.value == TEMPLATE_TYPE_NOT_SET
  {
    TemplateFields(Tracked("", false), Tracked("", false), Tracked("", false), Tracked("", false),
                   Tracked(map[], false), Tracked("", false), Tracked(TEMPLATE_TYPE_NOT_SET, false))
  }

  /** Tags after parsing: each JSON entry overwrites its key, other entries stay. */
  function MergedTags(tags: map<string, string>, entries: JsonObject): map<string, string> {
    tags + map k | k in entries :: AsString(entries[k])
  }

  /** The JSON object the tags are written as. */
  function TagsObject(tags: map<string, string>): JsonObject {
    map k | k in tags :: JString(tags[k])
  }

  /** One `if (jsonValue.ValueExists(key))` block of `operator=` for a string member. */
  function ReadString(t: Tracked<string>, json: JsonObject, key: string): Tracked<string> {
    if key in json then Tracked(AsString(json[key]), true) else t
  }

  function ReadTags(t: Tracked<map<string, string>>, json: JsonObject): Tracked<map<string, string>> {
    if "tags" in json then Tracked(MergedTags(t.value, AllObjects(json["tags"])), true) else t
  }

  function ReadTemplateType(typeForName: string -> TemplateType, t: Tracked<TemplateType>, json: JsonObject): Tracked<TemplateType> {
    if "TemplateType" in json then Tracked(typeForName(AsString(json["TemplateType"])), true) else t
  }

  /** Specification of `operator=(JsonView)`: the object's value after parsing `json`. */
  function Assigned(typeForName: string -> TemplateType, x: TemplateFields, json: JsonObject): TemplateFields {
    TemplateFields(
      ReadString(x.arn, json, "Arn"),
      ReadString(x.body, json, "Body"),
      ReadString(x.creationDate, json, "CreationDate"),
      ReadString(x.lastModifiedDate, json, "LastModifiedDate"),
      ReadTags(x.tags, json),
      ReadString(x.templateName, json, "TemplateName"),
      ReadTemplateType(typeForName, x.templateType, json))
  }

  /** One `if (m_xHasBeenSet) payload.WithString(key, m_x)` block of `Jsonize`. */
  function WriteString(p: JsonObject, t: Tracked<string>, key: string): JsonObject {
    if t.hasBeenSet then p[key := JString(t.value)] else p
  }

  /** Specification of `Jsonize`: the payload built from the raised flags. */
  function Serialized(nameForType: TemplateType -> string, x: TemplateFields): JsonObject {
    var p4 := WriteString(WriteString(WriteString(WriteString(map[], x.arn, "Arn"), x.body, "Body"),
                                      x.creationDate, "CreationDate"), x.lastModifiedDate, "LastModifiedDate");
    var p5 := if x.tags.hasBeenSet then p4["tags" := JObject(TagsObject(x.tags.value))] else p4;
    var p6 := WriteString(p5, x.templateName, "TemplateName");
    if x.templateType.hasBeenSet then p6["TemplateType" := JString(nameForType(x.templateType.value))] else p6
  }

  /** The loop of `operator=` that copies each JSON tag entry into the tags map. */
  method MergeTagEntries(tags: map<string, string>, entries: JsonObject) returns (merged: map<string, string>)
    ensures merged == MergedTags(tags, entries)
  {
    merged := tags;
    var remaining := entries.Keys;
    while remaining != {}
      invariant remaining <= entries.Keys
      invariant merged.Keys == tags.Keys + (entries.Keys - remaining)
      invariant forall k :: k in merged ==> merged[k] == if k in entries && k !in remaining then AsString(entries[k]) else tags[k]
      decreases remaining
    {
      var k :| k in remaining;
      merged := merged[k := AsString(entries[k])];
      remaining := remaining - {k};
    }
  }

  /** The loop of `Jsonize` that writes each tag as a string member of a JSON object. */
  method TagsToJson(tags: map<string, string>) returns (tagsJsonMap: JsonObject)
    ensures tagsJsonMap == TagsObject(tags)
  {
    tagsJsonMap := map[];
    var remaining := tags.Keys;
    while remaining != {}
      invariant remaining <= tags.Keys
      invariant tagsJsonMap == map k | k in tags.Keys - remaining :: JString(tags[k])
      decreases remaining
    {
      var k :| k in remaining;
      tagsJsonMap := tagsJsonMap[k := JString(tags[k])];
      remaining := remaining - {k};
    }
  }

  /** The object: fields updated in place, as in the generated class. */
  class SMSTemplateResponse {
    var arn: string
    var arnHasBeenSet: bool
    var body: string
    var bodyHasBeenSet: bool
    var creationDate: string
    var creationDateHasBeenSet: bool
    var lastModifiedDate: string
    var lastModifiedDateHasBeenSet: bool
    var tags: map<string, string>
    var tagsHasBeenSet: bool
    var templateName: string
    var templateNameHasBeenSet: bool
    var templateType: TemplateType
    var templateTypeHasBeenSet: bool

    function Value(): TemplateFields
      reads this
    {
      TemplateFields(
        Tracked(arn, arnHasBeenSet), Tracked(body, bodyHasBeenSet),
        Tracked(creationDate, creationDateHasBeenSet), Tracked(lastModifiedDate, lastModifiedDateHasBeenSet),
        Tracked(tags, tagsHasBeenSet), Tracked(templateName, templateNameHasBeenSet),
        Tracked(templateType, templateTypeHasBeenSet))
    }

    /** The default constructor: no flag raised, `templateType` is NOT_SET. */
    constructor ()
      ensures Value() == Initial()
    {
      arn, body, creationDate, lastModifiedDate, templateName := "", "", "", "", "";
      tags := map[];
      templateType := TEMPLATE_TYPE_NOT_SET;
      arnHasBeenSet, bodyHasBeenSet, creationDateHasBeenSet, lastModifiedDateHasBeenSet := false, false, false, false;
      tagsHasBeenSet, templateNameHasBeenSet, templateTypeHasBeenSet := false, false, false;
    }

    /** The JSON constructor: the default state, then `*this = jsonValue`. */
    constructor FromJson(typeForName: string -> TemplateType, json: JsonObject)
      ensures Value() == Assigned(typeForName, Initial(), json)
    {
      arn, body, creationDate, lastModifiedDate, templateName := "", "", "", "", "";
      tags := map[];
      templateType := TEMPLATE_TYPE_NOT_SET;
      arnHasBeenSet, bodyHasBeenSet, creationDateHasBeenSet, lastModifiedDateHasBeenSet := false, false, false, false;
      tagsHasBeenSet, templateNameHasBeenSet, templateTypeHasBeenSet := false, false, false;
      new;
      Assign(typeForName, json);
    }

    /**
      `operator=(JsonView)`: copies each present key and raises its flag. Each
      `if (jsonValue.ValueExists(key))` block is one of the methods below.
     */
    method Assign(typeForName: string -> TemplateType, json: JsonObject)
      modifies this
      ensures Value() == Assigned(typeForName, old(Value()), json)
    {
      AssignArn(json);
      AssignBody(json);
      AssignCreationDate(json);
      AssignLastModifiedDate(json);
      AssignTags(json);
      AssignTemplateName(json);
      AssignTemplateType(typeForName, json);
    }

    /** The "Arn" block. */
    method AssignArn(json: JsonObject)
      modifies this
      ensures Value() == old(Value()).(arn := ReadString(old(Value()).arn, json, "Arn"))
    {
      if "Arn" in json {
        arn := AsString(json["Arn"]);
        arnHasBeenSet := true;
      }
    }

    /** The "Body" block. */
    method AssignBody(json: JsonObject)
      modifies this
      ensures Value() == old(Value()).(body := ReadString(old(Value()).body, json, "Body"))
    {
      if "Body" in json {
        body := AsString(json["Body"]);
        bodyHasBeenSet := true;
      }
    }

    /** The "CreationDate" block. */
    method AssignCreationDate(json: JsonObject)
      modifies this
      ensures Value() == old(Value()).(creationDate := ReadString(old(Value()).creationDate, json, "CreationDate"))
    {
      if "CreationDate" in json {
        creationDate := AsString(json["CreationDate"]);
        creationDateHasBeenSet := true;
      }
    }

    /** The "LastModifiedDate" block. */
    method AssignLastModifiedDate(json: JsonObject)
      modifies this
      ensures Value() == old(Value()).(lastModifiedDate := ReadString(old(Value()).lastModifiedDate, json, "LastModifiedDate"))
    {
      if "LastModifiedDate" in json {
        lastModifiedDate := AsString(json["LastModifiedDate"]);
        lastModifiedDateHasBeenSet := true;
      }
    }

    /** The "TemplateName" block. */
    method AssignTemplateName(json: JsonObject)
      modifies this
      ensures Value() == old(Value()).(templateName := ReadString(old(Value()).templateName, json, "TemplateName"))
    {
      if "TemplateName" in json {
        templateName := AsString(json["TemplateName"]);
        templateNameHasBeenSet := true;
      }
    }

    /** The "tags" block: merges the JSON entries into the tags map. */
    method AssignTags(json: JsonObject)
      modifies this
      ensures Value() == old(Value()).(tags := ReadTags(old(Value()).tags, json))
    {
      if "tags" in json {
        tags := MergeTagEntries(tags, AllObjects(json["tags"]));
        tagsHasBeenSet := true;
      }
    }

    /** The "TemplateType" block: the name goes through the enum decoder. */
    method AssignTemplateType(typeForName: string -> TemplateType, json: JsonObject)
      modifies this
      ensures Value() == old(Value()).(templateType := ReadTemplateType(typeForName, old(Value()).templateType, json))
    {
      if "TemplateType" in json {
        templateType := typeForName(AsString(json["TemplateType"]));
        templateTypeHasBeenSet := true;
      }
    }

    /** `Jsonize`: the payload, with the tags written one entry at a time. */
    method Jsonize(nameForType: TemplateType -> string) returns (payload: JsonObject)
      ensures payload == Serialized(nameForType, Value())
    {
      payload := map[];
      if arnHasBeenSet {
        payload := payload["Arn" := JString(arn)];
      }
      if bodyHasBeenSet {
        payload := payload["Body" := JString(body)];
      }
      if creationDateHasBeenSet {
        payload := payload["CreationDate" := JString(creationDate)];
      }
      if lastModifiedDateHasBeenSet {
        payload := payload["LastModifiedDate" := JString(lastModifiedDate)];
      }
      if tagsHasBeenSet {
        var tagsJsonMap := TagsToJson(tags);
        payload := payload["tags" := JObject(tagsJsonMap)];
      }
      if templateNameHasBeenSet {
        payload := payload["TemplateName" := JString(templateName)];
      }
      if templateTypeHasBeenSet {
        payload := payload["TemplateType" := JString(nameForType(templateType))];
      }
    }
  }

  // ---------------------------------------------------------------------
  // Parsing

  /** A flag is raised after parsing exactly when it was raised before or its key is present. */
  lemma AssignedFlags(typeForName: string -> TemplateType, x: TemplateFields, json: JsonObject, m: Member)
    ensures HasBeenSet(Assigned(typeForName, x, json), m) == (HasBeenSet(x, m) || m.Key() in json)
  {
  }

  /** A string member is copied when its key is present and kept, with its flag, when it is absent. */
  lemma AssignedStrings(typeForName: string -> TemplateType, x: TemplateFields, json: JsonObject, m: Member)
    requires m.IsString()
    ensures m.Key() in json ==> StringOf(Assigned(typeForName, x, json), m) == Tracked(AsString(json[m.Key()]), true)
    ensures m.Key() !in json ==> StringOf(Assigned(typeForName, x, json), m) == StringOf(x, m)
  {
  }

  /** A document with none of the seven keys leaves the whole object as it was. */
  lemma AssignedNothingPresent(typeForName: string -> TemplateType, x: TemplateFields, json: JsonObject)
    requires forall m: Member :: m.Key() !in json
    ensures Assigned(typeForName, x, json) == x
  {
    assert ArnMember.Key() !in json && BodyMember.Key() !in json && CreationDateMember.Key() !in json;
    assert LastModifiedDateMember.Key() !in json && TagsMember.Key() !in json;
    assert TemplateNameMember.Key() !in json && TemplateTypeMember.Key() !in json;
  }

  /**
    "tags" merges into the existing map: JSON entries win, other entries are
    kept. Without the key, the tags and their flag are left alone.
   */
  lemma AssignedTagsMerge(typeForName: string -> TemplateType, x: TemplateFields, json: JsonObject)
    ensures "tags" !in json ==> Assigned(typeForName, x, json).tags == x.tags
    ensures "tags" in json ==>
      var entries := AllObjects(json["tags"]); var y := Assigned(typeForName, x, json).tags.value;
      && y.Keys == x.tags.value.Keys + entries.Keys
      && (forall k :: k in entries ==> y[k] == AsString(entries[k]))
      && (forall k :: k in x.tags.value && k !in entries ==> y[k] == x.tags.value[k])
  {
  }

  /** TemplateType goes through the enum decoder. */
  lemma AssignedTemplateType(typeForName: string -> TemplateType, x: TemplateFields, json: JsonObject)
    ensures "TemplateType" in json ==>
      Assigned(typeForName, x, json).templateType.value == typeForName(AsString(json["TemplateType"]))
    ensures "TemplateType" !in json ==> Assigned(typeForName, x, json).templateType == x.templateType
  {
  }

  /** Parsing the same document twice is the same as parsing it once. */
  lemma AssignedIdempotent(typeForName: string -> TemplateType, x: TemplateFields, json: JsonObject)
    ensures Assigned(typeForName, Assigned(typeForName, x, json), json) == Assigned(typeForName, x, json)
  {
    if "tags" in json {
      var entries := AllObjects(json["tags"]);
      var once := MergedTags(x.tags.value, entries);
      assert MergedTags(once, entries) == once;
    }
  }

  // ---------------------------------------------------------------------
  // Serialising

  /** The value a raised member is written as. */
  function Written(nameForType: TemplateType -> string, x: TemplateFields, m: Member): JsonVal {
    match m
    case TagsMember => JObject(TagsObject(x.tags.value))
    case TemplateTypeMember => JString(nameForType(x.templateType.value))
    case _ => JString(StringOf(x, m).value)
  }

  /** The payload holds a member's key exactly when its flag is raised. */
  lemma SerializedHas(nameForType: TemplateType -> string, x: TemplateFields, m: Member)
    ensures m.Key() in Serialized(nameForType, x) <==> HasBeenSet(x, m)
  {
    match m
    case ArnMember =>
    case BodyMember =>
    case CreationDateMember =>
    case LastModifiedDateMember =>
    case TagsMember =>
    case TemplateNameMember =>
    case TemplateTypeMember =>
  }

  /** A raised member is written under its key with its own value. */
  lemma SerializedValue(nameForType: TemplateType -> string, x: TemplateFields, m: Member)
    requires HasBeenSet(x, m)
    ensures m.Key() in Serialized(nameForType, x) && Serialized(nameForType, x)[m.Key()] == Written(nameForType, x, m)
  {
    match m
    case ArnMember =>
    case BodyMember =>
    case CreationDateMember =>
    case LastModifiedDateMember =>
    case TagsMember =>
    case TemplateNameMember =>
    case TemplateTypeMember =>
  }

  /** The payload holds no key but those of the seven members. */
  lemma SerializedOnlyMemberKeys(nameForType: TemplateType -> string, x: TemplateFields)
    ensures forall k :: k in Serialized(nameForType, x) ==> exists m: Member :: m.Key() == k
  {
    var p := Serialized(nameForType, x);
    forall k | k in p ensures exists m: Member :: m.Key() == k {
      if k == "Arn" { assert ArnMember.Key() == k; }
      else if k == "Body" { assert BodyMember.Key() == k; }
      else if k == "CreationDate" { assert CreationDateMember.Key() == k; }
      else if k == "LastModifiedDate" { assert LastModifiedDateMember.Key() == k; }
      else if k == "tags" { assert TagsMember.Key() == k; }
      else if k == "TemplateName" { assert TemplateNameMember.Key() == k; }
      else { assert TemplateTypeMember.Key() == k; }
    }
  }

  /** An object with no flag raised serialises to the empty object, and only such an object. */
  lemma SerializedEmpty(nameForType: TemplateType -> string, x: TemplateFields)
    ensures Serialized(nameForType, x) == map[] <==> NoFlagSet(x)
  {
    SerializedOnlyMemberKeys(nameForType, x);
    forall m: Member { SerializedHas(nameForType, x, m); }
  }

  /** The "tags" object has exactly the entries of the tags map. */
  lemma SerializedTags(nameForType: TemplateType -> string, x: TemplateFields)
    requires x.tags.hasBeenSet
    ensures "tags" in Serialized(nameForType, x)
    ensures var v := Serialized(nameForType, x)["tags"];
      && v.JObject?
      && v.fields.Keys == x.tags.value.Keys
      && forall k :: k in x.tags.value ==> v.fields[k] == JString(x.tags.value[k])
  {
    SerializedValue(nameForType, x, TagsMember);
  }

  // ---------------------------------------------------------------------
  // Round trip

  /** A member's flag survives serialising and parsing into a fresh object. */
  lemma RoundTripFlag(typeForName: string -> TemplateType, nameForType: TemplateType -> string, x: TemplateFields, m: Member)
    ensures HasBeenSet(Assigned(typeForName, Initial(), Serialized(nameForType, x)), m) == HasBeenSet(x, m)
  {
    SerializedHas(nameForType, x, m);
    AssignedFlags(typeForName, Initial(), Serialized(nameForType, x), m);
  }

  /** A raised string member survives serialising and parsing into a fresh object. */
  lemma RoundTripString(typeForName: string -> TemplateType, nameForType: TemplateType -> string, x: TemplateFields, m: Member)
    requires m.IsString() && HasBeenSet(x, m)
    ensures StringOf(Assigned(typeForName, Initial(), Serialized(nameForType, x)), m) == StringOf(x, m)
  {
    SerializedValue(nameForType, x, m);
    AssignedStrings(typeForName, Initial(), Serialized(nameForType, x), m);
  }

  /**
    Constructing from `Jsonize(x)` reproduces every flag of `x`, every raised
    string member, the tags when raised, and the template type up to the enum
    codec's own round trip.
   */
  lemma RoundTrip(typeForName: string -> TemplateType, nameForType: TemplateType -> string, x: TemplateFields)
    ensures var y := Assigned(typeForName, Initial(), Serialized(nameForType, x));
      && (forall m: Member :: HasBeenSet(y, m) == HasBeenSet(x, m))
      && (forall m: Member :: m.IsString() && HasBeenSet(x, m) ==> StringOf(y, m) == StringOf(x, m))
      && (x.tags.hasBeenSet ==> y.tags == x.tags)
      && (x.templateType.hasBeenSet ==> y.templateType.value == typeForName(nameForType(x.templateType.value)))
  {
    forall m: Member {
      RoundTripFlag(typeForName, nameForType, x, m);
    }
    forall m: Member | m.IsString() && HasBeenSet(x, m) {
      RoundTripString(typeForName, nameForType, x, m);
    }
    if x.tags.hasBeenSet {
      SerializedValue(nameForType, x, TagsMember);
      assert MergedTags(map[], TagsObject(x.tags.value)) == x.tags.value;
    }
    if x.templateType.hasBeenSet {
      SerializedValue(nameForType, x, TemplateTypeMember);
    }
  }

  /** Every member that is not raised holds the value the constructors give it. */
  predicate UnsetAreDefaults(x: TemplateFields) {
    var d := Initial();
    && (!x.arn.hasBeenSet ==> x.arn == d.arn)
    && (!x.body.hasBeenSet ==> x.body == d.body)
    && (!x.creationDate.hasBeenSet ==> x.creationDate == d.creationDate)
    && (!x.lastModifiedDate.hasBeenSet ==> x.lastModifiedDate == d.lastModifiedDate)
    && (!x.tags.hasBeenSet ==> x.tags == d.tags)
    && (!x.templateName.hasBeenSet ==> x.templateName == d.templateName)
    && (!x.templateType.hasBeenSet ==> x.templateType == d.templateType)
  }

  /** Parsing into a fresh object leaves every member whose key is absent at its default. */
  lemma AssignedFreshDefaults(typeForName: string -> TemplateType, json: JsonObject)
    ensures UnsetAreDefaults(Assigned(typeForName, Initial(), json))
  {
  }

  /** Two values with the same flags, the same raised members and defaults elsewhere are equal. */
  lemma SameRaisedSame(x: TemplateFields, y: TemplateFields)
    requires UnsetAreDefaults(x) && UnsetAreDefaults(y)
    requires forall m: Member :: HasBeenSet(y, m) == HasBeenSet(x, m)
    requires forall m: Member :: m.IsString() && HasBeenSet(x, m) ==> StringOf(y, m) == StringOf(x, m)
    requires x.tags.hasBeenSet ==> y.tags == x.tags
    requires x.templateType.hasBeenSet ==> y.templateType.value == x.templateType.value
    ensures x == y
  {
    assert StringOf(y, ArnMember) == StringOf(x, ArnMember) by {
      assert HasBeenSet(y, ArnMember) == HasBeenSet(x, ArnMember);
    }
    assert StringOf(y, BodyMember) == StringOf(x, BodyMember) by {
      assert HasBeenSet(y, BodyMember) == HasBeenSet(x, BodyMember);
    }
    assert StringOf(y, CreationDateMember) == StringOf(x, CreationDateMember) by {
      assert HasBeenSet(y, CreationDateMember) == HasBeenSet(x, CreationDateMember);
    }
    assert StringOf(y, LastModifiedDateMember) == StringOf(x, LastModifiedDateMember) by {
      assert HasBeenSet(y, LastModifiedDateMember) == HasBeenSet(x, LastModifiedDateMember);
    }
    assert StringOf(y, TemplateNameMember) == StringOf(x, TemplateNameMember) by {
      assert HasBeenSet(y, TemplateNameMember) == HasBeenSet(x, TemplateNameMember);
    }
    assert y.tags == x.tags by {
      assert HasBeenSet(y, TagsMember) == HasBeenSet(x, TagsMember);
    }
    assert y.templateType == x.templateType by {
      assert HasBeenSet(y, TemplateTypeMember) == HasBeenSet(x, TemplateTypeMember);
    }
  }

  /**
    When the unset members hold their defaults and the enum codec round-trips
    the template type, constructing from `Jsonize(x)` gives back `x` itself.
   */
  lemma RoundTripExact(typeForName: string -> TemplateType, nameForType: TemplateType -> string, x: TemplateFields)
    requires UnsetAreDefaults(x)
    requires x.templateType.hasBeenSet ==> typeForName(nameForType(x.templateType.value)) == x.templateType.value
    ensures Assigned(typeForName, Initial(), Serialized(nameForType, x)) == x
  {
    var json := Serialized(nameForType, x);
    RoundTrip(typeForName, nameForType, x);
    AssignedFreshDefaults(typeForName, json);
    SameRaisedSame(x, Assigned(typeForName, Initial(), json));
  }
}
