/** From a desired record to the renderer's input: the payload to render, and which schema name and version win. */
module RendererAdapter {
  import opened Text
  import opened ConfigureProtocol

  /******* Data *******/

  // What JSON decoding makes of a raw message: an object with its members still raw, or a string. A null object
  // decodes as the empty map, and a null string as "".
  datatype Codec = Codec(asObject: string -> Option<map<string, string>>, asText: string -> Option<string>)

  // What the renderer says it supports.
  datatype Info = Info(schemaName: string, versions: seq<string>)

  datatype Input = Input(target: string, uuid: string, schemaName: string, schemaVersion: string, payload: string)

  datatype Backend = Backend(render: Input -> Option<Output>)

  function FirstSupportedVersion(info: Info): (version: string)
    ensures info.versions != [] ==> version == info.versions[0]
    ensures info.versions == [] ==> version == ""
  {
    if info.versions == [] then "" else info.versions[0]
  }

  // A member that decodes as a string.
  function StringField(codec: Codec, obj: map<string, string>, key: string): (field: Option<string>)
    ensures forall text :: field == Some(text) <==> key in obj && codec.asText(obj[key]) == Some(text)
  {
    if key in obj then codec.asText(obj[key]) else None
  }

  // A member that decodes as an object, and nothing in place of any other.
  function Nested(codec: Codec, obj: map<string, string>, key: string): (nested: map<string, string>)
    ensures forall inner :: key in obj && codec.asObject(obj[key]) == Some(inner) ==> nested == inner
    ensures key !in obj || codec.asObject(obj[key]).None? ==> nested == map[]
  {
    if key in obj && codec.asObject(obj[key]).Some? then codec.asObject(obj[key]).value else map[]
  }

  /******* Precedence *******/

  function FirstPresent(candidates: seq<Option<string>>, default: string): string {
    if candidates == [] then default
    else if candidates[0].Some? then candidates[0].value
    else FirstPresent(candidates[1..], default)
  }

  lemma {:induction false} FirstPresentIsFirst(candidates: seq<Option<string>>, default: string, k: nat)
    requires k <= |candidates| && forall i | 0 <= i < k :: candidates[i].None?
    ensures k == |candidates| ==> FirstPresent(candidates, default) == default
    ensures k < |candidates| && candidates[k].Some? ==> FirstPresent(candidates, default) == candidates[k].value
  {
    if 0 < k {
      FirstPresentIsFirst(candidates[1..], default, k - 1);
    }
  }

  lemma {:induction false} FirstPresentOfBoth(above: seq<Option<string>>, below: seq<Option<string>>, default: string)
    ensures FirstPresent(above + below, default) == FirstPresent(above, FirstPresent(below, default))
  {
    if above == [] {
      assert above + below == below;
    } else {
      FirstPresentOfBoth(above[1..], below, default);
      assert (above + below)[1..] == above[1..] + below;
    }
  }

  lemma TwoPlaces(above: Option<string>, below: Option<string>, default: string)
    ensures FirstPresent([above, below], default) ==
      if above.Some? then above.value else if below.Some? then below.value else default
  {
    FirstPresentIsFirst([above, below], default, if above.Some? then 0 else if below.Some? then 1 else 2);
  }

  // Where one object can name its schema, the stronger place first.
  function Names(codec: Codec, obj: map<string, string>): seq<Option<string>> {
    [StringField(codec, Nested(codec, obj, "schema"), "name"), StringField(codec, obj, "schema_name")]
  }

  function Versions(codec: Codec, obj: map<string, string>): seq<Option<string>> {
    [StringField(codec, Nested(codec, obj, "schema"), "version"), StringField(codec, obj, "schema_version")]
  }

  class Cell {
    var value: string

    constructor (value: string)
      ensures this.value == value
    {
      this.value := value;
    }
  }

  // Writes through two pointers, weaker places first, so that what is written last wins.
  method MergeMetadata(codec: Codec, obj: map<string, string>, schemaName: Cell, schemaVersion: Cell)
    requires schemaName != schemaVersion
    modifies schemaName, schemaVersion
    ensures schemaName.value == FirstPresent(Names(codec, obj), old(schemaName.value))
    ensures schemaVersion.value == FirstPresent(Versions(codec, obj), old(schemaVersion.value))
  {
    ghost var schemaFields := Nested(codec, obj, "schema");
    TwoPlaces(StringField(codec, schemaFields, "name"), StringField(codec, obj, "schema_name"), schemaName.value);
    TwoPlaces(StringField(codec, schemaFields, "version"), StringField(codec, obj, "schema_version"), schemaVersion.value);
    var field := StringField(codec, obj, "schema_name");
    if field.Some? {
      schemaName.value := field.value;
    }
    field := StringField(codec, obj, "schema_version");
    if field.Some? {
      schemaVersion.value := field.value;
    }
    if "schema" !in obj {
      return;
    }
    var schema := codec.asObject(obj["schema"]);
    if schema.None? {
      return;
    }
    field := StringField(codec, schema.value, "name");
    if field.Some? {
      schemaName.value := field.value;
    }
    field := StringField(codec, schema.value, "version");
    if field.Some? {
      schemaVersion.value := field.value;
    }
  }

  /******* Payload *******/

  ghost function Contents(buffer: array?<char>): string
    reads buffer
  {
    if buffer == null then "" else buffer[..]
  }

  // Copying nothing, whether nil or empty, gives nil.
  method CloneRaw(raw: string) returns (copy: array?<char>)
    ensures Contents(copy) == raw && (copy == null <==> raw == "")
    ensures copy != null ==> fresh(copy)
  {
    if raw == "" {
      return null;
    }
    copy := new char[|raw|](i requires 0 <= i < |raw| => raw[i]);
  }

  // A payload that wraps its configuration is unwrapped.
  function PayloadOf(root: map<string, string>, raw: string): string {
    if "config" in root then root["config"] else raw
  }

  // The payload of an object without its wrapper: the raw text of its config member, whatever that holds, and the whole
  // text when it has none.
  predicate Unwrapped(codec: Codec, raw: string, payload: string) {
    && codec.asObject(raw).Some?
    && var root := codec.asObject(raw).value;
    && ("config" in root ==> payload == root["config"])
    && ("config" !in root ==> payload == raw)
  }

  // Inner schema field, inner flat field, root schema field, root flat field, and else what is supported.
  function SchemaName(codec: Codec, info: Info, root: map<string, string>): string {
    FirstPresent(Names(codec, Nested(codec, root, "config")) + Names(codec, root), info.schemaName)
  }

  function SchemaVersion(codec: Codec, info: Info, root: map<string, string>): string {
    FirstPresent(Versions(codec, Nested(codec, root, "config")) + Versions(codec, root), FirstSupportedVersion(info))
  }

  method PayloadAndMetadata(codec: Codec, info: Info, raw: string)
    returns (ok: bool, payload: array?<char>, name: string, version: string)
    ensures ok == codec.asObject(raw).Some?
    ensures payload != null ==> fresh(payload)
    ensures ok ==>
      var root := codec.asObject(raw).value;
      && Unwrapped(codec, raw, Contents(payload))
      && name == SchemaName(codec, info, root)
      && version == SchemaVersion(codec, info, root)
  {
    var schemaName := new Cell(info.schemaName);
    var schemaVersion := new Cell(FirstSupportedVersion(info));
    payload := CloneRaw(raw);
    var decoded := codec.asObject(raw);
    if decoded.None? {
      return false, null, "", "";
    }
    var root := decoded.value;
    FirstPresentOfBoth(Names(codec, Nested(codec, root, "config")), Names(codec, root), info.schemaName);
    FirstPresentOfBoth(Versions(codec, Nested(codec, root, "config")), Versions(codec, root), FirstSupportedVersion(info));
    MergeMetadata(codec, root, schemaName, schemaVersion);
    if "config" in root {
      payload := CloneRaw(root["config"]);
      var configRoot := codec.asObject(root["config"]);
      if configRoot.Some? {
        MergeMetadata(codec, configRoot.value, schemaName, schemaVersion);
      } else {
        NothingPresent(codec, schemaName.value, schemaVersion.value);
      }
    } else {
      NothingPresent(codec, schemaName.value, schemaVersion.value);
    }
    return true, payload, schemaName.value, schemaVersion.value;
  }

  lemma NothingPresent(codec: Codec, name: string, version: string)
    ensures FirstPresent(Names(codec, map[]), name) == name
    ensures FirstPresent(Versions(codec, map[]), version) == version
  {
    assert Nested(codec, map[], "schema") == map[];
    TwoPlaces(None, None, name);
    TwoPlaces(None, None, version);
  }

  // The four places that can name the schema, the strongest first.
  function NamePlaces(codec: Codec, root: map<string, string>): seq<Option<string>> {
    var inner := Nested(codec, root, "config");
    var innerSchema, rootSchema := Nested(codec, inner, "schema"), Nested(codec, root, "schema");
    [StringField(codec, innerSchema, "name"), StringField(codec, inner, "schema_name"),
     StringField(codec, rootSchema, "name"), StringField(codec, root, "schema_name")]
  }

  // And its version.
  function VersionPlaces(codec: Codec, root: map<string, string>): seq<Option<string>> {
    var inner := Nested(codec, root, "config");
    var innerSchema, rootSchema := Nested(codec, inner, "schema"), Nested(codec, root, "schema");
    [StringField(codec, innerSchema, "version"), StringField(codec, inner, "schema_version"),
     StringField(codec, rootSchema, "version"), StringField(codec, root, "schema_version")]
  }

  // For every payload, the first of its four places that holds a string decides, and what is supported if none does;
  // the name and the version may come from different places.
  lemma FirstPlaceDecides(codec: Codec, info: Info, root: map<string, string>, k: nat)
    requires k <= 4
    ensures (forall i | 0 <= i < k :: NamePlaces(codec, root)[i].None?) ==>
              && (k == 4 ==> SchemaName(codec, info, root) == info.schemaName)
              && (k < 4 && NamePlaces(codec, root)[k].Some? ==>
                    SchemaName(codec, info, root) == NamePlaces(codec, root)[k].value)
    ensures (forall i | 0 <= i < k :: VersionPlaces(codec, root)[i].None?) ==>
              && (k == 4 ==> SchemaVersion(codec, info, root) == if info.versions == [] then "" else info.versions[0])
              && (k < 4 && VersionPlaces(codec, root)[k].Some? ==>
                    SchemaVersion(codec, info, root) == VersionPlaces(codec, root)[k].value)
  {
    var inner := Nested(codec, root, "config");
    assert NamePlaces(codec, root) == Names(codec, inner) + Names(codec, root);
    assert VersionPlaces(codec, root) == Versions(codec, inner) + Versions(codec, root);
    if forall i | 0 <= i < k :: NamePlaces(codec, root)[i].None? {
      FirstPresentIsFirst(NamePlaces(codec, root), info.schemaName, k);
    }
    if forall i | 0 <= i < k :: VersionPlaces(codec, root)[i].None? {
      FirstPresentIsFirst(VersionPlaces(codec, root), FirstSupportedVersion(info), k);
    }
  }

  /******* Rendering *******/

  ghost function InputOf(codec: Codec, info: Info, desired: Record): (input: Option<Input>)
    ensures input.None? <==> codec.asObject(desired.payload).None?
    ensures input.Some? ==>
      && input.value.target == desired.target && input.value.uuid == desired.uuid
      && Unwrapped(codec, desired.payload, input.value.payload)
  {
    match codec.asObject(desired.payload)
    case None => None
    case Some(root) =>
      Some(Input(desired.target, desired.uuid, SchemaName(codec, info, root), SchemaVersion(codec, info, root),
                 PayloadOf(root, desired.payload)))
  }

  method BuildInput(codec: Codec, info: Info, desired: Record) returns (input: Option<Input>)
    ensures input == InputOf(codec, info, desired)
    ensures input.None? <==> codec.asObject(desired.payload).None?
    ensures input.Some? ==>
      && input.value.target == desired.target && input.value.uuid == desired.uuid
      && Unwrapped(codec, desired.payload, input.value.payload)
  {
    var ok, payload, name, version := PayloadAndMetadata(codec, info, desired.payload);
    if !ok {
      return None;
    }
    var text := if payload == null then "" else payload[..];
    return Some(Input(desired.target, desired.uuid, name, version, text));
  }

  // None stands for an error.
  ghost function RenderingOf(codec: Codec, info: Info, backend: Backend, desired: Record): Option<Output> {
    var input := InputOf(codec, info, desired);
    if input.None? then None else backend.render(input.value)
  }

  method Render(codec: Codec, info: Info, backend: Backend, desired: Record) returns (output: Option<Output>)
    ensures output == RenderingOf(codec, info, backend, desired)
    ensures output.Some? ==> exists input ::
      && backend.render(input) == output && input.target == desired.target && input.uuid == desired.uuid
      && Unwrapped(codec, desired.payload, input.payload)
  {
    var input := BuildInput(codec, info, desired);
    if input.None? {
      return None;
    }
    output := backend.render(input.value);
  }
}
