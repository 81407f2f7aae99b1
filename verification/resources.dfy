/** The resource model layer (lib/timetree/models/base_model.rb and the
    per-type classes under lib/timetree/models/): decoding a JSON:API
    resource object (the "Resource Objects" and "Compound Documents"
    sections of JSON:API 1.0) into one of five record variants.

    A Ruby model is an object whose instance variables are set by
    reflection. Here a model is a `Model` value: the variant `kind`, the
    `id`, the bound client, the instance variables in `slots`, and the raw
    relationship references in `relationships` (`None` when `@relationships`
    was never assigned). Which instance variables a variant has, which of
    them hold times, and which relationships it records are the explicit
    field tables `Setters`, `TimeFields` and `RelationshipKeys`.
 */
module Resources {
  import opened JsonData
  import opened Outcomes

  datatype Kind = User | Label | Calendar | Event | Activity

  /** Which client object a model holds in `@client`. */
  datatype ClientKind = UserTokenClient | CalendarAppClient

  /** The value of one instance variable. */
  datatype Slot =
    /** an attribute value stored as the server sent it */
    | Raw(json: Json)
    /** a time attribute, parsed to whole seconds since the epoch */
    | At(seconds: int)
    /** a relationship resolved to one included resource */
    | One(model: Model)
    /** a relationship resolved to a list of included resources */
    | Many(models: seq<Model>)

  datatype Model = Model(
    kind: Kind,
    id: Json,
    client: Option<ClientKind>,
    slots: map<string, Slot>,
    relationships: Option<map<string, Json>>)

  /** `Time.parse` and `Time#iso8601`, which this model does not implement:
      instants are whole seconds. */
  datatype TimeCodec = TimeCodec(parse: string -> Option<int>, format: int -> string)

  /** Formatting an instant and parsing the text back gives the same instant. */
  ghost predicate Coherent(codec: TimeCodec) {
    forall t: int :: codec.parse(codec.format(t)) == Some(t)
  }

  /** The `type` tag of each variant. */
  function Tag(k: Kind): string {
    match k
    case User => "user"
    case Label => "label"
    case Calendar => "calendar"
    case Event => "event"
    case Activity => "activity"
  }

  /** The dispatch of `to_model`: five tags are known and every other value
      is not. There is no arm for "application". */
  function KindOf(tag: Json): (k: Option<Kind>)
    ensures k.Some? <==> tag.JStr? && tag.s in {"user", "label", "calendar", "event", "activity"}
    ensures k.Some? ==> tag == JStr(Tag(k.value))
  {
    match tag
    case JStr(s) =>
      if s == "user" then Some(User)
      else if s == "label" then Some(Label)
      else if s == "calendar" then Some(Calendar)
      else if s == "event" then Some(Event)
      else if s == "activity" then Some(Activity)
      else None
    case _ => None
  }

  /** The attribute keys a variant has a setter for (its `attr_accessor`s). */
  function Setters(k: Kind): set<string> {
    match k
    case User => {"name", "description", "image_url"}
    case Label => {"name", "color"}
    case Calendar => {"name", "description", "color", "order", "image_url", "created_at"}
    case Event =>
      {"category", "title", "all_day", "start_at", "start_timezone", "end_at", "end_timezone",
       "recurrence", "recurring_uuid", "description", "location", "url", "updated_at",
       "created_at", "calendar_id", "label", "attendees"}
    case Activity => {"content", "updated_at", "created_at", "calendar_id", "event_id"}
  }

  /** A variant's `TIME_FIELDS`; none for users and labels. */
  function TimeFields(k: Kind): set<string> {
    match k
    case User => {}
    case Label => {}
    case Calendar => {"created_at"}
    case Event => {"start_at", "end_at", "updated_at", "created_at"}
    case Activity => {"updated_at", "created_at"}
  }

  /** A variant's `RELATIONSHIPS`, in declaration order; empty when the
      class does not declare the constant. */
  function RelationshipKeys(k: Kind): seq<string> {
    match k
    case Calendar => ["labels", "members"]
    case Event => ["creator", "label", "attendees"]
    case _ => []
  }

  /** The message of the failure for an unrecognised tag. */
  function UnknownTypeMessage(tag: Json): string {
    "type '" + ToS(tag) + "' is unknown."
  }

  /** A model built by the caller rather than decoded (`Event.new(type: 'event', ...)`). */
  function Bare(k: Kind, id: Json, client: Option<ClientKind>): Model {
    Model(k, id, client, map[], None)
  }

  /** No instance variable holds a resolved resource. */
  predicate Flat(m: Model) {
    forall key | key in m.slots :: m.slots[key].Raw? || m.slots[key].At?
  }

  /** `Time.parse value`: only a string can be parsed. */
  function ParseTime(j: Json, parse: string -> Option<int>): Option<int> {
    match j
    case JStr(s) => parse(s)
    case _ => None
  }

  /** `set_attributes`: every key the variant has a setter for is copied;
      keys in `TIME_FIELDS` are parsed, and one that does not parse fails
      the whole decode. Other keys are ignored. */
  function SetAttributes(k: Kind, attrs: map<string, Json>, parse: string -> Option<int>): (r: Result<map<string, Slot>>)
    ensures r.Ok? <==> forall key | key in attrs && key in TimeFields(k) :: ParseTime(attrs[key], parse).Some?
    ensures r.Fail? ==> r.failure == InvalidTime
    ensures r.Ok? ==> r.value.Keys == attrs.Keys * Setters(k)
  {
    if exists key | key in attrs && key in TimeFields(k) :: ParseTime(attrs[key], parse).None? then
      Fail(InvalidTime)
    else
      Ok(map key | key in attrs && key in Setters(k) ::
           if key in TimeFields(k) then At(ParseTime(attrs[key], parse).value) else Raw(attrs[key]))
  }

  /** A truthy relationship entry that is not an object: `relation[:data]`
      raises on it. */
  predicate Unreadable(relation: Json) {
    Truthy(relation) && !relation.JObj?
  }

  /** The first half of `set_relationships`: for each declared key whose
      entry is present and has a truthy `data`, the `data` is recorded
      unchanged. Nothing is recorded for an empty map or a variant without
      relationships. */
  function Record(k: Kind, rels: map<string, Json>): (r: Result<Option<map<string, Json>>>)
    ensures r.Ok? && r.value.Some? ==> |r.value.value| > 0
    ensures r.Fail? ==> r.failure == NoMethod("[]")
  {
    if |rels| == 0 || |RelationshipKeys(k)| == 0 then Ok(None)
    else if exists key | key in rels && key in RelationshipKeys(k) :: Unreadable(rels[key]) then
      Fail(NoMethod("[]"))
    else
      var recorded := map key | key in rels && key in RelationshipKeys(k)
                                && rels[key].JObj? && Truthy(Get(rels[key], "data"))
                        :: Get(rels[key], "data");
      Ok(if |recorded| == 0 then None else Some(recorded))
  }

  /** The attributes of a payload, `data[:attributes] || {}`. */
  function AttributesOf(data: Json): map<string, Json> {
    if data.JObj? then Entries(Get(data, "attributes")) else map[]
  }

  /** The relationships of a payload, `data[:relationships] || {}`. */
  function RelationshipsOf(data: Json): map<string, Json> {
    if data.JObj? then Entries(Get(data, "relationships")) else map[]
  }

  /** `to_model(data, included: nil)`: dispatch on the tag, copy the
      attributes, record the relationships. */
  function Build(data: Json, client: Option<ClientKind>, parse: string -> Option<int>): (r: Result<Model>)
    ensures !data.JObj? ==> r == Fail(NoMethod("[]"))
    ensures data.JObj? && Get(data, "type") == JNull ==> r == Fail(Error("type is required."))
    ensures data.JObj? && Get(data, "type") != JNull && KindOf(Get(data, "type")).None? ==>
              r == Fail(UnknownType(Get(data, "type")))
    ensures r.Ok? ==> data.JObj? && KindOf(Get(data, "type")) == Some(r.value.kind)
    ensures r.Ok? ==> r.value.id == Get(data, "id") && r.value.client == client
    ensures r.Ok? ==> Flat(r.value)
  {
    if !data.JObj? then Fail(NoMethod("[]"))
    else
      var tag := Get(data, "type");
      if tag == JNull then Fail(Error("type is required."))
      else
        match KindOf(tag)
        case None => Fail(UnknownType(tag))
        case Some(k) =>
          var slots :- SetAttributes(k, AttributesOf(data), parse);
          var recorded :- Record(k, RelationshipsOf(data));
          Ok(Model(k, Get(data, "id"), client, slots, recorded))
  }

  /** The key an included resource is indexed under: its type and id. */
  type Key = (Json, Json)

  function IndexKey(m: Model): Key {
    (JStr(Tag(m.kind)), m.id)
  }

  /** The key a relationship reference `{type, id}` is looked up under. */
  function KeyOf(ref: Json): Key
    requires ref.JObj?
  {
    (Get(ref, "type"), Get(ref, "id"))
  }

  /** All included items decode. */
  ghost predicate AllBuild(items: seq<Json>, client: Option<ClientKind>, parse: string -> Option<int>) {
    forall i :: 0 <= i < |items| ==> Build(items[i], client, parse).Ok?
  }

  /** The `@_relation_data_dic` of `set_relationship_data_if_included`,
      for any way `build` of decoding one item: the items decoded in order
      and indexed by (type, id), a later item with the same key replacing an
      earlier one. The first item that fails to decode fails the index. */
  function IndexWith(items: seq<Json>, build: Json -> Result<Model>): (r: Result<map<Key, Model>>)
    ensures r.Ok? ==> forall key | key in r.value ::
              IndexKey(r.value[key]) == key && exists i :: 0 <= i < |items| && build(items[i]) == Ok(r.value[key])
    decreases |items|
  {
    if |items| == 0 then Ok(map[])
    else
      var front := items[..|items| - 1];
      var earlier :- IndexWith(front, build);
      var item :- build(items[|items| - 1]);
      assert forall i :: 0 <= i < |front| ==> front[i] == items[i];
      Ok(earlier[IndexKey(item) := item])
  }

  /** Decoding an included item: `to_model(d)`, without its own `included`. */
  function Builder(client: Option<ClientKind>, parse: string -> Option<int>): Json -> Result<Model> {
    data => Build(data, client, parse)
  }

  /** The index of the included items, each decoded one level deep. */
  function Index(items: seq<Json>, client: Option<ClientKind>, parse: string -> Option<int>): (r: Result<map<Key, Model>>)
    ensures r.Ok? ==> forall key | key in r.value :: IndexKey(r.value[key]) == key && Flat(r.value[key])
  {
    IndexWith(items, Builder(client, parse))
  }

  /** The models a list of references resolves to: the match of each
      reference that has one, in order; references without a match are
      dropped. */
  function Matches(refs: seq<Json>, index: map<Key, Model>): (r: seq<Model>)
    requires forall i :: 0 <= i < |refs| ==> refs[i].JObj?
    ensures |r| <= |refs|
    ensures forall m :: m in r ==> m in index.Values
    decreases |refs|
  {
    if |refs| == 0 then []
    else
      var earlier := Matches(refs[..|refs| - 1], index);
      var key := KeyOf(refs[|refs| - 1]);
      if key in index then earlier + [index[key]] else earlier
  }

  /** A list reference whose elements are not all objects: `d[:type]` raises. */
  predicate BadList(ref: Json) {
    ref.JArr? && exists i :: 0 <= i < |ref.items| && !ref.items[i].JObj?
  }

  /** A reference that assigns its accessor: any list (even when nothing
      matches), or an object with a match. Anything else leaves it unset. */
  predicate Assigns(ref: Json, index: map<Key, Model>) {
    ref.JArr? || (ref.JObj? && KeyOf(ref) in index)
  }

  function ResolvedSlot(ref: Json, index: map<Key, Model>): Slot
    requires Assigns(ref, index) && !BadList(ref)
  {
    if ref.JArr? then Many(Matches(ref.items, index)) else One(index[KeyOf(ref)])
  }

  /** The loop over `@relationships` in `set_relationship_data_if_included`:
      the accessor assignments it makes. */
  function ResolveAll(rels: map<string, Json>, index: map<Key, Model>): (r: Result<map<string, Slot>>)
    ensures r.Ok? <==> forall key | key in rels :: !BadList(rels[key])
    ensures r.Ok? ==> r.value.Keys <= rels.Keys
  {
    if exists key | key in rels :: BadList(rels[key]) then Fail(NoMethod("[]"))
    else Ok(map key | key in rels && Assigns(rels[key], index) :: ResolvedSlot(rels[key], index))
  }

  /** `set_relationship_data_if_included`. As in the source, it fails when
      no relationship was recorded, because it iterates `@relationships`,
      which is then `nil`. */
  function Resolve(m: Model, items: seq<Json>, parse: string -> Option<int>): (r: Result<Model>)
    ensures r.Ok? ==> r.value.kind == m.kind && r.value.id == m.id && r.value.client == m.client
    ensures r.Ok? ==> r.value.relationships == m.relationships
  {
    var index :- Index(items, m.client, parse);
    if m.relationships.None? then Fail(NoMethod("each"))
    else
      var resolved :- ResolveAll(m.relationships.value, index);
      Ok(m.(slots := m.slots + resolved))
  }

  /** Resolution runs only for a variant with relationships, a payload with
      a non-empty relationships object, and a non-empty `included` array. */
  predicate ResolutionRuns(data: Json, k: Kind, included: Json) {
    |RelationshipsOf(data)| > 0 && |RelationshipKeys(k)| > 0 && included.JArr? && |included.items| > 0
  }

  /** `BaseModel.to_model(data, included:, client:)`. */
  function Decode(data: Json, included: Json, client: Option<ClientKind>, parse: string -> Option<int>): (r: Result<Model>)
    ensures !data.JObj? ==> r == Fail(NoMethod("[]"))
    ensures data.JObj? && Get(data, "type") == JNull ==> r == Fail(Error("type is required."))
    ensures data.JObj? && Get(data, "type") != JNull && KindOf(Get(data, "type")).None? ==>
              r == Fail(UnknownType(Get(data, "type")))
    ensures r.Ok? ==> KindOf(Get(data, "type")) == Some(r.value.kind)
    ensures r.Ok? ==> r.value.id == Get(data, "id") && r.value.client == client
    ensures r.Ok? ==> Build(data, client, parse).Ok?
  {
    var m :- Build(data, client, parse);
    if ResolutionRuns(data, m.kind, included) then Resolve(m, included.items, parse) else Ok(m)
  }

  /** `check_client`. */
  function CheckClient(m: Model): (r: Result<ClientKind>)
    ensures r.Fail? <==> m.client.None?
    ensures r.Fail? ==> r.failure == Error("@client is nil.")
    ensures r.Ok? ==> m.client == Some(r.value)
  {
    match m.client
    case None => Fail(Error("@client is nil."))
    case Some(c) => Ok(c)
  }

  /** The value an attribute reader returns, as JSON: `nil` when unset.
      Time and resolved values are not JSON; reading one as JSON fails. */
  function Value(m: Model, key: string): (r: Result<Json>)
    ensures key !in m.slots ==> r == Ok(JNull)
    ensures key in m.slots && m.slots[key].Raw? ==> r == Ok(m.slots[key].json)
  {
    if key !in m.slots then Ok(JNull)
    else match m.slots[key]
      case Raw(j) => Ok(j)
      case _ => Fail(NoMethod("to_json"))
  }
}
