/**
 * The two record types of the shortener: the stored shortlink and the update
 * payload, together with the field names each carries in the database (BSON
 * struct tags) and over the HTTP API (JSON struct tags).
 */
module Entity {
  import opened Options

  /** A wall-clock instant as an integer count of ticks; ZeroTime stands for Go's zero time.Time. */
  type Time = int
  const ZeroTime: Time := 0

  /** A database object identifier; NilObjectId stands for the all-zero ObjectID. */
  type ObjectId = nat
  const NilObjectId: ObjectId := 0

  /** A shortlink as stored in the collection. */
  datatype Shortlink = Shortlink(
    id: ObjectId,
    short: string,
    long: string,
    descr: string,
    accessCount: int,
    createdAt: Time,
    updatedAt: Time)

  /** The update payload: only the fields an update may replace. */
  datatype ShortlinkUpdate = ShortlinkUpdate(
    short: string,
    long: string,
    descr: string,
    updatedAt: Time)

  /** A field value, as either encoding carries it. */
  datatype Value = VString(str: string) | VInt(num: int) | VTime(time: Time) | VObjectId(oid: ObjectId)

  /** A stored document or a flat JSON object: field name to value. */
  type Fields = map<string, Value>

  // Field names. The ID field has no bson tag, so the driver stores it under its
  // lower-cased Go name; its json tag is "-", so it never appears in JSON.
  const IdKey := "id"
  const ShortKey := "short"
  const LongKey := "long"
  const DescrKey := "descr"
  const AccessCountKey := "access_count"
  const CreatedAtKey := "created_at"
  const UpdatedAtKey := "updated_at"

  /** The JSON keys of an entity, in the order encoding/json writes them. */
  const EntityJsonKeys: seq<string> := [ShortKey, LongKey, DescrKey, AccessCountKey, CreatedAtKey, UpdatedAtKey]

  /** The fields an update payload carries, in the database and in JSON alike. */
  const UpdateKeys: set<string> := {ShortKey, LongKey, DescrKey, UpdatedAtKey}

  /** Applying an update payload to a stored shortlink, field by field. */
  function ApplyUpdate(d: Shortlink, u: ShortlinkUpdate): Shortlink
  {
    d.(short := u.short, long := u.long, descr := u.descr, updatedAt := u.updatedAt)
  }

  /* ---------------- database documents ---------------- */

  function ToDocument(s: Shortlink): Fields
  {
    map[IdKey := VObjectId(s.id), ShortKey := VString(s.short), LongKey := VString(s.long),
        DescrKey := VString(s.descr), AccessCountKey := VInt(s.accessCount),
        CreatedAtKey := VTime(s.createdAt), UpdatedAtKey := VTime(s.updatedAt)]
  }

  /** The `$set` document built from an update payload. */
  function UpdateDocument(u: ShortlinkUpdate): Fields
  {
    map[ShortKey := VString(u.short), LongKey := VString(u.long),
        DescrKey := VString(u.descr), UpdatedAtKey := VTime(u.updatedAt)]
  }

  // Decoding one field into a Go struct field: an absent key leaves the zero
  // value, a value of the wrong kind is a decoding error.

  function StringField(f: Fields, key: string): Option<string>
  {
    if key !in f then Some("") else if f[key].VString? then Some(f[key].str) else None
  }

  function IntField(f: Fields, key: string): Option<int>
  {
    if key !in f then Some(0) else if f[key].VInt? then Some(f[key].num) else None
  }

  function TimeField(f: Fields, key: string): Option<Time>
  {
    if key !in f then Some(ZeroTime) else if f[key].VTime? then Some(f[key].time) else None
  }

  function IdField(f: Fields, key: string): Option<ObjectId>
  {
    if key !in f then Some(NilObjectId) else if f[key].VObjectId? then Some(f[key].oid) else None
  }

  /** Decodes the Shortlink fields other than the identifier, which is given; unknown keys are ignored. */
  function DecodeShortlink(f: Fields, id: Option<ObjectId>): Option<Shortlink>
  {
    var short, long, descr := StringField(f, ShortKey), StringField(f, LongKey), StringField(f, DescrKey);
    var count, created, updated := IntField(f, AccessCountKey), TimeField(f, CreatedAtKey), TimeField(f, UpdatedAtKey);
    if id.Some? && short.Some? && long.Some? && descr.Some? && count.Some? && created.Some? && updated.Some?
    then Some(Shortlink(id.value, short.value, long.value, descr.value, count.value, created.value, updated.value))
    else None
  }

  /** Decoding a stored document into a Shortlink. */
  function FromDocument(f: Fields): Option<Shortlink>
  {
    DecodeShortlink(f, IdField(f, IdKey))
  }

  lemma DocumentRoundTrip(s: Shortlink)
    ensures FromDocument(ToDocument(s)) == Some(s)
  {
  }

  /**
   * The update payload names only stored fields, so `$set` adds no field and
   * overwrites exactly short, long, descr and updated_at; what the stored
   * document reads as afterwards is ApplyUpdate, which keeps id, access_count
   * and created_at.
   */
  lemma SetAppliesUpdate(d: Shortlink, u: ShortlinkUpdate)
    ensures UpdateDocument(u).Keys == UpdateKeys
    ensures (ToDocument(d) + UpdateDocument(u)).Keys == ToDocument(d).Keys
    ensures ToDocument(d).Keys - UpdateDocument(u).Keys == {IdKey, AccessCountKey, CreatedAtKey}
    ensures FromDocument(ToDocument(d) + UpdateDocument(u)) == Some(ApplyUpdate(d, u))
    ensures var r := ApplyUpdate(d, u);
      r.id == d.id && r.accessCount == d.accessCount && r.createdAt == d.createdAt
  {
  }

  /* ---------------- JSON ---------------- */

  /** The JSON object of an entity, as the API renders it. */
  function ToJson(s: Shortlink): seq<(string, Value)>
  {
    [(ShortKey, VString(s.short)), (LongKey, VString(s.long)), (DescrKey, VString(s.descr)),
     (AccessCountKey, VInt(s.accessCount)), (CreatedAtKey, VTime(s.createdAt)), (UpdatedAtKey, VTime(s.updatedAt))]
  }

  /** The JSON object of an update payload. */
  function UpdateToJson(u: ShortlinkUpdate): seq<(string, Value)>
  {
    [(ShortKey, VString(u.short)), (LongKey, VString(u.long)), (DescrKey, VString(u.descr)),
     (UpdatedAtKey, VTime(u.updatedAt))]
  }

  /** The object a sequence of key/value members denotes; a later member wins over an earlier one. */
  function ObjectOf(members: seq<(string, Value)>): Fields
  {
    if members == [] then map[]
    else ObjectOf(members[..|members| - 1])[members[|members| - 1].0 := members[|members| - 1].1]
  }

  lemma ObjectOfPrefix(members: seq<(string, Value)>, n: nat)
    requires 0 < n <= |members|
    ensures ObjectOf(members[..n]) == ObjectOf(members[..n - 1])[members[n - 1].0 := members[n - 1].1]
  {
    assert members[..n][..n - 1] == members[..n - 1];
  }

  /** The object an entity's JSON denotes: its six members, one key each. */
  lemma EntityObject(s: Shortlink)
    ensures ObjectOf(ToJson(s))
         == map[ShortKey := VString(s.short), LongKey := VString(s.long), DescrKey := VString(s.descr),
                AccessCountKey := VInt(s.accessCount), CreatedAtKey := VTime(s.createdAt),
                UpdatedAtKey := VTime(s.updatedAt)]
  {
    var m := ToJson(s);
    assert m[..0] == [] && m[..6] == m;
    ObjectOfPrefix(m, 1); ObjectOfPrefix(m, 2); ObjectOfPrefix(m, 3);
    ObjectOfPrefix(m, 4); ObjectOfPrefix(m, 5); ObjectOfPrefix(m, 6);
  }

  /** Binding a JSON object into a Shortlink: the identifier is never read from JSON. */
  function BindShortlink(obj: Fields): Option<Shortlink>
  {
    DecodeShortlink(obj, Some(NilObjectId))
  }

  /** Binding a JSON object into an update payload. */
  function BindUpdate(obj: Fields): Option<ShortlinkUpdate>
  {
    var short, long, descr := StringField(obj, ShortKey), StringField(obj, LongKey), StringField(obj, DescrKey);
    var updated := TimeField(obj, UpdatedAtKey);
    if short.Some? && long.Some? && descr.Some? && updated.Some?
    then Some(ShortlinkUpdate(short.value, long.value, descr.value, updated.value))
    else None
  }

  /**
   * The entity's JSON shape is exactly the six keys short, long, descr,
   * access_count, created_at, updated_at; the identifier is not among them and
   * does not influence the rendering.
   */
  lemma JsonShape(s: Shortlink, other: ObjectId)
    ensures |ToJson(s)| == |EntityJsonKeys|
    ensures forall i :: 0 <= i < |ToJson(s)| ==> ToJson(s)[i].0 == EntityJsonKeys[i]
    ensures IdKey !in ObjectOf(ToJson(s))
    ensures ToJson(s.(id := other)) == ToJson(s)
  {
    EntityObject(s);
  }

  /** Rendering an entity and binding it back recovers everything but the identifier. */
  lemma JsonRoundTrip(s: Shortlink)
    ensures BindShortlink(ObjectOf(ToJson(s))) == Some(s.(id := NilObjectId))
  {
    EntityObject(s);
  }

  /**
   * A create body that carries only the update payload's fields binds to a
   * shortlink with access_count 0 and a zero created_at.
   */
  lemma CreateBodyDefaults(u: ShortlinkUpdate)
    ensures BindShortlink(ObjectOf(UpdateToJson(u)))
         == Some(Shortlink(NilObjectId, u.short, u.long, u.descr, 0, ZeroTime, u.updatedAt))
  {
    var m := UpdateToJson(u);
    assert m[..0] == [] && m[..4] == m;
    ObjectOfPrefix(m, 1); ObjectOfPrefix(m, 2); ObjectOfPrefix(m, 3); ObjectOfPrefix(m, 4);
  }

  lemma UpdateJsonRoundTrip(u: ShortlinkUpdate)
    ensures BindUpdate(ObjectOf(UpdateToJson(u))) == Some(u)
  {
    var m := UpdateToJson(u);
    assert m[..0] == [] && m[..4] == m;
    ObjectOfPrefix(m, 1); ObjectOfPrefix(m, 2); ObjectOfPrefix(m, 3); ObjectOfPrefix(m, 4);
  }
}
