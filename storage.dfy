/** `storage/__init__.py`: the conversion of UUIDs to their text before a
    tree of dictionaries, lists and tuples is written as JSON, and back when
    it is read. The file reading and writing is not part of this model. */
module Storage {
  import opened Wrappers
  import opened Uuids

  /** A JSON-like tree as the services hand it to the storage layer: UUID
      objects, strings, other leaves (numbers, booleans, None, timestamps,
      enumeration values, which the conversions never change, told apart by
      `tag`), lists, tuples and dictionaries with string keys in insertion
      order. */
  datatype Value =
    | UuidVal(u: Uuid)
    | Str(s: string)
    | Leaf(tag: string)
    | List(items: seq<Value>)
    | Tuple(items: seq<Value>)
    | Dict(entries: seq<Entry>)

  datatype Entry = Entry(key: string, val: Value)

  /** The field names `str_to_uuid` converts when the caller gives none. */
  const DefaultUuidFields: seq<string> :=
    ["id", "claim_id", "verification_id", "token_id", "credit_id", "evidence_id", "review_id"]

  /** `uuid_to_str`: every UUID becomes its text; dictionaries, lists and
      tuples are rebuilt around the converted children; any other leaf is
      returned as it is. Dictionary keys are not converted. */
  function UuidToStr(v: Value): Value
    decreases v
  {
    match v
    case UuidVal(u) => Str(UuidText(u))
    case List(xs) => List(seq(|xs|, i requires 0 <= i < |xs| => UuidToStr(xs[i])))
    case Tuple(xs) => Tuple(seq(|xs|, i requires 0 <= i < |xs| => UuidToStr(xs[i])))
    case Dict(es) => Dict(seq(|es|, i requires 0 <= i < |es| => Entry(es[i].key, UuidToStr(es[i].val))))
    case _ => v
  }

  /** Whether `str_to_uuid` tries to read a string under key `k` as a UUID:
      when `k` is one of `fields`, and always for `id`. */
  predicate Converts(k: string, fields: seq<string>) {
    k in fields || k == "id"
  }

  /** One entry of the dictionary loop of `str_to_uuid`: a string under a
      converting key becomes a UUID when it parses and stays a string when
      `UUID()` raises; any other value is converted recursively. */
  function ConvertEntry(e: Entry, fields: seq<string>): Entry
    decreases e
  {
    if Converts(e.key, fields) && e.val.Str? then
      match ParseUuid(e.val.s)
      case Some(u) => Entry(e.key, UuidVal(u))
      case None => e
    else
      Entry(e.key, StrToUuid(e.val, fields))
  }

  /** `str_to_uuid(obj, uuid_fields)` with the field list given. */
  function StrToUuid(v: Value, fields: seq<string>): Value
    decreases v
  {
    match v
    case Dict(es) => Dict(seq(|es|, i requires 0 <= i < |es| => ConvertEntry(es[i], fields)))
    case List(xs) => List(seq(|xs|, i requires 0 <= i < |xs| => StrToUuid(xs[i], fields)))
    case Tuple(xs) => Tuple(seq(|xs|, i requires 0 <= i < |xs| => StrToUuid(xs[i], fields)))
    case _ => v
  }

  /** `str_to_uuid(obj)` or `str_to_uuid(obj, uuid_fields)`: None selects
      the default field list. */
  function StrToUuidWith(v: Value, fields: Option<seq<string>>): (r: Value)
    ensures fields.None? ==> r == StrToUuid(v, DefaultUuidFields)
    ensures fields.Some? ==> r == StrToUuid(v, fields.value)
  {
    StrToUuid(v, if fields.None? then DefaultUuidFields else fields.value)
  }

  /** No UUID object anywhere in the tree. */
  predicate NoUuids(v: Value)
    decreases v
  {
    match v
    case UuidVal(_) => false
    case List(xs) => forall i :: 0 <= i < |xs| ==> NoUuids(xs[i])
    case Tuple(xs) => forall i :: 0 <= i < |xs| ==> NoUuids(xs[i])
    case Dict(es) => forall i :: 0 <= i < |es| ==> NoUuids(es[i].val)
    case _ => true
  }

  /** `b` is `a` with each UUID leaf replaced by its text: the same kind of
      node everywhere, the same list and tuple lengths, the same keys in the
      same order, and every other leaf equal. */
  predicate SameShape(a: Value, b: Value)
    decreases a
  {
    match a
    case UuidVal(u) => b == Str(UuidText(u))
    case List(xs) =>
      b.List? && |b.items| == |xs| && forall i :: 0 <= i < |xs| ==> SameShape(xs[i], b.items[i])
    case Tuple(xs) =>
      b.Tuple? && |b.items| == |xs| && forall i :: 0 <= i < |xs| ==> SameShape(xs[i], b.items[i])
    case Dict(es) =>
      && b.Dict? && |b.entries| == |es|
      && forall i :: 0 <= i < |es| ==> b.entries[i].key == es[i].key && SameShape(es[i].val, b.entries[i].val)
    case _ => b == a
  }

  /** The output of `uuid_to_str` holds no UUID. */
  lemma {:induction false} UuidToStrRemovesUuids(v: Value)
    ensures NoUuids(UuidToStr(v))
    decreases v
  {
    match v
    case List(xs) =>
      forall i | 0 <= i < |xs| ensures NoUuids(UuidToStr(xs[i])) { UuidToStrRemovesUuids(xs[i]); }
    case Tuple(xs) =>
      forall i | 0 <= i < |xs| ensures NoUuids(UuidToStr(xs[i])) { UuidToStrRemovesUuids(xs[i]); }
    case Dict(es) =>
      forall i | 0 <= i < |es| ensures NoUuids(UuidToStr(es[i].val)) { UuidToStrRemovesUuids(es[i].val); }
    case _ =>
  }

  /** `uuid_to_str` keeps the shape of the tree and every leaf that is not
      a UUID. */
  lemma {:induction false} UuidToStrKeepsShape(v: Value)
    ensures SameShape(v, UuidToStr(v))
    decreases v
  {
    match v
    case List(xs) =>
      forall i | 0 <= i < |xs| ensures SameShape(xs[i], UuidToStr(xs[i])) { UuidToStrKeepsShape(xs[i]); }
    case Tuple(xs) =>
      forall i | 0 <= i < |xs| ensures SameShape(xs[i], UuidToStr(xs[i])) { UuidToStrKeepsShape(xs[i]); }
    case Dict(es) =>
      forall i | 0 <= i < |es| ensures SameShape(es[i].val, UuidToStr(es[i].val)) {
        UuidToStrKeepsShape(es[i].val);
      }
    case _ =>
  }

  /** A tree without UUIDs is left exactly as it is. */
  lemma {:induction false} UuidToStrIdentity(v: Value)
    requires NoUuids(v)
    ensures UuidToStr(v) == v
    decreases v
  {
    match v
    case List(xs) =>
      forall i | 0 <= i < |xs| ensures UuidToStr(xs[i]) == xs[i] { UuidToStrIdentity(xs[i]); }
      assert UuidToStr(v).items == xs;
    case Tuple(xs) =>
      forall i | 0 <= i < |xs| ensures UuidToStr(xs[i]) == xs[i] { UuidToStrIdentity(xs[i]); }
      assert UuidToStr(v).items == xs;
    case Dict(es) =>
      forall i | 0 <= i < |es| ensures UuidToStr(es[i].val) == es[i].val { UuidToStrIdentity(es[i].val); }
      assert UuidToStr(v).entries == es;
    case _ =>
  }

  /** `uuid_to_str` is idempotent. */
  lemma UuidToStrIdempotent(v: Value)
    ensures UuidToStr(UuidToStr(v)) == UuidToStr(v)
  {
    UuidToStrRemovesUuids(v);
    UuidToStrIdentity(UuidToStr(v));
  }

  /** The trees that survive a write and a read: every UUID sits directly
      under a converting key, and no string under a converting key would be
      read as a UUID. */
  predicate RoundTrips(v: Value, fields: seq<string>)
    decreases v
  {
    match v
    case UuidVal(_) => false
    case List(xs) => forall i :: 0 <= i < |xs| ==> RoundTrips(xs[i], fields)
    case Tuple(xs) => forall i :: 0 <= i < |xs| ==> RoundTrips(xs[i], fields)
    case Dict(es) => forall i :: 0 <= i < |es| ==> EntryRoundTrips(es[i], fields)
    case _ => true
  }

  predicate EntryRoundTrips(e: Entry, fields: seq<string>)
    decreases e
  {
    if Converts(e.key, fields) then
      match e.val
      case UuidVal(_) => true
      case Str(s) => ParseUuid(s).None?
      case _ => RoundTrips(e.val, fields)
    else
      RoundTrips(e.val, fields)
  }

  /** Writing then reading gives the tree back: `str_to_uuid` undoes
      `uuid_to_str` on every tree whose UUIDs sit under converting keys,
      because `UUID(str(u)) == u`. */
  lemma {:induction false} RoundTrip(v: Value, fields: seq<string>)
    requires RoundTrips(v, fields)
    ensures StrToUuid(UuidToStr(v), fields) == v
    decreases v
  {
    match v
    case List(xs) =>
      forall i | 0 <= i < |xs| ensures StrToUuid(UuidToStr(xs[i]), fields) == xs[i] {
        RoundTrip(xs[i], fields);
      }
      assert StrToUuid(UuidToStr(v), fields).items == xs;
    case Tuple(xs) =>
      forall i | 0 <= i < |xs| ensures StrToUuid(UuidToStr(xs[i]), fields) == xs[i] {
        RoundTrip(xs[i], fields);
      }
      assert StrToUuid(UuidToStr(v), fields).items == xs;
    case Dict(es) =>
      forall i | 0 <= i < |es|
        ensures ConvertEntry(Entry(es[i].key, UuidToStr(es[i].val)), fields) == es[i]
      {
        EntryRoundTrip(es[i], fields);
      }
      assert StrToUuid(UuidToStr(v), fields).entries == es;
    case _ =>
  }

  lemma {:induction false} EntryRoundTrip(e: Entry, fields: seq<string>)
    requires EntryRoundTrips(e, fields)
    ensures ConvertEntry(Entry(e.key, UuidToStr(e.val)), fields) == e
    decreases e
  {
    if Converts(e.key, fields) {
      match e.val
      case UuidVal(u) => ParseUuidText(u);
      case Str(s) =>
      case Leaf(_) =>
      case List(_) => RoundTrip(e.val, fields);
      case Tuple(_) => RoundTrip(e.val, fields);
      case Dict(_) => RoundTrip(e.val, fields);
    } else {
      RoundTrip(e.val, fields);
    }
  }

  /** A UUID that is not under a converting key (here, a list element) is
      read back as text: the round trip needs its condition. */
  lemma ListedUuidStaysText(u: Uuid, fields: seq<string>)
    ensures StrToUuid(UuidToStr(List([UuidVal(u)])), fields) == List([Str(UuidText(u))])
  {
    assert UuidToStr(List([UuidVal(u)])) == List([Str(UuidText(u))]);
  }

  /** `str_to_uuid` on a single field: a parsable string under a
      converting key becomes the UUID, an unparsable one stays a string. */
  lemma ConvertsField(k: string, s: string, fields: seq<string>)
    requires Converts(k, fields)
    ensures ParseUuid(s).Some? ==> StrToUuid(Dict([Entry(k, Str(s))]), fields) == Dict([Entry(k, UuidVal(ParseUuid(s).value))])
    ensures ParseUuid(s).None? ==> StrToUuid(Dict([Entry(k, Str(s))]), fields) == Dict([Entry(k, Str(s))])
  {
    var d := StrToUuid(Dict([Entry(k, Str(s))]), fields);
    assert d.entries == [ConvertEntry(Entry(k, Str(s)), fields)];
  }
}
