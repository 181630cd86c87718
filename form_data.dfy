/** Option type used for JavaScript's `undefined` (absent) versus a present value. */
module Wrappers {
  datatype Option<+T> = None | Some(value: T)
}

/** The values `JSON.parse` can produce. Numbers are exact reals. */
module Json {
  import opened Wrappers

  datatype Value =
    | JNull
    | JBool(b: bool)
    | JNumber(n: real)
    | JString(s: string)
    | JArray(items: seq<Value>)
    | JObject(fields: map<string, Value>)

  /** Property read `v.name` on a parsed value other than null, for the five form member
      names (the only names read): an object yields its own member, and a string, number,
      boolean or array has no own or inherited property of those names, so it yields
      `undefined`. */
  function Prop(v: Value, name: string): (r: Option<Value>)
    ensures r.Some? <==> v.JObject? && name in v.fields
    ensures r.Some? ==> r.value == v.fields[name]
  {
    match v
    case JObject(fields) => if name in fields then Some(fields[name]) else None
    case _ => None
  }
}

/** The engagement note form, its default, partial patches, and the rebuild of a form
    from a stored record with a fallback per field. */
module Form {
  import opened Wrappers
  import opened Json

  /** The in-memory note form. The three text-like fields hold whatever non-null value a
      stored record had, so they are dynamically typed; `interests` is whatever array was
      stored; `range` is a number. */
  datatype FormData = FormData(
    text: Value,
    date: Value,
    contactMethod: Value,
    interests: seq<Value>,
    range: real)

  const DEFAULT_FORM := FormData(JString(""), JString(""), JString(""), [], 50.0)

  datatype FieldName = Text | Date | ContactMethod | Interests | Range

  /** The property name under which a field is serialised. */
  function Key(k: FieldName): string
  {
    match k
    case Text => "text"
    case Date => "date"
    case ContactMethod => "contactMethod"
    case Interests => "interests"
    case Range => "range"
  }

  lemma KeyInjective(k1: FieldName, k2: FieldName)
    ensures Key(k1) == Key(k2) <==> k1 == k2
  {
    if k1 != k2 {
      // The keys differ in their first character or in their length.
      assert Key(k1)[0] != Key(k2)[0] || |Key(k1)| != |Key(k2)|;
    }
  }

  /** A field's value as it appears in the serialised record. */
  function Get(f: FormData, k: FieldName): Value
  {
    match k
    case Text => f.text
    case Date => f.date
    case ContactMethod => f.contactMethod
    case Interests => JArray(f.interests)
    case Range => JNumber(f.range)
  }

  /** `JSON.stringify(form)` read back by `JSON.parse`: an object with the five members. */
  function Serialize(f: FormData): (v: Value)
    ensures v.JObject? && v.fields.Keys == {"text", "date", "contactMethod", "interests", "range"}
    ensures forall k: FieldName :: Key(k) in v.fields && v.fields[Key(k)] == Get(f, k)
  {
    JObject(map[
      "text" := f.text,
      "date" := f.date,
      "contactMethod" := f.contactMethod,
      "interests" := JArray(f.interests),
      "range" := JNumber(f.range)])
  }

  /** A `Partial<FormData>`: each member is either absent or carries a value. */
  datatype Patch = Patch(
    text: Option<Value>,
    date: Option<Value>,
    contactMethod: Option<Value>,
    interests: Option<seq<Value>>,
    range: Option<real>)

  /** The patched value of a field, as it would appear in the serialised record. */
  function PatchGet(p: Patch, k: FieldName): Option<Value>
  {
    match k
    case Text => p.text
    case Date => p.date
    case ContactMethod => p.contactMethod
    case Interests => if p.interests.Some? then Some(JArray(p.interests.value)) else None
    case Range => if p.range.Some? then Some(JNumber(p.range.value)) else None
  }

  /** `{ ...current, ...patch }`: the overlay works field by field; a field takes the
      patch's value exactly when the patch carries that field, and keeps the current
      value otherwise. */
  function Overlay(current: FormData, patch: Patch): (r: FormData)
    ensures forall k: FieldName :: Get(r, k) == if PatchGet(patch, k).Some? then PatchGet(patch, k).value else Get(current, k)
  {
    FormData(
      if patch.text.Some? then patch.text.value else current.text,
      if patch.date.Some? then patch.date.value else current.date,
      if patch.contactMethod.Some? then patch.contactMethod.value else current.contactMethod,
      if patch.interests.Some? then patch.interests.value else current.interests,
      if patch.range.Some? then patch.range.value else current.range)
  }

  /** A form none of whose text-like fields is null: the only kind `LoadRecord` returns. */
  predicate WellFormed(f: FormData)
  {
    f.text != JNull && f.date != JNull && f.contactMethod != JNull
  }

  /** A patch that sets no text-like field to null. */
  predicate WellFormedPatch(p: Patch)
  {
    (p.text.Some? ==> p.text.value != JNull)
    && (p.date.Some? ==> p.date.value != JNull)
    && (p.contactMethod.Some? ==> p.contactMethod.value != JNull)
  }

  lemma OverlayWellFormed(current: FormData, patch: Patch)
    requires WellFormed(current) && WellFormedPatch(patch)
    ensures WellFormed(Overlay(current, patch))
  {
  }

  /** What `localStorage.getItem` hands back, as `loadFromStorage` sees it: the empty
      string, text that `JSON.parse` rejects, or text that parses to a value. */
  datatype Raw = Empty | Malformed | Parsed(value: Value)

  /** `value ?? ""` for a text-like member: absent or null becomes the empty string. */
  function OrEmpty(p: Option<Value>): (r: Value)
    ensures r != JNull
    ensures p.Some? && p.value != JNull ==> r == p.value
  {
    if p.None? || p.value == JNull then JString("") else p.value
  }

  /** `Array.isArray(v) ? v : []` */
  function ArrayOrEmpty(p: Option<Value>): (r: seq<Value>)
    ensures p.Some? && p.value.JArray? ==> r == p.value.items
    ensures !(p.Some? && p.value.JArray?) ==> r == []
  {
    if p.Some? && p.value.JArray? then p.value.items else []
  }

  /** `typeof v === "number" ? v : 50` */
  function NumberOr50(p: Option<Value>): (r: real)
    ensures p.Some? && p.value.JNumber? ==> r == p.value.n
    ensures !(p.Some? && p.value.JNumber?) ==> r == 50.0
  {
    if p.Some? && p.value.JNumber? then p.value.n else 50.0
  }

  /** The record rebuilt by `loadFromStorage` from what is stored under one key
      (`None` when nothing is). The missing item, the empty string, malformed text and a
      stored `null` (whose member read throws) all give the default form; any other
      parsed value is read member by member, each with its own fallback. */
  function LoadRecord(raw: Option<Raw>): (r: FormData)
    ensures WellFormed(r)
  {
    match raw
    case None => DEFAULT_FORM
    case Some(Empty) => DEFAULT_FORM
    case Some(Malformed) => DEFAULT_FORM
    case Some(Parsed(v)) =>
      if v == JNull then DEFAULT_FORM
      else FormData(
        OrEmpty(Prop(v, "text")),
        OrEmpty(Prop(v, "date")),
        OrEmpty(Prop(v, "contactMethod")),
        ArrayOrEmpty(Prop(v, "interests")),
        NumberOr50(Prop(v, "range")))
  }

  /** Whole-record fallback: nothing stored, the empty string, malformed text, a stored
      null and any parsed value that is not an object all give the default form. */
  lemma LoadRecordDefaults(raw: Option<Raw>)
    requires raw.None? || raw.value.Empty? || raw.value.Malformed?
             || (raw.value.Parsed? && !raw.value.value.JObject?)
    ensures LoadRecord(raw) == DEFAULT_FORM
  {
  }

  /** Fallback per field for a stored object: a text-like member is kept verbatim unless
      absent or null; `interests` is kept only when it is an array, `range` only when it
      is a number; otherwise the field's default is used. */
  lemma LoadRecordPerField(fields: map<string, Value>)
    ensures var r := LoadRecord(Some(Parsed(JObject(fields))));
      && (forall k :: k in {Text, Date, ContactMethod} ==>
            Get(r, k) == if Key(k) in fields && fields[Key(k)] != JNull then fields[Key(k)] else Get(DEFAULT_FORM, k))
      && r.interests == (if "interests" in fields && fields["interests"].JArray? then fields["interests"].items else [])
      && r.range == (if "range" in fields && fields["range"].JNumber? then fields["range"].n else 50.0)
  {
  }

  /** A corrupt sibling never discards a valid field: overwriting any other member of a
      stored object leaves every field whose key differs unchanged in the loaded form. */
  lemma LoadRecordSiblingIndependent(fields: map<string, Value>, other: string, junk: Value, k: FieldName)
    requires other != Key(k)
    ensures Get(LoadRecord(Some(Parsed(JObject(fields[other := junk])))), k)
         == Get(LoadRecord(Some(Parsed(JObject(fields)))), k)
  {
    var g := fields[other := junk];
    assert Prop(JObject(g), Key(k)) == Prop(JObject(fields), Key(k));
  }

  /** A bad value in one form field never changes what another form field loads as. */
  lemma LoadFieldIndependent(fields: map<string, Value>, bad: FieldName, junk: Value, k: FieldName)
    requires bad != k
    ensures Get(LoadRecord(Some(Parsed(JObject(fields[Key(bad) := junk])))), k)
         == Get(LoadRecord(Some(Parsed(JObject(fields)))), k)
  {
    KeyInjective(bad, k);
    LoadRecordSiblingIndependent(fields, Key(bad), junk, k);
  }

  /** Round trip: serialising a well-formed form and loading it back gives the form. */
  lemma LoadSerializeRoundTrip(f: FormData)
    requires WellFormed(f)
    ensures LoadRecord(Some(Parsed(Serialize(f)))) == f
  {
    var v := Serialize(f);
    assert Prop(v, "text") == Some(f.text);
    assert Prop(v, "date") == Some(f.date);
    assert Prop(v, "contactMethod") == Some(f.contactMethod);
    assert Prop(v, "interests") == Some(JArray(f.interests));
    assert Prop(v, "range") == Some(JNumber(f.range));
  }

  /** The slider edit: the first slider value, or 50 when the slider reports none. */
  function SliderValue(vals: seq<real>): (r: real)
    ensures |vals| > 0 ==> r == vals[0]
    ensures |vals| == 0 ==> r == 50.0
  {
    if |vals| > 0 then vals[0] else 50.0
  }
}
