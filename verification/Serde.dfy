/** Values to JSON and back, driven by types.

    Texts of decimals, dates and times, and Python's own conversions of scalars, are
    parameters (`Codec`); everything structural is modelled. */
module Serde {
  import opened Domain

  // ---------------------------------------------------------------------
  // Types, values and JSON

  datatype TextKind = DecimalText | DateTimeText | DateText | TimeText

  datatype KeyType = StrKey | IntKey | EnumKey(values: set<string>)

  datatype Key = KStr(text: string) | KInt(number: int) | KEnum(member: string)

  datatype Type =
    | AnyType
    | StrType | IntType | FloatType | BoolType
    | TextType(kind: TextKind)
    | EnumType(values: set<string>)
    | OptionalType(inner: Type)
    | ListType(item: Type)
    | SetType(item: Type)
    | TupleType(item: Type)
    | FixedTupleType(parts: seq<Type>)
    | DictType(key: KeyType, item: Type)
    | RecordType(fields: seq<Field>, behaviour: Behaviour)

  datatype Field = Field(name: string, of: Type, default: Option<Value>)

  /** What a dataclass does beyond storing its fields: `normalise` is its `__post_init__`,
      which may refuse, and `legacy` reads the plain strings of older stores. */
  datatype Behaviour = Behaviour(
    normalise: seq<NamedValue> -> Option<seq<NamedValue>>,
    legacy: Option<string -> Option<seq<NamedValue>>>)

  datatype NamedValue = NamedValue(name: string, value: Value)

  datatype KeyedValue = KeyedValue(key: Key, value: Value)

  datatype Value =
    | VNone
    | VAny(json: Json)
    | VStr(text: string) | VInt(number: int) | VFloat(fraction: real) | VBool(flag: bool)
    | VText(kind: TextKind, atom: int)
    | VEnum(member: string)
    | VList(items: seq<Value>)
    | VSet(elements: set<Value>)
    | VTuple(items: seq<Value>)
    | VDict(entries: seq<KeyedValue>)
    | VRecord(fields: seq<NamedValue>)

  datatype Json =
    | JNull | JBool(flag: bool) | JInt(number: int) | JFloat(fraction: real) | JStr(text: string)
    | JList(items: seq<Json>)
    | JObject(members: seq<Member>)

  datatype Member = Member(name: string, json: Json)

  datatype LoadError = ValueError | OtherError

  datatype Loaded<+T> = Ok(value: T) | Fail(error: LoadError)

  /** The conversions that are not the serializer's own. `order` is the order in which a
      set is written. */
  datatype Codec = Codec(
    text: (TextKind, int) -> string,
    parseText: (TextKind, Json) -> Option<int>,
    intOf: Json -> Option<int>,
    floatOf: Json -> Option<real>,
    boolOf: Json -> bool,
    strOf: Json -> string,
    keyText: int -> string,
    parseKey: string -> Option<int>,
    order: set<Value> -> seq<Value>)

  /** What is written of a set are its elements, all of them and nothing else. */
  ghost predicate Orders(c: Codec) {
    forall s: set<Value> :: OrderedAs(c, s)
  }

  ghost predicate OrderedAs(c: Codec, s: set<Value>) {
    forall x :: x in c.order(s) <==> x in s
  }

  /** Each conversion reads back what it wrote. */
  ghost predicate ReadsBack(c: Codec) {
    && (forall k, a :: c.parseText(k, JStr(c.text(k, a))) == Some(a))
    && (forall i :: c.intOf(JInt(i)) == Some(i))
    && (forall r :: c.floatOf(JFloat(r)) == Some(r))
    && (forall b :: c.boolOf(JBool(b)) == b)
    && (forall s :: c.strOf(JStr(s)) == s)
    && (forall i :: c.parseKey(c.keyText(i)) == Some(i))
  }

  // ---------------------------------------------------------------------
  // Python dictionaries as sequences of entries

  /** The member of that name; assigning again replaces, so names are distinct. */
  function Find(members: seq<Member>, name: string): Option<Json> {
    if members == [] then None
    else if members[0].name == name then Some(members[0].json)
    else Find(members[1..], name)
  }

  function PutMember(members: seq<Member>, name: string, json: Json): seq<Member> {
    if members == [] then [Member(name, json)]
    else if members[0].name == name then [Member(name, json)] + members[1..]
    else [members[0]] + PutMember(members[1..], name, json)
  }

  function PutEntry(entries: seq<KeyedValue>, key: Key, value: Value): seq<KeyedValue> {
    if entries == [] then [KeyedValue(key, value)]
    else if entries[0].key == key then [KeyedValue(key, value)] + entries[1..]
    else [entries[0]] + PutEntry(entries[1..], key, value)
  }

  // ---------------------------------------------------------------------
  // Writing

  function DumpKey(c: Codec, key: Key): string {
    match key
    case KStr(text) => text
    case KInt(number) => c.keyText(number)
    case KEnum(member) => member
  }

  function Dump(c: Codec, v: Value): Json
    requires Orders(c)
    decreases v, 1
  {
    match v
    case VNone => JNull
    case VAny(json) => json
    case VStr(text) => JStr(text)
    case VInt(number) => JInt(number)
    case VFloat(r) => JFloat(r)
    case VBool(flag) => JBool(flag)
    case VText(kind, atom) => JStr(c.text(kind, atom))
    case VEnum(member) => JStr(member)
    case VList(items) => JList(DumpAll(c, v, items))
    case VSet(elements) =>
      assert OrderedAs(c, elements);
      assert forall i :: 0 <= i < |c.order(elements)| ==> c.order(elements)[i] in elements;
      JList(DumpAll(c, v, c.order(elements)))
    case VTuple(items) => JList(DumpAll(c, v, items))
    case VDict(entries) => JObject(DumpEntries(c, v, |entries|))
    case VRecord(fields) => JObject(DumpFields(c, v, fields))
  }

  function DumpAll(c: Codec, ghost whole: Value, items: seq<Value>): (r: seq<Json>)
    requires Orders(c) && forall i :: 0 <= i < |items| ==> items[i] < whole
    ensures |r| == |items|
    decreases whole, 0, |items|
  {
    if items == [] then [] else [Dump(c, items[0])] + DumpAll(c, whole, items[1..])
  }

  /** A later entry with the same written key replaces an earlier one. */
  function DumpEntries(c: Codec, whole: Value, n: nat): seq<Member>
    requires Orders(c) && whole.VDict? && n <= |whole.entries|
    decreases whole, 0, n
  {
    if n == 0 then []
    else
      var e := whole.entries[n - 1];
      PutMember(DumpEntries(c, whole, n - 1), DumpKey(c, e.key), Dump(c, e.value))
  }

  function DumpFields(c: Codec, ghost whole: Value, fields: seq<NamedValue>): (r: seq<Member>)
    requires Orders(c) && forall i :: 0 <= i < |fields| ==> fields[i].value < whole
    ensures |r| == |fields|
    decreases whole, 0, |fields|
  {
    if fields == [] then []
    else [Member(fields[0].name, Dump(c, fields[0].value))] + DumpFields(c, whole, fields[1..])
  }

  // ---------------------------------------------------------------------
  // Reading

  function Read<T>(r: Option<T>): Loaded<T> { if r.Some? then Ok(r.value) else Fail(ValueError) }

  /** What a `for` loop over the data sees. */
  function Iterate(j: Json): Loaded<seq<Json>> {
    match j
    case JList(items) => Ok(items)
    case JStr(text) => Ok(seq(|text|, i requires 0 <= i < |text| => JStr([text[i]])))
    case JObject(members) => Ok(seq(|members|, i requires 0 <= i < |members| => JStr(members[i].name)))
    case _ => Fail(OtherError)
  }

  predicate Substring(a: string, b: string)
    decreases |b|
  {
    |a| <= |b| && (b[..|a|] == a || (b != [] && Substring(a, b[1..])))
  }

  /** The field's datum, if `name in data`; anything but an object cannot then be indexed. */
  function Datum(j: Json, name: string): Loaded<Option<Json>> {
    match j
    case JObject(members) => Ok(Find(members, name))
    case JList(items) => if JStr(name) in items then Fail(OtherError) else Ok(None)
    case JStr(text) => if Substring(name, text) then Fail(OtherError) else Ok(None)
    case _ => Fail(OtherError)
  }

  function LoadKey(c: Codec, t: KeyType, text: string): Loaded<Key> {
    match t
    case StrKey => Ok(KStr(text))
    case IntKey =>
      (match c.parseKey(text)
       case Some(i) => Ok(KInt(i))
       case None => Fail(ValueError))
    case EnumKey(values) => if text in values then Ok(KEnum(text)) else Fail(ValueError)
  }

  function Load(c: Codec, t: Type, j: Json): Loaded<Value>
    decreases t, 1
  {
    match t
    case AnyType => if j == JNull then Ok(VNone) else Ok(VAny(j))
    case OptionalType(inner) => if j == JNull then Ok(VNone) else Load(c, inner, j)
    case _ => if j == JNull then Fail(ValueError) else LoadPresent(c, t, j)
  }

  function LoadPresent(c: Codec, t: Type, j: Json): Loaded<Value>
    requires !t.AnyType? && !t.OptionalType?
    decreases t, 0
  {
    match t
    case StrType => Ok(VStr(c.strOf(j)))
    case IntType => (match c.intOf(j) case Some(i) => Ok(VInt(i)) case None => Fail(ValueError))
    case FloatType => (match c.floatOf(j) case Some(r) => Ok(VFloat(r)) case None => Fail(ValueError))
    case BoolType => Ok(VBool(c.boolOf(j)))
    case TextType(kind) => (match c.parseText(kind, j) case Some(a) => Ok(VText(kind, a)) case None => Fail(ValueError))
    case EnumType(values) => if j.JStr? && j.text in values then Ok(VEnum(j.text)) else Fail(ValueError)
    case ListType(item) =>
      (match LoadItems(c, item, j)
       case Ok(items) => Ok(VList(items))
       case Fail(e) => Fail(e))
    case SetType(item) =>
      (match LoadItems(c, item, j)
       case Ok(items) => Ok(VSet(set x | x in items))
       case Fail(e) => Fail(e))
    case TupleType(item) =>
      (match LoadItems(c, item, j)
       case Ok(items) => Ok(VTuple(items))
       case Fail(e) => Fail(e))
    case FixedTupleType(parts) =>
      (match Iterate(j)
       case Fail(e) => Fail(e)
       case Ok(data) =>
         match LoadParts(c, parts, data)
         case Ok(items) => Ok(VTuple(items))
         case Fail(e) => Fail(e))
    case DictType(key, item) =>
      if !j.JObject? then Fail(OtherError)
      else
        (match LoadEntries(c, key, item, j.members, [])
         case Ok(entries) => Ok(VDict(entries))
         case Fail(e) => Fail(e))
    case RecordType(fields, behaviour) =>
      if behaviour.legacy.Some? && j.JStr? then
        (match behaviour.legacy.value(j.text)
         case Some(values) => Ok(VRecord(values))
         case None => Fail(ValueError))
      else
        (match LoadFields(c, fields, j)
         case Fail(e) => Fail(e)
         case Ok(values) =>
           match behaviour.normalise(values)
           case Some(normal) => Ok(VRecord(normal))
           case None => Fail(ValueError))
  }

  function LoadItems(c: Codec, item: Type, j: Json): Loaded<seq<Value>>
    decreases item, 3
  {
    match Iterate(j)
    case Ok(data) => LoadAll(c, item, data)
    case Fail(e) => Fail(e)
  }

  function LoadAll(c: Codec, item: Type, data: seq<Json>): Loaded<seq<Value>>
    decreases item, 2, |data|
  {
    if data == [] then Ok([])
    else
      match Load(c, item, data[0])
      case Fail(e) => Fail(e)
      case Ok(first) =>
        match LoadAll(c, item, data[1..])
        case Ok(rest) => Ok([first] + rest)
        case Fail(e) => Fail(e)
  }

  /** Each part with its own type; a difference in length is found last. */
  function LoadParts(c: Codec, parts: seq<Type>, data: seq<Json>): Loaded<seq<Value>>
    decreases parts, 2
  {
    if parts == [] || data == [] then if parts == [] && data == [] then Ok([]) else Fail(ValueError)
    else
      match Load(c, parts[0], data[0])
      case Fail(e) => Fail(e)
      case Ok(first) =>
        match LoadParts(c, parts[1..], data[1..])
        case Ok(rest) => Ok([first] + rest)
        case Fail(e) => Fail(e)
  }

  function LoadEntries(
    c: Codec, key: KeyType, item: Type, members: seq<Member>, done: seq<KeyedValue>): Loaded<seq<KeyedValue>>
    decreases item, 2, |members|
  {
    if members == [] then Ok(done)
    else
      match LoadKey(c, key, members[0].name)
      case Fail(e) => Fail(e)
      case Ok(k) =>
        match Load(c, item, members[0].json)
        case Fail(e) => Fail(e)
        case Ok(v) => LoadEntries(c, key, item, members[1..], PutEntry(done, k, v))
  }

  /** Each field from the data, or its default; a field with neither is an error. */
  function LoadFields(c: Codec, fields: seq<Field>, j: Json): Loaded<seq<NamedValue>>
    decreases fields, 2
  {
    if fields == [] then Ok([])
    else
      match LoadField(c, fields[0], j)
      case Fail(e) => Fail(e)
      case Ok(first) =>
        match LoadFields(c, fields[1..], j)
        case Ok(rest) => Ok([NamedValue(fields[0].name, first)] + rest)
        case Fail(e) => Fail(e)
  }

  function LoadField(c: Codec, field: Field, j: Json): Loaded<Value>
    decreases field, 2
  {
    match Datum(j, field.name)
    case Fail(e) => Fail(e)
    case Ok(Some(datum)) => Load(c, field.of, datum)
    case Ok(None) => Read(field.default)
  }

  // ---------------------------------------------------------------------
  // Well-typed, normalised values

  predicate KeyTyped(t: KeyType, k: Key) {
    match t
    case StrKey => k.KStr?
    case IntKey => k.KInt?
    case EnumKey(values) => k.KEnum? && k.member in values
  }

  predicate DistinctKeys(entries: seq<KeyedValue>) {
    forall i, j :: 0 <= i < j < |entries| ==> entries[i].key != entries[j].key
  }

  predicate DistinctNames(fields: seq<Field>) {
    forall i, j :: 0 <= i < j < |fields| ==> fields[i].name != fields[j].name
  }

  /** A value of the type, with every record as its constructor leaves it. */
  predicate Typed(t: Type, v: Value)
    decreases t, 0
  {
    match t
    case AnyType => v == VNone || (v.VAny? && v.json != JNull)
    case StrType => v.VStr?
    case IntType => v.VInt?
    case FloatType => v.VFloat?
    case BoolType => v.VBool?
    case TextType(kind) => v.VText? && v.kind == kind
    case EnumType(values) => v.VEnum? && v.member in values
    case OptionalType(inner) => v == VNone || Typed(inner, v)
    case ListType(item) => v.VList? && forall i :: 0 <= i < |v.items| ==> Typed(item, v.items[i])
    case SetType(item) => v.VSet? && forall x :: x in v.elements ==> Typed(item, x)
    case TupleType(item) => v.VTuple? && forall i :: 0 <= i < |v.items| ==> Typed(item, v.items[i])
    case FixedTupleType(parts) =>
      v.VTuple? && |v.items| == |parts| && forall i :: 0 <= i < |parts| ==> Typed(parts[i], v.items[i])
    case DictType(key, item) =>
      v.VDict? && DistinctKeys(v.entries) && forall i :: 0 <= i < |v.entries| ==> EntryTyped(key, item, v.entries[i])
    case RecordType(fields, behaviour) =>
      v.VRecord? && FieldsTyped(fields, v.fields) && behaviour.normalise(v.fields) == Some(v.fields)
  }

  predicate EntryTyped(key: KeyType, item: Type, e: KeyedValue)
    decreases item, 1
  {
    KeyTyped(key, e.key) && Typed(item, e.value)
  }

  predicate FieldsTyped(fields: seq<Field>, values: seq<NamedValue>)
    decreases fields
  {
    |values| == |fields| &&
    forall i :: 0 <= i < |fields| ==> values[i].name == fields[i].name && Typed(fields[i].of, values[i].value)
  }

  /** Fields have distinct names and well-typed defaults; constructors yield well-typed values
      that they leave alone when given them again. */
  ghost predicate WellFormed(t: Type)
    decreases t
  {
    match t
    case OptionalType(inner) => WellFormed(inner)
    case ListType(item) => WellFormed(item)
    case SetType(item) => WellFormed(item)
    case TupleType(item) => WellFormed(item)
    case FixedTupleType(parts) => forall i :: 0 <= i < |parts| ==> WellFormed(parts[i])
    case DictType(_, item) => WellFormed(item)
    case RecordType(fields, behaviour) =>
      && DistinctNames(fields)
      && (forall i :: 0 <= i < |fields| ==> WellFormed(fields[i].of) && DefaultTyped(fields[i]))
      && (forall values :: FieldsTyped(fields, values) && behaviour.normalise(values).Some? ==>
            Constructs(fields, behaviour, behaviour.normalise(values).value))
      && (behaviour.legacy.Some? ==> forall text :: behaviour.legacy.value(text).Some? ==>
            Constructs(fields, behaviour, behaviour.legacy.value(text).value))
    case _ => true
  }

  predicate DefaultTyped(field: Field) { field.default.Some? ==> Typed(field.of, field.default.value) }

  predicate Constructs(fields: seq<Field>, behaviour: Behaviour, values: seq<NamedValue>) {
    FieldsTyped(fields, values) && behaviour.normalise(values) == Some(values)
  }

  // ---------------------------------------------------------------------
  // Whatever is read is well typed

  lemma {:induction false} LoadIsTyped(c: Codec, t: Type, j: Json)
    requires WellFormed(t) && Load(c, t, j).Ok?
    ensures Typed(t, Load(c, t, j).value)
    decreases t, 1
  {
    match t
    case AnyType =>
    case OptionalType(inner) => if j != JNull { LoadIsTyped(c, inner, j); }
    case _ => PresentIsTyped(c, t, j);
  }

  lemma {:induction false} PresentIsTyped(c: Codec, t: Type, j: Json)
    requires WellFormed(t) && !t.AnyType? && !t.OptionalType? && LoadPresent(c, t, j).Ok?
    ensures Typed(t, LoadPresent(c, t, j).value)
    decreases t, 0
  {
    match t
    case ListType(item) => ItemsAreTyped(c, item, Iterate(j).value);
    case SetType(item) => ItemsAreTyped(c, item, Iterate(j).value);
    case TupleType(item) => ItemsAreTyped(c, item, Iterate(j).value);
    case FixedTupleType(parts) => PartsAreTyped(c, parts, Iterate(j).value);
    case DictType(key, item) => EntriesAreTyped(c, key, item, j.members, []);
    case RecordType(fields, behaviour) =>
      if !(behaviour.legacy.Some? && j.JStr?) { FieldsAreTyped(c, fields, j); }
    case _ =>
  }

  lemma {:induction false} ItemsAreTyped(c: Codec, item: Type, data: seq<Json>)
    requires WellFormed(item) && LoadAll(c, item, data).Ok?
    ensures var items := LoadAll(c, item, data).value;
      |items| == |data| && forall i :: 0 <= i < |items| ==> Typed(item, items[i])
    decreases item, 2, |data|
  {
    if data != [] {
      LoadIsTyped(c, item, data[0]);
      ItemsAreTyped(c, item, data[1..]);
      hide Typed, Load, WellFormed;
    }
  }

  lemma {:induction false} PartsAreTyped(c: Codec, parts: seq<Type>, data: seq<Json>)
    requires (forall i :: 0 <= i < |parts| ==> WellFormed(parts[i])) && LoadParts(c, parts, data).Ok?
    ensures var items := LoadParts(c, parts, data).value;
      |items| == |parts| && forall i :: 0 <= i < |parts| ==> Typed(parts[i], items[i])
    decreases parts, 2
  {
    if parts != [] && data != [] {
      LoadIsTyped(c, parts[0], data[0]);
      PartsAreTyped(c, parts[1..], data[1..]);
      hide Typed, Load, WellFormed;
    }
  }

  ghost predicate EntriesTyped(key: KeyType, item: Type, entries: seq<KeyedValue>) {
    DistinctKeys(entries) && forall i :: 0 <= i < |entries| ==> EntryTyped(key, item, entries[i])
  }

  predicate HasKey(entries: seq<KeyedValue>, k: Key) {
    exists i :: 0 <= i < |entries| && entries[i].key == k
  }

  lemma {:induction false} PutHasKey(entries: seq<KeyedValue>, k: Key, v: Value, q: Key)
    requires HasKey(PutEntry(entries, k, v), q)
    ensures q == k || HasKey(entries, q)
  {
    var r := PutEntry(entries, k, v);
    var i :| 0 <= i < |r| && r[i].key == q;
    if entries != [] && entries[0].key != k {
      if i > 0 {
        assert PutEntry(entries[1..], k, v)[i - 1].key == q;
        PutHasKey(entries[1..], k, v, q);
        if q != k {
          var j :| 0 <= j < |entries[1..]| && entries[1..][j].key == q;
          assert entries[j + 1].key == q;
        }
      } else {
        assert entries[0].key == q;
      }
    } else if i > 0 {
      assert entries[i].key == q;
    }
  }

  lemma {:induction false} PutDistinct(entries: seq<KeyedValue>, k: Key, v: Value)
    requires DistinctKeys(entries)
    ensures DistinctKeys(PutEntry(entries, k, v))
  {
    if entries != [] && entries[0].key != k {
      var rest := PutEntry(entries[1..], k, v);
      PutDistinct(entries[1..], k, v);
      forall i | 0 <= i < |rest| ensures rest[i].key != entries[0].key {
        PutHasKey(entries[1..], k, v, rest[i].key);
      }
    }
  }

  lemma {:induction false} PutElements(entries: seq<KeyedValue>, k: Key, v: Value, e: KeyedValue)
    requires e in PutEntry(entries, k, v)
    ensures e in entries || e == KeyedValue(k, v)
  {
    if entries != [] && entries[0].key != k && e != entries[0] {
      PutElements(entries[1..], k, v, e);
    }
  }

  lemma {:induction false} PutKeepsTyped(key: KeyType, item: Type, entries: seq<KeyedValue>, k: Key, v: Value)
    requires EntriesTyped(key, item, entries) && KeyTyped(key, k) && Typed(item, v)
    ensures EntriesTyped(key, item, PutEntry(entries, k, v))
  {
    var r := PutEntry(entries, k, v);
    PutDistinct(entries, k, v);
    forall i | 0 <= i < |r| ensures EntryTyped(key, item, r[i]) {
      PutElements(entries, k, v, r[i]);
    }
  }

  lemma {:induction false} EntriesAreTyped(
    c: Codec, key: KeyType, item: Type, members: seq<Member>, done: seq<KeyedValue>)
    requires WellFormed(item) && EntriesTyped(key, item, done) && LoadEntries(c, key, item, members, done).Ok?
    ensures EntriesTyped(key, item, LoadEntries(c, key, item, members, done).value)
    decreases item, 2, |members|
  {
    if members != [] {
      var k, v := LoadKey(c, key, members[0].name).value, Load(c, item, members[0].json).value;
      LoadIsTyped(c, item, members[0].json);
      PutKeepsTyped(key, item, done, k, v);
      hide Typed, Load, WellFormed, EntriesTyped, PutEntry;
      EntriesAreTyped(c, key, item, members[1..], PutEntry(done, k, v));
    }
  }

  lemma {:induction false} FieldsAreTyped(c: Codec, fields: seq<Field>, j: Json)
    requires (forall i :: 0 <= i < |fields| ==> WellFormed(fields[i].of) && DefaultTyped(fields[i]))
    requires LoadFields(c, fields, j).Ok?
    ensures FieldsTyped(fields, LoadFields(c, fields, j).value)
    decreases fields, 2
  {
    if fields != [] {
      FieldIsTyped(c, fields[0], j);
      FieldsAreTyped(c, fields[1..], j);
      hide Typed, LoadField, WellFormed;
    }
  }

  lemma {:induction false} FieldIsTyped(c: Codec, field: Field, j: Json)
    requires WellFormed(field.of) && DefaultTyped(field) && LoadField(c, field, j).Ok?
    ensures Typed(field.of, LoadField(c, field, j).value)
    decreases field, 2
  {
    var datum := Datum(j, field.name);
    if datum.value.Some? { LoadIsTyped(c, field.of, datum.value.value); }
    hide Typed, WellFormed;
  }

  predicate Nullable(t: Type) { t.AnyType? || t.OptionalType? }

  /** Null is accepted where the type is optional, and nowhere else. */
  lemma {:induction false} NullOnlyWhereOptional(c: Codec, t: Type)
    ensures Load(c, t, JNull) == if Nullable(t) then Ok(VNone) else Fail(ValueError)
    ensures Typed(t, VNone) <==> Nullable(t)
  {}

  // ---------------------------------------------------------------------
  // Whatever is written is read back

  lemma {:induction false} OnlyNoneIsNull(c: Codec, t: Type, v: Value)
    requires Orders(c) && Typed(t, v)
    ensures Dump(c, v) == JNull <==> v == VNone
  {
    if t.OptionalType? && v != VNone { OnlyNoneIsNull(c, t.inner, v); }
  }

  lemma {:induction false} RoundTrip(c: Codec, t: Type, v: Value)
    requires Orders(c) && ReadsBack(c) && WellFormed(t) && Typed(t, v)
    ensures Load(c, t, Dump(c, v)) == Ok(v)
    decreases t, 1
  {
    OnlyNoneIsNull(c, t, v);
    match t
    case AnyType =>
    case OptionalType(inner) => if v != VNone { RoundTrip(c, inner, v); }
    case _ => PresentRoundTrip(c, t, v);
  }

  lemma {:induction false} PresentRoundTrip(c: Codec, t: Type, v: Value)
    requires Orders(c) && ReadsBack(c) && WellFormed(t) && Typed(t, v) && !t.AnyType? && !t.OptionalType?
    ensures LoadPresent(c, t, Dump(c, v)) == Ok(v)
    decreases t, 0
  {
    match t
    case ListType(item) => ItemsRoundTrip(c, item, v, v.items);
    case SetType(item) => SetRoundTrip(c, item, v);
    case TupleType(item) => ItemsRoundTrip(c, item, v, v.items);
    case FixedTupleType(parts) => PartsRoundTrip(c, parts, v, v.items);
    case DictType(key, item) => DictRoundTrip(c, key, item, v);
    case RecordType(fields, behaviour) => RecordRoundTrip(c, t, v);
    case _ =>
  }

  lemma {:induction false} ItemsRoundTrip(c: Codec, item: Type, whole: Value, items: seq<Value>)
    requires Orders(c) && ReadsBack(c) && WellFormed(item)
    requires forall i :: 0 <= i < |items| ==> items[i] < whole && Typed(item, items[i])
    ensures LoadAll(c, item, DumpAll(c, whole, items)) == Ok(items)
    decreases item, 2, |items|
  {
    if items != [] {
      var data := DumpAll(c, whole, items);
      assert data[0] == Dump(c, items[0]) && data[1..] == DumpAll(c, whole, items[1..]);
      RoundTrip(c, item, items[0]);
      ItemsRoundTrip(c, item, whole, items[1..]);
      hide Typed, WellFormed, Dump, DumpAll, ReadsBack, Orders;
      LoadAllCons(c, item, data);
      assert items == [items[0]] + items[1..];
    }
  }

  lemma {:induction false} LoadAllCons(c: Codec, item: Type, data: seq<Json>)
    requires data != [] && Load(c, item, data[0]).Ok? && LoadAll(c, item, data[1..]).Ok?
    ensures LoadAll(c, item, data) == Ok([Load(c, item, data[0]).value] + LoadAll(c, item, data[1..]).value)
  {
    hide Load;
  }

  lemma {:induction false} SetRoundTrip(c: Codec, item: Type, v: Value)
    requires Orders(c) && ReadsBack(c) && WellFormed(item) && v.VSet? && forall x :: x in v.elements ==> Typed(item, x)
    ensures LoadPresent(c, SetType(item), Dump(c, v)) == Ok(v)
    decreases item, 3
  {
    var items := c.order(v.elements);
    assert OrderedAs(c, v.elements);
    hide Orders, ReadsBack, Dump;
    assert forall i :: 0 <= i < |items| ==> items[i] in v.elements;
    ItemsRoundTrip(c, item, v, items);
    SetRebuilt(c, item, v);
  }

  lemma {:induction false} SetRebuilt(c: Codec, item: Type, v: Value)
    requires Orders(c) && v.VSet? && OrderedAs(c, v.elements)
    requires forall i :: 0 <= i < |c.order(v.elements)| ==> c.order(v.elements)[i] < v
    requires LoadAll(c, item, DumpAll(c, v, c.order(v.elements))) == Ok(c.order(v.elements))
    ensures LoadPresent(c, SetType(item), Dump(c, v)) == Ok(v)
  {
    var items := c.order(v.elements);
    SetLoaded(c, item, DumpAll(c, v, items), items);
    hide Orders, DumpAll, LoadAll, LoadPresent;
    assert Dump(c, v) == JList(DumpAll(c, v, items));
    assert (set x | x in items) == v.elements;
  }

  lemma {:induction false} SetLoaded(c: Codec, item: Type, data: seq<Json>, items: seq<Value>)
    requires LoadAll(c, item, data) == Ok(items)
    ensures LoadPresent(c, SetType(item), JList(data)) == Ok(VSet(set x | x in items))
  {
    hide LoadAll;
  }

  lemma {:induction false} PartsRoundTrip(c: Codec, parts: seq<Type>, whole: Value, items: seq<Value>)
    requires Orders(c) && ReadsBack(c) && |items| == |parts|
    requires forall i :: 0 <= i < |parts| ==> items[i] < whole && WellFormed(parts[i]) && Typed(parts[i], items[i])
    ensures LoadParts(c, parts, DumpAll(c, whole, items)) == Ok(items)
    decreases parts, 2
  {
    if items != [] {
      RoundTrip(c, parts[0], items[0]);
      PartsRoundTrip(c, parts[1..], whole, items[1..]);
      hide Typed, Load, WellFormed, Dump;
      assert DumpAll(c, whole, items)[1..] == DumpAll(c, whole, items[1..]);
      assert items == [items[0]] + items[1..];
    }
  }

  // Dictionaries

  lemma KeyRoundTrip(c: Codec, t: KeyType, k: Key)
    requires ReadsBack(c) && KeyTyped(t, k)
    ensures LoadKey(c, t, DumpKey(c, k)) == Ok(k)
  {}

  lemma {:induction false} PutMemberNew(members: seq<Member>, name: string, json: Json)
    requires forall i :: 0 <= i < |members| ==> members[i].name != name
    ensures PutMember(members, name, json) == members + [Member(name, json)]
  {
    if members != [] {
      PutMemberNew(members[1..], name, json);
      assert members == [members[0]] + members[1..];
    }
  }

  lemma {:induction false} PutEntryNew(entries: seq<KeyedValue>, key: Key, value: Value)
    requires forall i :: 0 <= i < |entries| ==> entries[i].key != key
    ensures PutEntry(entries, key, value) == entries + [KeyedValue(key, value)]
  {
    if entries != [] {
      PutEntryNew(entries[1..], key, value);
      assert entries == [entries[0]] + entries[1..];
    }
  }

  function Written(c: Codec, e: KeyedValue): Member
    requires Orders(c)
  {
    Member(DumpKey(c, e.key), Dump(c, e.value))
  }

  /** Typed keys are written to distinct texts, so nothing is overwritten. */
  lemma {:induction false} EntriesWritten(c: Codec, key: KeyType, v: Value, n: nat)
    requires Orders(c) && ReadsBack(c) && v.VDict? && n <= |v.entries| && DistinctKeys(v.entries)
    requires forall i :: 0 <= i < |v.entries| ==> KeyTyped(key, v.entries[i].key)
    ensures var r := DumpEntries(c, v, n);
      |r| == n && forall i :: 0 <= i < n ==> r[i] == Written(c, v.entries[i])
  {
    if n > 0 {
      EntriesWritten(c, key, v, n - 1);
      var before, e := DumpEntries(c, v, n - 1), v.entries[n - 1];
      hide Dump, DumpKey, ReadsBack;
      forall i | 0 <= i < n - 1 ensures before[i].name != DumpKey(c, e.key) {
        KeyRoundTrip(c, key, v.entries[i].key);
        KeyRoundTrip(c, key, e.key);
      }
      PutMemberNew(before, DumpKey(c, e.key), Dump(c, e.value));
    }
  }

  lemma {:induction false} EntriesRoundTrip(
    c: Codec, key: KeyType, item: Type, v: Value, members: seq<Member>, i: nat)
    requires Orders(c) && ReadsBack(c) && WellFormed(item) && v.VDict? && i <= |v.entries| == |members|
    requires EntriesTyped(key, item, v.entries)
    requires forall k :: 0 <= k < |members| ==> members[k] == Written(c, v.entries[k])
    ensures LoadEntries(c, key, item, members[i..], v.entries[..i]) == Ok(v.entries)
    decreases item, 2, |members| - i
  {
    if i < |members| {
      var e := v.entries[i];
      assert EntryTyped(key, item, e);
      KeyRoundTrip(c, key, e.key);
      RoundTrip(c, item, e.value);
      EntriesRoundTrip(c, key, item, v, members, i + 1);
      PutEntryNew(v.entries[..i], e.key, e.value);
      hide Typed, WellFormed, Dump, DumpKey, EntriesTyped, EntryTyped, KeyTyped, ReadsBack, Orders, PutEntry,
           LoadEntries;
      assert v.entries[..i] + [e] == v.entries[..i + 1];
      assert members[i..][1..] == members[i + 1..] && members[i..][0] == Written(c, e);
      LoadEntriesCons(c, key, item, members[i..], v.entries[..i], e);
    } else {
      assert v.entries[..i] == v.entries;
    }
  }

  lemma {:induction false} LoadEntriesCons(
    c: Codec, key: KeyType, item: Type, members: seq<Member>, done: seq<KeyedValue>, e: KeyedValue)
    requires members != [] && LoadKey(c, key, members[0].name) == Ok(e.key)
    requires Load(c, item, members[0].json) == Ok(e.value)
    ensures LoadEntries(c, key, item, members, done)
      == LoadEntries(c, key, item, members[1..], PutEntry(done, e.key, e.value))
  {
    hide Load, LoadKey, PutEntry;
  }

  lemma {:induction false} DictRoundTrip(c: Codec, key: KeyType, item: Type, v: Value)
    requires Orders(c) && ReadsBack(c) && WellFormed(item) && Typed(DictType(key, item), v)
    ensures LoadPresent(c, DictType(key, item), Dump(c, v)) == Ok(v)
    decreases item, 3
  {
    var members := DumpEntries(c, v, |v.entries|);
    assert EntriesTyped(key, item, v.entries);
    assert forall i :: 0 <= i < |v.entries| ==> EntryTyped(key, item, v.entries[i]) && KeyTyped(key, v.entries[i].key);
    EntriesWritten(c, key, v, |v.entries|);
    EntriesRoundTrip(c, key, item, v, members, 0);
    hide Typed, Load, WellFormed, DumpEntries;
    assert members[0..] == members && v.entries[..0] == [];
  }

  // Records

  lemma {:induction false} FieldsWritten(c: Codec, whole: Value, fields: seq<NamedValue>, i: nat)
    requires Orders(c) && i < |fields| && forall k :: 0 <= k < |fields| ==> fields[k].value < whole
    ensures DumpFields(c, whole, fields)[i] == Member(fields[i].name, Dump(c, fields[i].value))
    decreases i
  {
    hide Dump;
    if i > 0 { FieldsWritten(c, whole, fields[1..], i - 1); }
  }

  lemma {:induction false} FindDistinct(members: seq<Member>, i: nat)
    requires i < |members| && forall a, b :: 0 <= a < b < |members| ==> members[a].name != members[b].name
    ensures Find(members, members[i].name) == Some(members[i].json)
  {
    if i > 0 { FindDistinct(members[1..], i - 1); }
  }

  /** The object holds every field of the value under its name. */
  ghost predicate Holds(c: Codec, members: seq<Member>, fields: seq<Field>, values: seq<NamedValue>)
    requires Orders(c)
  {
    |fields| == |values| && forall i :: 0 <= i < |fields| ==>
      fields[i].name == values[i].name && Find(members, fields[i].name) == Some(Dump(c, values[i].value))
  }

  lemma {:induction false} FieldsRoundTrip(c: Codec, fields: seq<Field>, members: seq<Member>, values: seq<NamedValue>)
    requires Orders(c) && ReadsBack(c) && Holds(c, members, fields, values)
    requires forall i :: 0 <= i < |fields| ==> WellFormed(fields[i].of) && Typed(fields[i].of, values[i].value)
    ensures LoadFields(c, fields, JObject(members)) == Ok(values)
    decreases fields, 2
  {
    if fields != [] {
      RoundTrip(c, fields[0].of, values[0].value);
      FieldRoundTrip(c, fields[0], members, values[0]);
      HoldsRest(c, members, fields, values);
      FieldsRoundTrip(c, fields[1..], members, values[1..]);
      hide Typed, Load, WellFormed, Dump, LoadField, Holds, ReadsBack, Orders;
      assert values == [values[0]] + values[1..];
    }
  }

  lemma {:induction false} FieldRoundTrip(c: Codec, field: Field, members: seq<Member>, value: NamedValue)
    requires Orders(c) && Find(members, field.name) == Some(Dump(c, value.value))
    requires Load(c, field.of, Dump(c, value.value)) == Ok(value.value)
    ensures LoadField(c, field, JObject(members)) == Ok(value.value)
  {
    hide Dump, Load, Find, Orders;
  }

  lemma {:induction false} HoldsRest(c: Codec, members: seq<Member>, fields: seq<Field>, values: seq<NamedValue>)
    requires Orders(c) && Holds(c, members, fields, values) && fields != []
    ensures Holds(c, members, fields[1..], values[1..])
    ensures fields[0].name == values[0].name && Find(members, fields[0].name) == Some(Dump(c, values[0].value))
  {
    hide Dump, Find, Orders;
  }

  lemma {:induction false} RecordHolds(c: Codec, fields: seq<Field>, v: Value)
    requires Orders(c) && v.VRecord? && FieldsTyped(fields, v.fields) && DistinctNames(fields)
    ensures Holds(c, DumpFields(c, v, v.fields), fields, v.fields)
  {
    var members := DumpFields(c, v, v.fields);
    forall i | 0 <= i < |fields| ensures members[i] == Member(v.fields[i].name, Dump(c, v.fields[i].value)) {
      FieldsWritten(c, v, v.fields, i);
    }
    hide Dump, Typed, DumpFields;
    forall i | 0 <= i < |fields| ensures Find(members, fields[i].name) == Some(Dump(c, v.fields[i].value)) {
      FindDistinct(members, i);
    }
  }

  lemma {:induction false} RecordRoundTrip(c: Codec, t: Type, v: Value)
    requires Orders(c) && ReadsBack(c) && WellFormed(t) && t.RecordType? && Typed(t, v)
    ensures LoadPresent(c, t, Dump(c, v)) == Ok(v)
    decreases t.fields, 3
  {
    var members := DumpFields(c, v, v.fields);
    RecordHolds(c, t.fields, v);
    assert forall i :: 0 <= i < |t.fields| ==> WellFormed(t.fields[i].of) && Typed(t.fields[i].of, v.fields[i].value);
    FieldsRoundTrip(c, t.fields, members, v.fields);
    hide Typed, Load, WellFormed, DumpFields, LoadFields;
  }

  /** Different values of a type are written differently. */
  lemma {:induction false} DumpInjective(c: Codec, t: Type, v: Value, w: Value)
    requires Orders(c) && ReadsBack(c) && WellFormed(t) && Typed(t, v) && Typed(t, w)
    requires Dump(c, v) == Dump(c, w)
    ensures v == w
  {
    RoundTrip(c, t, v);
    RoundTrip(c, t, w);
    hide Dump, Load, Typed, WellFormed;
  }

  /** Reading normalises once: what was read, written and read again, is the same. */
  lemma {:induction false} ReadingIsStable(c: Codec, t: Type, j: Json)
    requires Orders(c) && ReadsBack(c) && WellFormed(t) && Load(c, t, j).Ok?
    ensures Load(c, t, Dump(c, Load(c, t, j).value)) == Load(c, t, j)
  {
    LoadIsTyped(c, t, j);
    RoundTrip(c, t, Load(c, t, j).value);
    hide Dump, Load, Typed, WellFormed;
  }

  // ---------------------------------------------------------------------
  // Records that were stored with other fields

  /** The first member of that name, if there is one. */
  predicate FirstNamed(members: seq<Member>, name: string, k: int) {
    0 <= k < |members| && members[k].name == name && forall i :: 0 <= i < k ==> members[i].name != name
  }

  lemma {:induction false} FindsFirst(members: seq<Member>, name: string)
    ensures match Find(members, name)
            case None => forall k :: 0 <= k < |members| ==> members[k].name != name
            case Some(json) => exists k :: FirstNamed(members, name, k) && members[k].json == json
  {
    if members != [] {
      if members[0].name == name {
        assert FirstNamed(members, name, 0);
      } else {
        FindsFirst(members[1..], name);
        if Find(members, name).Some? {
          var k :| FirstNamed(members[1..], name, k) && members[1..][k].json == Find(members, name).value;
          assert FirstNamed(members, name, k + 1);
        }
      }
    }
  }

  /** What a field is read as: the datum of its name, or else its default, if it has one. */
  ghost predicate FieldReads(c: Codec, field: Field, members: seq<Member>, r: Loaded<Value>) {
    if forall k :: 0 <= k < |members| ==> members[k].name != field.name then
      match field.default case Some(value) => r == Ok(value) case None => r == Fail(ValueError)
    else exists k :: FirstNamed(members, field.name, k) && r == Load(c, field.of, members[k].json)
  }

  lemma FieldIsRead(c: Codec, field: Field, members: seq<Member>)
    ensures FieldReads(c, field, members, LoadField(c, field, JObject(members)))
  {
    FindsFirst(members, field.name);
    hide Load;
  }

  /** A record is read field by field, whatever else was stored with it: a field that was not
      stored takes its default, and a field without one makes the record unreadable. */
  lemma {:induction false} OtherRecordsRead(c: Codec, fields: seq<Field>, members: seq<Member>)
    ensures match LoadFields(c, fields, JObject(members))
            case Ok(values) =>
              && |values| == |fields|
              && forall n :: 0 <= n < |fields| ==>
                   && values[n].name == fields[n].name
                   && FieldReads(c, fields[n], members, Ok(values[n].value))
            case Fail(e) => exists n :: 0 <= n < |fields| && FieldReads(c, fields[n], members, Fail(e))
  {
    if fields != [] {
      FieldIsRead(c, fields[0], members);
      OtherRecordsRead(c, fields[1..], members);
      hide FieldReads, LoadField;
      match LoadFields(c, fields[1..], JObject(members)) {
        case Ok(rest) =>
        case Fail(e) =>
          var n :| 0 <= n < |fields[1..]| && FieldReads(c, fields[1..][n], members, Fail(e));
          assert fields[n + 1] == fields[1..][n];
      }
    }
  }

  /** An object is read as the fields that the constructor makes of those that were read. */
  lemma RecordIsRead(c: Codec, fields: seq<Field>, behaviour: Behaviour, members: seq<Member>)
    requires Load(c, RecordType(fields, behaviour), JObject(members)).Ok?
    ensures var values := LoadFields(c, fields, JObject(members));
      && values.Ok? && behaviour.normalise(values.value).Some?
      && Load(c, RecordType(fields, behaviour), JObject(members))
         == Ok(VRecord(behaviour.normalise(values.value).value))
  {
    hide LoadFields;
  }

  ghost predicate Occurs(a: string, b: string) { exists x: string, y: string :: b == x + a + y }

  lemma {:induction false} SubstringOccurs(a: string, b: string)
    ensures Substring(a, b) <==> Occurs(a, b)
  {
    if Substring(a, b) {
      var x, y := SubstringAt(a, b);
      assert b == x + a + y;
    }
    if x: string, y: string :| b == x + a + y { OccursAt(x, a, y); }
  }

  lemma {:induction false} SubstringAt(a: string, b: string) returns (x: string, y: string)
    requires Substring(a, b)
    ensures b == x + a + y
    decreases |b|
  {
    if b[..|a|] == a {
      x, y := [], b[|a|..];
    } else {
      x, y := SubstringAt(a, b[1..]);
      x := [b[0]] + x;
      assert b == [b[0]] + b[1..];
    }
  }

  lemma {:induction false} OccursAt(x: string, a: string, y: string)
    ensures Substring(a, x + a + y)
    decreases |x|
  {
    var b := x + a + y;
    if x == [] {
      assert b[..|a|] == a;
    } else {
      assert b[1..] == x[1..] + a + y;
      OccursAt(x[1..], a, y);
    }
  }

  /** A field sought in a plain text is an error that is not a ValueError where its name occurs
      in the text, and takes its default, if it has one, where it does not. */
  lemma FieldOfText(c: Codec, field: Field, text: string)
    ensures LoadField(c, field, JStr(text)) ==
      if Occurs(field.name, text) then Fail(OtherError)
      else match field.default case Some(value) => Ok(value) case None => Fail(ValueError)
  {
    SubstringOccurs(field.name, text);
    hide Substring;
  }
}
