/** The records of the configuration whose constructors do more than store their fields. */
module SerdeModels {
  import opened Domain
  import opened Serde

  // ---------------------------------------------------------------------
  // Zone steps: an override of nothing is no override

  const ZONE_STEP_FIELDS: seq<Field> := [
    Field("zone_id", StrType, None),
    Field("position", IntType, None),
    Field("enabled", BoolType, Some(VBool(true))),
    Field("requested_offset_seconds", IntType, Some(VInt(0))),
    Field("base_runtime_override_minutes", OptionalType(TextType(DecimalText)), Some(VNone)),
    Field("max_cycle_minutes_override", OptionalType(IntType), Some(VNone)),
    Field("minimum_soak_minutes_override", OptionalType(IntType), Some(VNone))]

  /** `zeros` are the decimals equal to zero. */
  function NormaliseZoneStep(zeros: set<int>, values: seq<NamedValue>): Option<seq<NamedValue>> {
    if |values| != 7 then None
    else
      var base, most := values[4], values[5];
      Some(values[4 := if base.value.VText? && base.value.atom in zeros then base.(value := VNone) else base]
                 [5 := if most.value.VInt? && most.value.number <= 0 then most.(value := VNone) else most])
  }

  function ZoneStepType(zeros: set<int>): Type {
    RecordType(ZONE_STEP_FIELDS, Behaviour(values => NormaliseZoneStep(zeros, values), None))
  }

  lemma {:induction false} ZoneStepNormal(zeros: set<int>, values: seq<NamedValue>)
    requires FieldsTyped(ZONE_STEP_FIELDS, values)
    ensures NormaliseZoneStep(zeros, values).Some?
    ensures Constructs(ZONE_STEP_FIELDS, ZoneStepType(zeros).behaviour, NormaliseZoneStep(zeros, values).value)
  {
    var r := NormaliseZoneStep(zeros, values).value;
    hide Typed;
    assert r[4].value == values[4].value || r[4].value == VNone;
    assert values[4].name == ZONE_STEP_FIELDS[4].name && Typed(ZONE_STEP_FIELDS[4].of, values[4].value);
    assert values[5].name == ZONE_STEP_FIELDS[5].name && Typed(ZONE_STEP_FIELDS[5].of, values[5].value);
    forall i | 0 <= i < 7 ensures r[i].name == ZONE_STEP_FIELDS[i].name && Typed(ZONE_STEP_FIELDS[i].of, r[i].value) {
      assert values[i].name == ZONE_STEP_FIELDS[i].name && Typed(ZONE_STEP_FIELDS[i].of, values[i].value);
    }
    assert NormaliseZoneStep(zeros, r).value == r;
  }

  lemma ZoneStepWellFormed(zeros: set<int>)
    ensures WellFormed(ZoneStepType(zeros))
  {
    ZoneStepFields();
    forall values | FieldsTyped(ZONE_STEP_FIELDS, values)
      ensures Constructs(ZONE_STEP_FIELDS, ZoneStepType(zeros).behaviour, NormaliseZoneStep(zeros, values).value)
    {
      ZoneStepNormal(zeros, values);
    }
    hide FieldsTyped, NormaliseZoneStep, DistinctNames, Constructs, DefaultTyped;
  }

  lemma ZoneStepFields()
    ensures DistinctNames(ZONE_STEP_FIELDS)
    ensures forall i :: 0 <= i < |ZONE_STEP_FIELDS| ==>
      WellFormed(ZONE_STEP_FIELDS[i].of) && DefaultTyped(ZONE_STEP_FIELDS[i])
  {}

  // ---------------------------------------------------------------------
  // Start times: of the clock, or of the sun within ten hours

  const MAX_SOLAR_OFFSET_MINUTES := 600

  const START_TIME_FIELDS: seq<Field> := [
    Field("kind", EnumType({"clock", "sunrise", "sunset"}), Some(VEnum("clock"))),
    Field("at", OptionalType(TextType(TimeText)), Some(VNone)),
    Field("offset_minutes", IntType, Some(VInt(0)))]

  function NormaliseStartTime(values: seq<NamedValue>): Option<seq<NamedValue>> {
    if |values| != 3 then None
    else if values[0].value == VEnum("clock") then
      if values[1].value == VNone then None else Some(values[2 := values[2].(value := VInt(0))])
    else if !values[2].value.VInt? then None
    else if Max(values[2].value.number, -values[2].value.number) > MAX_SOLAR_OFFSET_MINUTES then None
    else Some(values[1 := values[1].(value := VNone)])
  }

  /** A plain string of an older store is a time of the clock. */
  function LegacyStartTime(parse: string -> Option<int>, text: string): Option<seq<NamedValue>> {
    match parse(text)
    case Some(atom) =>
      Some([NamedValue("kind", VEnum("clock")), NamedValue("at", VText(TimeText, atom)),
            NamedValue("offset_minutes", VInt(0))])
    case None => None
  }

  function StartTimeType(parse: string -> Option<int>): Type {
    RecordType(START_TIME_FIELDS, Behaviour(NormaliseStartTime, Some(text => LegacyStartTime(parse, text))))
  }

  lemma {:induction false} StartTimeNormal(values: seq<NamedValue>)
    requires FieldsTyped(START_TIME_FIELDS, values) && NormaliseStartTime(values).Some?
    ensures var r := NormaliseStartTime(values).value;
      FieldsTyped(START_TIME_FIELDS, r) && NormaliseStartTime(r) == Some(r)
  {
    var r := NormaliseStartTime(values).value;
    forall i | 0 <= i < 3 ensures r[i].name == START_TIME_FIELDS[i].name && Typed(START_TIME_FIELDS[i].of, r[i].value) {
      assert values[i].name == START_TIME_FIELDS[i].name && Typed(START_TIME_FIELDS[i].of, values[i].value);
    }
    assert NormaliseStartTime(r).value == r;
  }

  lemma LegacyNormal(parse: string -> Option<int>, text: string)
    requires LegacyStartTime(parse, text).Some?
    ensures var r := LegacyStartTime(parse, text).value;
      FieldsTyped(START_TIME_FIELDS, r) && NormaliseStartTime(r) == Some(r)
  {
    var r := LegacyStartTime(parse, text).value;
    assert forall i :: 0 <= i < 3 ==>
      r[i].name == START_TIME_FIELDS[i].name && Typed(START_TIME_FIELDS[i].of, r[i].value);
    assert NormaliseStartTime(r).value == r;
  }

  lemma StartTimeWellFormed(parse: string -> Option<int>)
    ensures WellFormed(StartTimeType(parse))
  {
    var behaviour := StartTimeType(parse).behaviour;
    forall values | FieldsTyped(START_TIME_FIELDS, values) && NormaliseStartTime(values).Some?
      ensures Constructs(START_TIME_FIELDS, behaviour, NormaliseStartTime(values).value)
    {
      StartTimeNormal(values);
    }
    forall text | LegacyStartTime(parse, text).Some?
      ensures Constructs(START_TIME_FIELDS, behaviour, LegacyStartTime(parse, text).value)
    {
      LegacyNormal(parse, text);
    }
    hide FieldsTyped, NormaliseStartTime, LegacyStartTime;
  }

  // ---------------------------------------------------------------------
  // What a store holds

  /** However it was written, a zone step is read without an override of nothing, and read
      back as it is once it has been read. */
  lemma {:induction false} StoredZoneStep(c: Codec, zeros: set<int>, j: Json)
    requires Orders(c) && ReadsBack(c) && Load(c, ZoneStepType(zeros), j).Ok?
    ensures var v := Load(c, ZoneStepType(zeros), j).value;
      && v.VRecord? && |v.fields| == 7
      && (v.fields[4].value == VNone || (v.fields[4].value.VText? && v.fields[4].value.atom !in zeros))
      && (v.fields[5].value == VNone || (v.fields[5].value.VInt? && v.fields[5].value.number > 0))
      && Load(c, ZoneStepType(zeros), Dump(c, v)) == Ok(v)
  {
    var t := ZoneStepType(zeros);
    hide *;
    ZoneStepWellFormed(zeros);
    LoadIsTyped(c, t, j);
    RoundTrip(c, t, Load(c, t, j).value);
    TypedZoneStep(zeros, Load(c, t, j).value);
  }

  lemma {:induction false} TypedZoneStep(zeros: set<int>, v: Value)
    requires Typed(ZoneStepType(zeros), v)
    ensures v.VRecord? && |v.fields| == 7
    ensures v.fields[4].value == VNone || (v.fields[4].value.VText? && v.fields[4].value.atom !in zeros)
    ensures v.fields[5].value == VNone || (v.fields[5].value.VInt? && v.fields[5].value.number > 0)
  {
    assert v.VRecord? && FieldsTyped(ZONE_STEP_FIELDS, v.fields);
    assert NormaliseZoneStep(zeros, v.fields) == Some(v.fields) by { hide FieldsTyped; }
    assert Typed(ZONE_STEP_FIELDS[4].of, v.fields[4].value) && Typed(ZONE_STEP_FIELDS[5].of, v.fields[5].value);
    hide FieldsTyped;
  }

  /** Likewise a start time, also one read from a plain string: a clock time has its time and
      no offset, a solar one no time and an offset within ten hours. */
  lemma {:induction false} StoredStartTime(c: Codec, parse: string -> Option<int>, j: Json)
    requires Orders(c) && ReadsBack(c) && Load(c, StartTimeType(parse), j).Ok?
    ensures var v := Load(c, StartTimeType(parse), j).value;
      && v.VRecord? && |v.fields| == 3
      && (if v.fields[0].value == VEnum("clock") then v.fields[1].value.VText? && v.fields[2].value == VInt(0)
          else v.fields[1].value == VNone && v.fields[2].value.VInt? && -600 <= v.fields[2].value.number <= 600)
      && Load(c, StartTimeType(parse), Dump(c, v)) == Ok(v)
  {
    var t := StartTimeType(parse);
    hide *;
    StartTimeWellFormed(parse);
    LoadIsTyped(c, t, j);
    RoundTrip(c, t, Load(c, t, j).value);
    TypedStartTime(parse, Load(c, t, j).value);
  }

  lemma {:induction false} TypedStartTime(parse: string -> Option<int>, v: Value)
    requires Typed(StartTimeType(parse), v)
    ensures v.VRecord? && |v.fields| == 3
    ensures if v.fields[0].value == VEnum("clock") then v.fields[1].value.VText? && v.fields[2].value == VInt(0)
            else v.fields[1].value == VNone && v.fields[2].value.VInt? && -600 <= v.fields[2].value.number <= 600
  {
    assert v.VRecord? && FieldsTyped(START_TIME_FIELDS, v.fields);
    assert NormaliseStartTime(v.fields) == Some(v.fields) by { hide FieldsTyped; }
    assert Typed(START_TIME_FIELDS[1].of, v.fields[1].value) && Typed(START_TIME_FIELDS[2].of, v.fields[2].value);
    hide FieldsTyped;
  }

  // ---------------------------------------------------------------------
  // What is read of records that lack fields, and what the constructor changes

  predicate Lacks(members: seq<Member>, name: string) { forall k :: 0 <= k < |members| ==> members[k].name != name }

  /** The constructor drops a runtime override of zero and a cycle override of zero or less, and
      changes nothing else. */
  lemma ZoneStepKeeps(zeros: set<int>, values: seq<NamedValue>, i: nat)
    requires |values| == 7 && i < 7
    ensures var (before, after) := (values[i], NormaliseZoneStep(zeros, values).value[i]);
      && after.name == before.name
      && (if (i == 4 && before.value.VText? && before.value.atom in zeros)
             || (i == 5 && before.value.VInt? && before.value.number < 1)
          then after.value == VNone else after.value == before.value)
  {}

  /** A start time is accepted exactly with a time for the clock, or an offset of ten hours at
      most for the sun; the constructor clears what does not belong to its kind, and no more. */
  lemma StartTimeAccepted(values: seq<NamedValue>)
    requires |values| == 3 && values[2].value.VInt?
    ensures var (clock, offset, r) :=
        (values[0].value == VEnum("clock"), values[2].value.number, NormaliseStartTime(values));
      && (r.Some? <==> if clock then values[1].value != VNone else -600 <= offset <= 600)
      && (r.Some? ==>
            && |r.value| == 3 && r.value[0] == values[0]
            && r.value[1] == (if clock then values[1] else values[1].(value := VNone))
            && r.value[2] == (if clock then values[2].(value := VInt(0)) else values[2]))
  {}

  /** A zone step that was stored without them is enabled, at offset 0, and overrides nothing. */
  lemma OldZoneStep(c: Codec, zeros: set<int>, members: seq<Member>)
    requires Load(c, ZoneStepType(zeros), JObject(members)).Ok?
    ensures var r := Load(c, ZoneStepType(zeros), JObject(members)).value;
      && r.VRecord? && |r.fields| == 7
      && (Lacks(members, "enabled") ==> r.fields[2].value == VBool(true))
      && (Lacks(members, "requested_offset_seconds") ==> r.fields[3].value == VInt(0))
      && (Lacks(members, "base_runtime_override_minutes") ==> r.fields[4].value == VNone)
      && (Lacks(members, "max_cycle_minutes_override") ==> r.fields[5].value == VNone)
      && (Lacks(members, "minimum_soak_minutes_override") ==> r.fields[6].value == VNone)
  {
    ZoneStepLoaded(c, zeros, members);
    var values := LoadFields(c, ZONE_STEP_FIELDS, JObject(members)).value;
    var r := Load(c, ZoneStepType(zeros), JObject(members)).value;
    hide Load, LoadFields, NormaliseZoneStep, ZoneStepType;
    forall n | 2 <= n < 7 && Lacks(members, ZONE_STEP_FIELDS[n].name)
      ensures Some(r.fields[n].value) == ZONE_STEP_FIELDS[n].default
    {
      ZoneStepField(c, members, n);
      ZoneStepKeeps(zeros, values, n);
    }
  }

  lemma ZoneStepLoaded(c: Codec, zeros: set<int>, members: seq<Member>)
    requires Load(c, ZoneStepType(zeros), JObject(members)).Ok?
    ensures var values := LoadFields(c, ZONE_STEP_FIELDS, JObject(members));
      && values.Ok? && |values.value| == 7 && NormaliseZoneStep(zeros, values.value).Some?
      && Load(c, ZoneStepType(zeros), JObject(members)) == Ok(VRecord(NormaliseZoneStep(zeros, values.value).value))
      && |NormaliseZoneStep(zeros, values.value).value| == 7
  {
    OtherRecordsRead(c, ZONE_STEP_FIELDS, members);
    hide FieldReads, LoadFields, Load;
    RecordIsRead(c, ZONE_STEP_FIELDS, ZoneStepType(zeros).behaviour, members);
  }

  lemma ZoneStepField(c: Codec, members: seq<Member>, n: nat)
    requires n < 7 && ZONE_STEP_FIELDS[n].default.Some? && Lacks(members, ZONE_STEP_FIELDS[n].name)
    requires LoadFields(c, ZONE_STEP_FIELDS, JObject(members)).Ok?
    ensures var values := LoadFields(c, ZONE_STEP_FIELDS, JObject(members)).value;
      |values| == 7 && Some(values[n].value) == ZONE_STEP_FIELDS[n].default
  {
    OtherRecordsRead(c, ZONE_STEP_FIELDS, members);
    hide LoadFields, Load;
    var values := LoadFields(c, ZONE_STEP_FIELDS, JObject(members)).value;
    assert FieldReads(c, ZONE_STEP_FIELDS[n], members, Ok(values[n].value));
  }
}
