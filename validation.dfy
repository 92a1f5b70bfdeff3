/**
 * The Zod schemas `TestSchema` and `ReportSchema`, as data interpreted by `Accepts`: whether
 * `schema.safeParse(value).success` holds.
 *
 * Only the Zod combinators the two schemas use are modelled: `z.string()`, `z.number()`,
 * `z.enum([...])`, `z.array(...)`, `z.object({...})` (which accepts only a non-null,
 * non-array object and ignores keys it does not list) and `.optional()` (which also accepts
 * `undefined`, that is, an absent key).
 */
module Validation {
  import opened Wrappers
  import opened Json

  datatype Schema =
    | Str
    | Num
    | Enum(options: seq<string>)
    | Arr(item: Schema)
    | Obj(shape: seq<Prop>)
    | Optional(inner: Schema)

  /** One key of a `z.object` shape and the schema its value must meet. */
  datatype Prop = Prop(key: string, schema: Schema)

  /** Whether `schema` accepts `v`, where `None` stands for `undefined`. */
  predicate Accepts(schema: Schema, v: Option<Json>)
    decreases schema
  {
    match schema
    case Str => v.Some? && v.value.JStr?
    case Num => v.Some? && v.value.JNum?
    case Enum(options) => v.Some? && v.value.JStr? && v.value.s in options
    case Arr(item) =>
      v.Some? && v.value.JArr? &&
      forall k :: 0 <= k < |v.value.elems| ==> Accepts(item, Some(v.value.elems[k]))
    case Obj(shape) =>
      v.Some? && v.value.JObj? &&
      forall k :: 0 <= k < |shape| ==> Accepts(shape[k].schema, Member(v.value, shape[k].key))
    case Optional(inner) => v.None? || Accepts(inner, v)
  }

  const TestStatuses: seq<string> := ["low", "normal", "high", "critical", "unknown"]

  const RefRangeSchema: Schema := Obj([Prop("low", Optional(Num)), Prop("high", Optional(Num))])

  const TestSchema: Schema :=
    Obj([
      Prop("name", Str),
      Prop("value", Num),
      Prop("unit", Str),
      Prop("status", Enum(TestStatuses)),
      Prop("ref_range", Optional(RefRangeSchema))
    ])

  const ReportStatuses: seq<string> := ["ok", "unprocessed"]

  const ReportSchema: Schema :=
    Obj([
      Prop("tests", Arr(TestSchema)),
      Prop("summary", Str),
      Prop("status", Enum(ReportStatuses))
    ])

  // A field-by-field reading of the two schemas, written without the interpreter.

  predicate IsString(v: Option<Json>) { v.Some? && v.value.JStr? }

  predicate IsNumber(v: Option<Json>) { v.Some? && v.value.JNum? }

  predicate IsStringIn(v: Option<Json>, options: set<string>) { IsString(v) && v.value.s in options }

  predicate AbsentOrNumber(v: Option<Json>) { v.None? || IsNumber(v) }

  /** A reference range: absent, or an object whose `low` and `high` are each absent or a number. */
  predicate IsRefRange(v: Option<Json>)
  {
    v.None? ||
    (v.value.JObj? && AbsentOrNumber(Member(v.value, "low")) && AbsentOrNumber(Member(v.value, "high")))
  }

  predicate IsTest(v: Json)
  {
    v.JObj? &&
    IsString(Member(v, "name")) &&
    IsNumber(Member(v, "value")) &&
    IsString(Member(v, "unit")) &&
    IsStringIn(Member(v, "status"), {"low", "normal", "high", "critical", "unknown"}) &&
    IsRefRange(Member(v, "ref_range"))
  }

  predicate IsTestList(v: Option<Json>)
  {
    v.Some? && v.value.JArr? && forall k :: 0 <= k < |v.value.elems| ==> IsTest(v.value.elems[k])
  }

  predicate IsReport(v: Json)
  {
    v.JObj? &&
    IsTestList(Member(v, "tests")) &&
    IsString(Member(v, "summary")) &&
    IsStringIn(Member(v, "status"), {"ok", "unprocessed"})
  }

  /** `TestSchema` accepts exactly the objects `IsTest` describes. */
  lemma TestSchemaFields(v: Json)
    ensures Accepts(TestSchema, Some(v)) <==> IsTest(v)
  {
    RefRangeFields(Member(v, "ref_range"));
    if v.JObj? {
      var shape := TestSchema.shape;
      assert shape[0] == Prop("name", Str) && shape[1] == Prop("value", Num);
      assert shape[2] == Prop("unit", Str) && shape[3] == Prop("status", Enum(TestStatuses));
      assert shape[4] == Prop("ref_range", Optional(RefRangeSchema));
    }
  }

  lemma RefRangeFields(v: Option<Json>)
    ensures Accepts(Optional(RefRangeSchema), v) <==> IsRefRange(v)
  {
    if v.Some? && v.value.JObj? {
      var shape := RefRangeSchema.shape;
      assert shape[0] == Prop("low", Optional(Num)) && shape[1] == Prop("high", Optional(Num));
    }
  }

  /** `ReportSchema` accepts exactly the objects `IsReport` describes. */
  lemma ReportSchemaFields(v: Json)
    ensures Accepts(ReportSchema, Some(v)) <==> IsReport(v)
  {
    var tests := Member(v, "tests");
    if tests.Some? && tests.value.JArr? {
      forall k | 0 <= k < |tests.value.elems|
        ensures Accepts(TestSchema, Some(tests.value.elems[k])) <==> IsTest(tests.value.elems[k])
      {
        TestSchemaFields(tests.value.elems[k]);
      }
    }
    if v.JObj? {
      var shape := ReportSchema.shape;
      assert shape[0] == Prop("tests", Arr(TestSchema)) && shape[1] == Prop("summary", Str);
      assert shape[2] == Prop("status", Enum(ReportStatuses));
    }
  }

  /** A `z.object` ignores every key its shape does not list. */
  lemma ObjIgnoresUnlistedKey(shape: seq<Prop>, members: map<string, Json>, key: string, x: Json)
    requires forall k :: 0 <= k < |shape| ==> shape[k].key != key
    ensures Accepts(Obj(shape), Some(JObj(members[key := x]))) == Accepts(Obj(shape), Some(JObj(members)))
  {
    forall k | 0 <= k < |shape|
      ensures Member(JObj(members[key := x]), shape[k].key) == Member(JObj(members), shape[k].key)
    {
    }
  }

  /** A report's other members, such as `explanations` and `normalization_confidence`, do not matter. */
  lemma ReportIgnoresOtherKeys(members: map<string, Json>, key: string, x: Json)
    requires key !in {"tests", "summary", "status"}
    ensures Accepts(ReportSchema, Some(JObj(members[key := x]))) == Accepts(ReportSchema, Some(JObj(members)))
  {
    ObjIgnoresUnlistedKey(ReportSchema.shape, members, key, x);
  }

  /**
   * The status check is case-sensitive: a test whose `status` is `"Low"`, `"High"` or
   * `"Normal"`, as the prompt asks the model to write it, is rejected.
   */
  lemma CapitalisedStatusRejected(v: Json)
    requires v.JObj? && Member(v, "status") in {Some(JStr("Low")), Some(JStr("High")), Some(JStr("Normal"))}
    ensures !Accepts(TestSchema, Some(v))
  {
    TestSchemaFields(v);
  }

  /** A report whose `status` is `"error"` is rejected. */
  lemma ErrorStatusRejected(v: Json)
    requires Member(v, "status") == Some(JStr("error"))
    ensures !Accepts(ReportSchema, Some(v))
  {
    ReportSchemaFields(v);
  }
}
