/** The payload gate of the `/api/send` handler: `required` and the
    all-four-fields check. */
module Validation {
  import opened Wrappers
  import opened Js

  /** A request body after JSON parsing: `None` when `req.body` is falsy (the
      handler then destructures `{}`), otherwise the body's own properties. */
  type Body = Option<map<string, JsValue>>

  /** The four fields of a submission once all of them passed `required`. */
  datatype Submission = Submission(carNumber: string, phone: string, region: string, mileage: string)

  /** Destructuring `const { name } = req.body || {}`: a missing property is `undefined`. */
  function Field(body: Body, name: string): JsValue {
    if body.Some? && name in body.value then body.value[name] else Undefined
  }

  /** `[carNumber, phone, region, mileage]`, in that order. */
  function Fields(body: Body): (vs: seq<JsValue>)
    ensures |vs| == 4
  {
    [Field(body, "carNumber"), Field(body, "phone"), Field(body, "region"), Field(body, "mileage")]
  }

  /** `required(v)`: `v` is a string and `v.trim()` is not empty. */
  predicate Required(v: JsValue) {
    v.Str? && Trim(v.s) != ""
  }

  /** A value is required-valid exactly when it is a string holding at least one
      character that is not white space; whatever is not a string fails. */
  lemma RequiredIff(v: JsValue)
    ensures Required(v) <==> v.Str? && exists i :: 0 <= i < |v.s| && !IsWhiteSpace(v.s[i])
  {
  }

  /** `vs.every(required)`. */
  function EveryRequired(vs: seq<JsValue>): (ok: bool)
    ensures ok <==> forall i :: 0 <= i < |vs| ==> Required(vs[i])
  {
    if vs == [] then true else Required(vs[0]) && EveryRequired(vs[1..])
  }

  /** The gate at the top of the handler: the submission when every field is
      required-valid, `None` (answered with 400 `invalid_payload`) otherwise. */
  function Validate(body: Body): (r: Option<Submission>)
    ensures r.Some? <==>
      && Required(Field(body, "carNumber")) && Required(Field(body, "phone"))
      && Required(Field(body, "region")) && Required(Field(body, "mileage"))
    ensures r.Some? ==>
      && Field(body, "carNumber") == Str(r.value.carNumber) && Field(body, "phone") == Str(r.value.phone)
      && Field(body, "region") == Str(r.value.region) && Field(body, "mileage") == Str(r.value.mileage)
  {
    var vs := Fields(body);
    if EveryRequired(vs) then
      assert Required(vs[0]) && Required(vs[1]) && Required(vs[2]) && Required(vs[3]);
      Some(Submission(vs[0].s, vs[1].s, vs[2].s, vs[3].s))
    else
      None
  }

  /** A numeric `mileage` (JSON `50000` rather than `"50000"`) is rejected,
      whatever the other fields are. */
  lemma NumericMileageRejected(body: Body)
    requires Field(body, "mileage").Num?
    ensures Validate(body) == None
  {
  }
}
