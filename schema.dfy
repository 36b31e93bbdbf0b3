/** The part of Mongoose's document validation that the two schemas use:
    `required` and `enum` validators on a path, run in that order with the
    first failure reported for the path, and every failing path collected into
    one validation error. */
module Schema {
  import opened Wrappers
  import Strings

  /** Store-assigned document identifiers (`_id`), shared by both schemas. */
  type ObjectId = nat

  /** A failed validator on one path. */
  datatype FieldError = FieldError(path: string, message: string)

  /** Mongoose's message for `required: true` without a custom message. */
  function RequiredMessage(path: string): string
  {
    "Path `" + path + "` is required."
  }

  /** Mongoose's message for a value outside an `enum`. */
  function EnumMessage(path: string, value: string): string
  {
    "`" + value + "` is not a valid enum value for path `" + path + "`."
  }

  /** A String path: a `required` validator (with its message) rejects an
      absent or empty string, then an `enum` validator rejects a present value
      outside the list. An absent value skips every validator but `required`. */
  function CheckString(path: string, v: Option<string>, required: Option<string>, allowed: Option<seq<string>>)
    : (errs: seq<FieldError>)
    ensures |errs| <= 1
    ensures forall e :: e in errs ==> e.path == path
    ensures errs == [] <==>
      (required.Some? ==> v.Some? && v.value != "")
      && (allowed.Some? && v.Some? ==> v.value in allowed.value)
  {
    if required.Some? && (v.None? || v.value == "") then [FieldError(path, required.value)]
    else if allowed.Some? && v.Some? && v.value !in allowed.value then [FieldError(path, EnumMessage(path, v.value))]
    else []
  }

  /** A required Number, Date, ObjectId, array or subdocument path: only an
      absent value fails. */
  function CheckPresent<T>(path: string, v: Option<T>, message: string): (errs: seq<FieldError>)
    ensures errs == [] <==> v.Some?
    ensures errs != [] ==> errs == [FieldError(path, message)]
  {
    if v.None? then [FieldError(path, message)] else []
  }

  /** The `path: message` entries of a validation error, one per error, in
      the order of the list given. */
  function Describe(errs: seq<FieldError>): (lines: seq<string>)
    ensures |lines| == |errs|
    ensures forall i :: 0 <= i < |errs| ==> lines[i] == errs[i].path + ": " + errs[i].message
  {
    if errs == [] then [] else [errs[0].path + ": " + errs[0].message] + Describe(errs[1..])
  }

  /** The message of Mongoose's ValidationError for a model: the model name
      and "validation failed: ", then the `path: message` entries separated by
      ", "; a single error is that one entry. For several errors the entries
      follow the list given, which need not be the order Mongoose reports. */
  function ValidationMessage(model: string, errs: seq<FieldError>): (msg: string)
    ensures Strings.StartsWith(msg, model + " validation failed: ")
    ensures |errs| == 1 ==> msg == model + " validation failed: " + errs[0].path + ": " + errs[0].message
  {
    model + " validation failed: " + Strings.JoinWith(Describe(errs), ", ")
  }
}
