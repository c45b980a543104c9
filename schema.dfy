/**
 * The built-in Mongoose validators the schemas of this model use, with the
 * messages Mongoose reports for them. A path missing from a document is
 * None; a validator other than `required` is not run on a missing path.
 */
module Schema {
  import opened Wrappers
  import opened Strings

  /** `required` on a String path: absent and empty strings both fail. */
  function RequiredString(v: Option<string>, message: string): (r: seq<string>)
    ensures r == [] <==> v.Some? && v.value != ""
    ensures r != [] ==> r == [message]
  {
    if v.None? || v.value == "" then [message] else []
  }

  /** `required` on a Number, Date or ObjectId path: only an absent value fails. */
  function Required<T>(v: Option<T>, message: string): (r: seq<string>)
    ensures r == [] <==> v.Some?
    ensures r != [] ==> r == [message]
  {
    if v.None? then [message] else []
  }

  /** The default message of an `enum` validator. */
  function EnumMessage(value: string, path: string): string {
    "`" + value + "` is not a valid enum value for path `" + path + "`."
  }

  /** The default message of a `min` validator. */
  function MinMessage(path: string, value: int, min: int): string {
    "Path `" + path + "` (" + IntToString(value) + ") is less than minimum allowed value (" + IntToString(min) + ")."
  }
}
