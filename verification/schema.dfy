/**
 * How the schema library the actions use reports a field. A field either
 * fails its type test, which aborts the field and the enclosing object (so
 * an object-level refinement does not run), or passes it, after which every
 * declared check runs and each failing one adds its message. `flatten()`
 * turns the issues into a map from field name to its messages, in order,
 * holding only fields that have at least one.
 */
module Schema {
  import opened Wrappers
  import opened Js
  import opened Messages

  datatype FieldCheck<T> = Aborted(messages: seq<Message>) | Checked(value: T, messages: seq<Message>)
  {
    /** The field produced a value and no issue. */
    predicate Ok() {
      Checked? && messages == []
    }
  }

  /** `z.string().min(1, minMessage)` on a value that may be missing. */
  function NonEmptyString(v: Option<string>, missing: Message, minMessage: Message): (c: FieldCheck<string>)
    ensures v.None? <==> c.Aborted?
    ensures c.Ok() <==> v.Some? && v.value != ""
    ensures c.Checked? ==> c.value == v.value
  {
    match v
    case None => Aborted([missing])
    case Some(s) => Checked(s, if s == "" then [minMessage] else [])
  }

  /**
   * `error.flatten().fieldErrors` for a schema over `fields`: every field
   * that has messages, mapped to them in order. Each form names its fields
   * by a datatype of its own whose constructors stand for the keys.
   */
  function Flatten<F(!new)>(fields: set<F>, messages: F -> seq<Message>): (m: map<F, seq<Message>>)
    ensures forall k :: k in m <==> k in fields && messages(k) != []
    ensures forall k :: k in m ==> m[k] == messages(k)
    ensures m == map[] <==> forall k :: k in fields ==> messages(k) == []
  {
    map k | k in fields && messages(k) != [] :: messages(k)
  }
}
