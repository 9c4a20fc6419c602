/**
 * The Ruby `EsxCloud::SecurityGroup` resource: a name and an "is inherited"
 * flag, built from a parsed JSON hash, and its equality method.
 *
 * Ruby values are modelled by `Value`; the equality method is modelled both as
 * written (it asks the other object for an `id`) and as evidently intended.
 */
module SecurityGroups {
  import opened Wrappers

  /** The Ruby values a parsed JSON document can hold. */
  datatype Value =
    | Nil
    | Bool(b: bool)
    | Int(i: int)
    | Str(s: string)
    | List(items: seq<Value>)
    | Hash(entries: map<string, Value>)

  /** The constructor stores both arguments as given, without checking their types. */
  datatype SecurityGroup = SecurityGroup(name: Value, isInherited: Value)

  datatype RubyError =
    | UnexpectedFormat(input: Value)
    | NoMethodError(methodName: string)

  /**
   * A hash that has at least the keys `name` and `isInherited` (other keys
   * are allowed) becomes a group with those two values; anything else is
   * rejected with the input it was given.
   */
  function CreateFromHash(input: Value): (r: Result<SecurityGroup, RubyError>)
    ensures r.Success? <==> input.Hash? && "name" in input.entries && "isInherited" in input.entries
    ensures r.Success? ==>
      r.value.name == input.entries["name"] && r.value.isInherited == input.entries["isInherited"]
    ensures r.Failure? ==> r.error == UnexpectedFormat(input)
  {
    if input.Hash? && {"name", "isInherited"} <= input.entries.Keys then
      Success(SecurityGroup(input.entries["name"], input.entries["isInherited"]))
    else
      Failure(UnexpectedFormat(input))
  }

  /** The hash a group serializes to. */
  function ToHash(g: SecurityGroup): Value
  {
    Hash(map["name" := g.name, "isInherited" := g.isInherited])
  }

  /** Building from a group's own hash, with or without further keys, gives the group back. */
  lemma CreateFromHashRoundTrip(g: SecurityGroup, extra: map<string, Value>)
    ensures CreateFromHash(ToHash(g)) == Success(g)
    ensures CreateFromHash(Hash(extra + ToHash(g).entries)) == Success(g)
  {
    assert {"name", "isInherited"} <= ToHash(g).entries.Keys;
    assert {"name", "isInherited"} <= (extra + ToHash(g).entries).Keys;
  }

  // ---------------------------------------------------------------------
  // Equality
  // ---------------------------------------------------------------------

  /** The right-hand side of `==`: another group, or some other object that may answer `id`. */
  datatype RubyObject =
    | GroupObject(group: SecurityGroup)
    | ObjectWithId(id: Value)
    | ObjectWithoutId

  /**
   * `==` as written: it compares the name with `other.id`, which a group does
   * not define, and compares the receiver's flag with itself.
   */
  function EqualsAsWritten(self: SecurityGroup, other: RubyObject): (r: Result<bool, RubyError>)
    ensures other.ObjectWithId? <==> r.Success?
    ensures r.Failure? ==> r.error == NoMethodError("id")
  {
    match other
    case GroupObject(_) => Failure(NoMethodError("id"))
    case ObjectWithoutId => Failure(NoMethodError("id"))
    case ObjectWithId(id) => Success(self.name == id && self.isInherited == self.isInherited)
  }

  /** As written, comparing two groups raises, even a group with itself. */
  lemma AsWrittenGroupsNeverCompare(a: SecurityGroup, b: SecurityGroup)
    ensures EqualsAsWritten(a, GroupObject(b)) == Failure(NoMethodError("id"))
  {
  }

  /** As written, the flag plays no part: only the name against `other.id` decides. */
  lemma AsWrittenIgnoresFlag(name: Value, flag: Value, id: Value)
    ensures EqualsAsWritten(SecurityGroup(name, flag), ObjectWithId(id)) == Success(name == id)
  {
  }

  /** The concrete case: a group is not even equal to itself. */
  lemma AsWrittenCounterexample()
    ensures
      var g := SecurityGroup(Str("default"), Bool(true));
      EqualsAsWritten(g, GroupObject(g)).Failure?
  {
  }

  /** `==` as intended: two groups are equal when their names and flags are. */
  function Equals(self: SecurityGroup, other: SecurityGroup): (r: bool)
    ensures r <==> self == other
  {
    self.name == other.name && self.isInherited == other.isInherited
  }

  /** The intended equality is an equivalence relation. */
  lemma EqualsIsEquivalence(a: SecurityGroup, b: SecurityGroup, c: SecurityGroup)
    ensures Equals(a, a)
    ensures Equals(a, b) ==> Equals(b, a)
    ensures Equals(a, b) && Equals(b, c) ==> Equals(a, c)
  {
  }

  /** Groups built from hashes are equal exactly when the hashes agree on both keys. */
  lemma EqualsOnParsedGroups(h1: Value, h2: Value)
    requires CreateFromHash(h1).Success? && CreateFromHash(h2).Success?
    ensures Equals(CreateFromHash(h1).value, CreateFromHash(h2).value) <==>
      h1.entries["name"] == h2.entries["name"] && h1.entries["isInherited"] == h2.entries["isInherited"]
  {
  }
}
