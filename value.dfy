/**
 * The value-object registry and the built-in `EmailAddress` value type
 * (src/value.rs).
 */
module Values {
  import opened Wrappers
  import opened Ast
  import opened Errors
  import opened Ascii

  /** The input a constructor receives. The repository passes it as a
      dynamically typed box; the evaluator only ever puts a string, an
      integer or a boolean in it. */
  datatype Input = InputString(s: string) | InputInt(n: I64) | InputBool(b: bool)

  /** A registered value type: its declaration, the validator compiled from
      its `validate` clause and, when it has a `normalize` clause, a
      normalizer (which construction never calls). */
  datatype ValueConstructor = ValueConstructor(
    declaration: ValueDeclaration,
    validator: Input -> Result<()>,
    normalizer: Option<Input -> Result<Input>>)

  /** The object `construct` creates: the type name and the input, as given. */
  datatype ValueObject = GenericValueObject(typeName: string, data: Input)

  /** The registry of value constructors, updated in place by `register`. */
  class ValueRegistry {
    var constructors: map<string, ValueConstructor>

    constructor ()
      ensures constructors == map[]
    {
      constructors := map[];
    }

    /** Stores `c` under `name`, replacing any constructor stored there. */
    method Register(name: string, c: ValueConstructor)
      modifies this
      ensures constructors == old(constructors)[name := c]
      ensures name in constructors && constructors[name] == c
      ensures forall other :: other != name ==>
        (other in constructors <==> other in old(constructors)) &&
        (other in constructors ==> constructors[other] == old(constructors)[other])
    {
      constructors := constructors[name := c];
    }
  }

  /** `ValueRegistry::construct` on the registry's constructor table: an
      unknown type name is an error; otherwise the validator runs first and
      its error is returned as is; on success the object carries the type
      name and the input unchanged. */
  function Construct(constructors: map<string, ValueConstructor>, typeName: string, input: Input)
    : (r: Result<ValueObject>)
    ensures typeName !in constructors ==>
      r == Err(ValidationError(UnknownValueType(typeName), typeName))
    ensures typeName in constructors && constructors[typeName].validator(input).Err? ==>
      r == Err(constructors[typeName].validator(input).error)
    ensures r.Ok? <==> typeName in constructors && constructors[typeName].validator(input).Ok?
    ensures r.Ok? ==> r.value.typeName == typeName && r.value.data == input
  {
    if typeName !in constructors then
      Err(ValidationError(UnknownValueType(typeName), typeName))
    else
      var _ :- constructors[typeName].validator(input);
      Ok(GenericValueObject(typeName, input))
  }

  /** The check `EmailAddress::from` and `EmailAddress::validate` share:
      the text contains `@` and is longer than three characters. */
  predicate ValidEmail(s: string)
  {
    '@' in s && |s| > 3
  }

  /** The built-in e-mail value object, whose `normalize` rewrites its
      stored text in place. */
  class EmailAddress {
    var value: string

    constructor Make(v: string)
      ensures value == v
    {
      value := v;
    }

    /** `EmailAddress::from`: rejects invalid text, otherwise stores its
        lowercase form. */
    static method From(raw: string) returns (r: Result<EmailAddress>)
      ensures r.Err? <==> !ValidEmail(raw)
      ensures r.Err? ==> r.error == ValidationError(InvalidEmailAddress, "EmailAddress")
      ensures r.Ok? ==> fresh(r.value) && r.value.value == Lower(raw)
    {
      if !('@' in raw) || |raw| <= 3 {
        return Err(ValidationError(InvalidEmailAddress, "EmailAddress"));
      }
      var e := new EmailAddress.Make(Lower(raw));
      return Ok(e);
    }

    /** `ValueObject::validate` for e-mail addresses. */
    function Validate(): (r: Result<()>)
      reads this
      ensures r.Ok? <==> ValidEmail(value)
      ensures r.Err? ==> r.error == ValidationError(InvalidEmailAddress, "EmailAddress")
    {
      if !('@' in value) || |value| <= 3 then
        Err(ValidationError(InvalidEmailAddress, "EmailAddress"))
      else
        Ok(())
    }

    /** `ValueObject::normalize`: lowercases the stored text in place. */
    method Normalize() returns (r: Result<()>)
      modifies this
      ensures value == Lower(old(value)) && r == Ok(())
    {
      value := Lower(value);
      r := Ok(());
    }
  }

  /** The stored form of an address is the lowercase form of its input. */
  function EmailValue(raw: string): (r: Option<string>)
    ensures r.Some? <==> ValidEmail(raw)
    ensures r.Some? ==> r.value == Lower(raw) && ValidEmail(r.value)
  {
    if ValidEmail(raw) then
      LowerKeepsValid(raw);
      Some(Lower(raw))
    else None
  }

  /** Lowercasing keeps an address valid: every address `from` produces
      passes `validate`. */
  lemma LowerKeepsValid(s: string)
    ensures ValidEmail(Lower(s)) <==> ValidEmail(s)
  {
    LowerKeepsNonLetter(s, '@');
  }

  /** Normalizing an address produced by `from` changes nothing, and
      normalizing twice is normalizing once. */
  lemma NormalizeIdempotent(raw: string)
    requires ValidEmail(raw)
    ensures EmailValue(raw).Some? && Lower(EmailValue(raw).value) == EmailValue(raw).value
  {
    LowerIdempotent(raw);
  }

  /** Two texts differing only in letter case. */
  predicate SameIgnoringCase(a: string, b: string)
  {
    |a| == |b| && forall i :: 0 <= i < |a| ==> LowerChar(a[i]) == LowerChar(b[i])
  }

  /** Inputs differing only in case are both accepted or both rejected,
      and when accepted they yield equal stored values. */
  lemma CaseInsensitiveEquality(a: string, b: string)
    requires SameIgnoringCase(a, b)
    ensures EmailValue(a) == EmailValue(b)
  {
    LowerKeepsValid(a);
    LowerKeepsValid(b);
    assert Lower(a) == Lower(b);
  }
}
