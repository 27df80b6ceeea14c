/**
 * The Company entity as the list view sees it, and the value `a[orderBy]`
 * that the comparators read from it.
 */
module CompanyRecord {
  import Strings

  datatype Company = Company(id: string, name: string, description: string, vip: bool)

  /** A property value read by `a[orderBy]`: a string, a boolean, or
      `undefined` for a key the record does not have. */
  datatype Value = Str(s: string) | Bool(b: bool) | Undefined

  /** `c[key]` */
  function Field(c: Company, key: string): Value
  {
    if key == "id" then Str(c.id)
    else if key == "name" then Str(c.name)
    else if key == "description" then Str(c.description)
    else if key == "vip" then Bool(c.vip)
    else Undefined
  }

  predicate SameKind(x: Value, y: Value)
  {
    (x.Str? && y.Str?) || (x.Bool? && y.Bool?) || (x.Undefined? && y.Undefined?)
  }

  /** JavaScript's `x < y` on two values of one property: strings by character
      code, booleans with `false < true`; `undefined` is never less nor greater. */
  predicate LessThan(x: Value, y: Value)
  {
    match (x, y)
    case (Str(s), Str(t)) => Strings.Less(s, t)
    case (Bool(a), Bool(b)) => !a && b
    case _ => false
  }

  /** One key reads values of one kind from every company, so the comparators
      never compare a string with a boolean. */
  lemma FieldSameKind(a: Company, b: Company, key: string)
    ensures SameKind(Field(a, key), Field(b, key))
  {
  }

  lemma LessThanIrreflexive(x: Value)
    ensures !LessThan(x, x)
  {
    if x.Str? {
      Strings.LessIrreflexive(x.s);
    }
  }

  lemma LessThanAsymmetric(x: Value, y: Value)
    ensures LessThan(x, y) ==> !LessThan(y, x)
  {
    if x.Str? && y.Str? {
      Strings.LessAsymmetric(x.s, y.s);
    }
  }

  lemma LessThanTransitive(x: Value, y: Value, z: Value)
    requires LessThan(x, y) && LessThan(y, z)
    ensures LessThan(x, z)
  {
    if x.Str? {
      Strings.LessTransitive(x.s, y.s, z.s);
    }
  }

  /** On values of one kind `<` is total: different values are ordered. */
  lemma LessThanTotal(x: Value, y: Value)
    requires SameKind(x, y)
    ensures x == y || LessThan(x, y) || LessThan(y, x)
  {
    if x.Str? {
      Strings.LessTotal(x.s, y.s);
    }
  }
}
