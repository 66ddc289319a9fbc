/**
 * What the routes read from an HTML form. The text of a numeric field is modelled by what
 * Python's `float()` and `int()` make of it, since string-to-number parsing itself is not
 * part of this model.
 */
module Forms {
  import opened Wrappers

  /**
   * A numeric form field: missing or the empty string, only whitespace, text that `float()`
   * reads as a number (surrounding whitespace allowed), or anything else.
   */
  datatype Field = Empty | Spaces | Numeral(value: real) | Malformed

  /** `not raw.strip()`: nothing but whitespace. */
  predicate Blank(f: Field) {
    f.Empty? || f.Spaces?
  }

  /** An integer form field as `int()` sees its stripped text. */
  datatype IntField = IntBlank | IntValue(n: int) | IntMalformed

  /** Why `_parse_float` raised. */
  datatype ParseFailure = NotANumber | MustBeNonZero | MustBePositive | CannotBeNegative

  datatype ParseError = ParseError(field: string, failure: ParseFailure)

  /**
   * The numbers `_parse_float` lets through, as a table over its two flags: everything,
   * everything but 0, everything at least 0, everything above 0.
   */
  predicate Admissible(v: real, allowZero: bool, allowNegative: bool) {
    if allowNegative && allowZero then true
    else if allowNegative then v != 0.0
    else if allowZero then v >= 0.0
    else v > 0.0
  }
}
