/**
 * lib/util/select.go: a pair of candidate values with a preference flag.
 * Get is written for string and bool only (any other type panics), so the
 * model has one variant for each of the two.
 */
module UtilSelect {

  /** Select[string] or Select[bool]: left, right and preferLeft. */
  datatype Select =
    | StringSelect(left: string, right: string, preferLeft: bool)
    | BoolSelect(leftFlag: bool, rightFlag: bool, preferLeft: bool)

  /** What Get returns, tagged by the type it was selected at. */
  datatype Value = Str(s: string) | Flag(b: bool)

  /** A Select[string], the type the Slack client's webhook selector has. */
  type StringSelector = s: Select | s.StringSelect? witness StringSelect("", "", false)

  /**
   * SeedSelect[string](value): the constructor that stores its two
   * arguments as left and right and value as preferLeft.
   */
  function SeedSelectString(value: bool): (string, string) -> StringSelector {
    (left: string, right: string) => StringSelect(left, right, value)
  }

  /** SeedSelect[bool](value), the same for booleans. */
  function SeedSelectBool(value: bool): (bool, bool) -> Select {
    (left: bool, right: bool) => BoolSelect(left, right, value)
  }

  /**
   * Get. For strings, left is returned only when it is preferred AND right
   * is not empty; otherwise right is returned. For booleans, left is
   * returned exactly when it is preferred.
   */
  function Get(s: Select): (v: Value)
    ensures s.StringSelect? ==> v.Str? && (v.s == s.left || v.s == s.right)
    ensures s.BoolSelect? ==> v.Flag? && (v.b == s.leftFlag || v.b == s.rightFlag)
  {
    match s
    case StringSelect(left, right, preferLeft) =>
      if preferLeft && right != "" then Str(left) else Str(right)
    case BoolSelect(left, right, preferLeft) =>
      if preferLeft then Flag(left) else Flag(right)
  }

  /** The string Get, for a selector known to hold strings. */
  function GetString(s: StringSelector): string {
    Get(s).s
  }

  /**
   * For strings, Get gives left when left is preferred and right is not
   * empty, and right in every other case: an empty right gives "" even when
   * left is set and preferred.
   */
  lemma GetStringRule(left: string, right: string, preferLeft: bool)
    ensures preferLeft && right != "" ==> Get(StringSelect(left, right, preferLeft)) == Str(left)
    ensures !(preferLeft && right != "") ==> Get(StringSelect(left, right, preferLeft)) == Str(right)
    ensures right == "" ==> Get(StringSelect(left, right, preferLeft)) == Str("")
  {
  }

  /** For booleans, Get gives left exactly when left is preferred, with no emptiness test. */
  lemma GetBoolRule(left: bool, right: bool, preferLeft: bool)
    ensures Get(BoolSelect(left, right, preferLeft)) == Flag(if preferLeft then left else right)
  {
  }

  /**
   * A selector seeded with value and built from (l, r) selects by those
   * three alone.
   */
  lemma SeedSelectGet(value: bool, l: string, r: string, b1: bool, b2: bool)
    ensures GetString(SeedSelectString(value)(l, r)) == (if value && r != "" then l else r)
    ensures Get(SeedSelectBool(value)(b1, b2)) == Flag(if value then b1 else b2)
  {
  }
}
