/** The SSM parameter types: a closed set of three string constants and a membership test. */
module ParameterType {
  import opened Wrappers

  /**
   * The three declared constants, as a closed sum. The constructors mirror the PHP constants
   * SECURE_STRING, STRING and STRING_LIST; `String` is a kind, not Dafny's `string` type.
   */
  datatype Kind = SecureString | String | StringList

  /** The wire string of each constant. */
  function Name(k: Kind): string {
    match k
    case SecureString => "SecureString"
    case String => "String"
    case StringList => "StringList"
  }

  /** The lookup table `exists` consults, keyed by the constants. */
  const Table: map<string, bool> := map[Name(SecureString) := true, Name(String) := true, Name(StringList) := true]

  /**
   * `exists`: an exact, case-sensitive lookup of `value` among the constants; true exactly
   * for the names of the three kinds.
   */
  function Exists(value: string): (b: bool)
    ensures b <==> exists k: Kind :: Name(k) == value
    ensures b <==> value == "SecureString" || value == "String" || value == "StringList"
  {
    value in Table && Table[value]
  }

  /** The inverse of `Name`: the kind a string names, if any. */
  function Parse(value: string): Option<Kind>
  {
    if value == "SecureString" then Some(SecureString)
    else if value == "String" then Some(String)
    else if value == "StringList" then Some(StringList)
    else None
  }

  /** Every constant is accepted, and parses back to itself. */
  lemma ConstantsAccepted(k: Kind)
    ensures Exists(Name(k))
    ensures Parse(Name(k)) == Some(k)
  {
  }

  /** Accepted strings are exactly those that parse to a constant. */
  lemma ExistsIffParses(value: string)
    ensures Exists(value) <==> Parse(value).Some?
    ensures Parse(value).Some? ==> Name(Parse(value).value) == value
  {
  }

  /** No normalisation: other spellings, the empty string and unknown words are rejected. */
  lemma CaseSensitive()
    ensures !Exists("string") && !Exists("securestring") && !Exists("stringlist")
    ensures !Exists("STRING") && !Exists("") && !Exists("Other") && !Exists("String ")
  {
  }

  /** The constants are pairwise distinct, so exactly three strings are accepted. */
  lemma ExactlyThree()
    ensures forall k1: Kind, k2: Kind :: Name(k1) == Name(k2) ==> k1 == k2
    ensures Table.Keys == {"SecureString", "String", "StringList"}
    ensures |Table.Keys| == 3
  {
  }
}
