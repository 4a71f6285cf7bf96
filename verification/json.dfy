/** JSON values as they come out of a decoded JSON Web Token, and JavaScript truthiness. */
module Json {

  /** A property read off a decoded payload. `Undefined` is an absent property;
      arrays and objects are collapsed into `Compound`, since only their truthiness matters here. */
  datatype Value = Undefined | Null | Bool(b: bool) | Number(x: real) | Str(s: string) | Compound

  /** JavaScript's `!!v`. JSON has no NaN, and -0 is the real 0. */
  predicate Truthy(v: Value) {
    match v
    case Undefined => false
    case Null => false
    case Bool(b) => b
    case Number(x) => x != 0.0
    case Str(s) => |s| > 0
    case Compound => true
  }

  /** The claims of a token: the subject identifier and the role. Signing adds the expiry,
      which verification checks; neither is visible here. */
  datatype Claims = Claims(id: Value, role: Value)
}
