/**
 * Capability tokens (src/lib.rs:347-430): the seven token kinds with the name
 * under which a token is requested (`in_type`) and the name under which the
 * server returns it (`out_type`), and the token itself.
 */
module Tokens {
  datatype TokenKind = CreateAccount | Csrf | Login | Patrol | Rollback | UserRights | Watch

  /** The `type` argument of a token request: a nonempty, lower-case word. */
  function InType(kind: TokenKind): (name: string)
    ensures |name| > 0
    ensures forall i :: 0 <= i < |name| ==> 'a' <= name[i] <= 'z'
  {
    match kind
    case CreateAccount => "createaccount"
    case Csrf => "csrf"
    case Login => "login"
    case Patrol => "patrol"
    case Rollback => "rollback"
    case UserRights => "userrights"
    case Watch => "watch"
  }

  /** The member of `query.tokens` that holds the token: always the request name followed by "token". */
  function OutType(kind: TokenKind): (name: string)
    ensures name == InType(kind) + "token"
  {
    match kind
    case CreateAccount => "createaccounttoken"
    case Csrf => "csrftoken"
    case Login => "logintoken"
    case Patrol => "patroltoken"
    case Rollback => "rollbacktoken"
    case UserRights => "userrightstoken"
    case Watch => "watchtoken"
  }

  /** Distinct kinds are requested, and returned, under distinct names. */
  lemma KindNamesDistinct(a: TokenKind, b: TokenKind)
    requires a != b
    ensures InType(a) != InType(b) && OutType(a) != OutType(b)
  {
  }

  /**
   * `Token<T>`: the token string, with the kind that the source keeps as a
   * type parameter kept here as a field.
   */
  datatype Token = Token(kind: TokenKind, value: string)

  /** `Token::new`: the token wraps exactly the string it was made from. */
  function NewToken(kind: TokenKind, s: string): (t: Token)
    ensures t.kind == kind && t.value == s
  {
    Token(kind, s)
  }

  /** `Token::value`: a token rebuilt from its value and kind is the same token. */
  function Value(t: Token): (s: string)
    ensures NewToken(t.kind, s) == t
  {
    t.value
  }
}
