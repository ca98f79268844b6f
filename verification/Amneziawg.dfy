/** Names, ownership tokens and link aliases shared by every other module.
    Text is a `string`: one `char` per byte, without a terminating NUL. */
module Amneziawg {

  datatype Option<+T> = None | Some(value: T) {
    predicate IsFailure() {
      None?
    }

    function PropagateFailure<U>(): Option<U>
      requires None?
    {
      None
    }

    function Extract(): T
      requires Some?
    {
      value
    }
  }

  const MAX_INTERFACE_LENGTH: nat := 15
  const LINK_TOKEN_LENGTH: nat := 32
  const LINK_ALIAS_PREFIX: string := "nm-sidebar-awg-"
  const UINT_MAX: nat := 0xFFFF_FFFF

  predicate IsDigit(c: char) {
    '0' <= c <= '9'
  }

  predicate IsAlnum(c: char) {
    IsDigit(c) || 'a' <= c <= 'z' || 'A' <= c <= 'Z'
  }

  /** GLib's ASCII white space; the vertical tab does not belong to it. */
  predicate IsSpace(c: char) {
    c == ' ' || c == '\t' || c == '\n' || c == '\r' || c as int == 12
  }

  predicate NameIsValid(name: string) {
    && 0 < |name| <= MAX_INTERFACE_LENGTH
    && IsAlnum(name[0])
    && forall i | 1 <= i < |name| :: IsAlnum(name[i]) || name[i] == '_' || name[i] == '-' || name[i] == '.'
  }

  predicate TokenIsValid(token: string) {
    && |token| == LINK_TOKEN_LENGTH
    && forall i | 0 <= i < |token| :: IsDigit(token[i]) || 'a' <= token[i] <= 'f'
  }

  function LinkAlias(token: string): string {
    LINK_ALIAS_PREFIX + token
  }

  /** The link alias a session with this token carries, if it has a token. */
  function AliasOf(token: Option<string>): Option<string> {
    if token.Some? then Some(LinkAlias(token.value)) else None
  }
}
