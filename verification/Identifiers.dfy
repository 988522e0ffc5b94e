/** ICS-24 identifier validation (modules/core/24-host/validate.go). */
module Identifiers {
  import opened Strings

  const MAX_LENGTH := 64
  const MAX_PORT_LENGTH := 128

  /** The character class of the regular expression `IsValidID`. */
  predicate IsIdChar(c: char) {
    'a' <= c <= 'z' || 'A' <= c <= 'Z' || '0' <= c <= '9' || c in {'.', '_', '+', '-', '#', '[', ']', '<', '>'}
  }

  predicate ValidIdentifier(id: string, min: nat, max: nat) {
    && !Blank(id)
    && '/' !in id
    && min <= |id| <= max
    && forall i :: 0 <= i < |id| ==> IsIdChar(id[i])
  }

  predicate ValidClientId(id: string) { ValidIdentifier(id, 9, MAX_LENGTH) }

  predicate ValidConnectionId(id: string) { ValidIdentifier(id, 10, MAX_LENGTH) }

  predicate ValidChannelId(id: string) { ValidIdentifier(id, 8, MAX_LENGTH) }

  predicate ValidPortId(id: string) { ValidIdentifier(id, 2, MAX_PORT_LENGTH) }
}
