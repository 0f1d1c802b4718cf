// Shared result types and the string vocabulary used by the R1 modules.
module Prelude {

  datatype Option<+T> = None | Some(value: T)

  datatype Result<+T, +E> = Ok(value: T) | Err(error: E)

  predicate IsHexChar(c: char) {
    '0' <= c <= '9' || 'a' <= c <= 'f'
  }

  // `n` lower-case hexadecimal digits.
  predicate IsHex(s: string, n: nat) {
    |s| == n && forall i | 0 <= i < |s| :: IsHexChar(s[i])
  }

  // Python's `value.lower()` is applied before the comparison in the sources
  // that accept upper-case digits.
  predicate IsHexCharAnyCase(c: char) {
    IsHexChar(c) || 'A' <= c <= 'F'
  }

  // `_hex40` and the SHA shape tests of `validate_state`.
  predicate IsHexAnyCase(s: string, n: nat) {
    |s| == n && forall i | 0 <= i < |s| :: IsHexCharAnyCase(s[i])
  }

  // One character, `n` times.
  function Fill(n: nat, c: char): (s: string)
    ensures |s| == n && forall i | 0 <= i < n :: s[i] == c
  {
    if n == 0 then "" else Fill(n - 1, c) + [c]
  }
}
