/** Shared vocabulary: options and the identifier patterns of the source. */
module Text {

  datatype Option<+T> = None | Some(value: T) {
    function GetOr(default: T): T { if Some? then value else default }
  }

  predicate LowerOrDigit(c: char) { 'a' <= c <= 'z' || '0' <= c <= '9' }

  predicate HexChar(c: char) { 'a' <= c <= 'f' || '0' <= c <= '9' }

  predicate IdChar(c: char) { LowerOrDigit(c) || c == '.' || c == '_' || c == '-' }

  /** `[a-z0-9][a-z0-9._-]{0,63}` */
  predicate Identifier(s: string) {
    1 <= |s| <= 64 && LowerOrDigit(s[0]) && forall i :: 0 <= i < |s| ==> IdChar(s[i])
  }

  /** `[0-9a-f]{n}` */
  predicate LowerHex(s: string, n: nat) { |s| == n && forall i :: 0 <= i < |s| ==> HexChar(s[i]) }

  predicate OccursAt(s: string, part: string, i: nat) { i + |part| <= |s| && s[i..i + |part|] == part }

  predicate Contains(s: string, part: string) { exists i :: 0 <= i <= |s| && OccursAt(s, part, i) }

  predicate EndsWith(s: string, part: string) { |part| <= |s| && s[|s| - |part|..] == part }
}
