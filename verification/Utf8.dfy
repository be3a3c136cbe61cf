/** UTF-8 as Go decodes it: section 3 of RFC 3629, one byte for anything ill-formed.
    A string here holds one byte per character. */
module Utf8 {

  predicate Cont(s: string, i: nat) {
    i < |s| && 0x80 <= s[i] as int <= 0xBF
  }

  predicate In(s: string, i: nat, lo: int, hi: int) {
    i < |s| && lo <= s[i] as int <= hi
  }

  /** The bytes of the first rune. */
  function RuneSize(s: string): (n: nat)
    requires s != ""
    ensures 1 <= n <= 4 && n <= |s|
    ensures forall i :: 0 <= i < n && n > 1 ==> s[i] as int >= 0x80
  {
    var b := s[0] as int;
    if 0xC2 <= b <= 0xDF && Cont(s, 1) then 2
    else if ((b == 0xE0 && In(s, 1, 0xA0, 0xBF)) || (b == 0xED && In(s, 1, 0x80, 0x9F))
             || (0xE1 <= b <= 0xEF && b != 0xED && Cont(s, 1))) && Cont(s, 2) then 3
    else if ((b == 0xF0 && In(s, 1, 0x90, 0xBF)) || (0xF1 <= b <= 0xF3 && Cont(s, 1))
             || (b == 0xF4 && In(s, 1, 0x80, 0x8F))) && Cont(s, 2) && Cont(s, 3) then 4
    else 1
  }

  /** The runes of s. */
  function RuneCount(s: string): nat {
    if s == "" then 0 else 1 + RuneCount(s[RuneSize(s)..])
  }

  /** off lies inside a "\r\n". */
  predicate BetweenCRLF(s: string, off: nat) {
    0 < off < |s| && s[off - 1] == '\r' && s[off] == '\n'
  }
}
