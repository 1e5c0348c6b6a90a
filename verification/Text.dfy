/** ASCII text: case, stripping and searching, as Python's `str` does them on ASCII input. */
module Text {

  const SPACES := {' ', '\t', '\n', '\U{0B}', '\U{0C}', '\r', '\U{1C}', '\U{1D}', '\U{1E}', '\U{1F}'}

  function LowerChar(c: char): char {
    if 'A' <= c <= 'Z' then c - 'A' + 'a' else c
  }

  function Lower(s: string): (t: string)
    ensures |t| == |s| && forall i :: 0 <= i < |s| ==> t[i] == LowerChar(s[i])
  {
    seq(|s|, i requires 0 <= i < |s| => LowerChar(s[i]))
  }

  function LStrip(s: string, cut: set<char>): string {
    if s != "" && s[0] in cut then LStrip(s[1..], cut) else s
  }

  function RStrip(s: string, cut: set<char>): string {
    if s != "" && s[|s| - 1] in cut then RStrip(s[..|s| - 1], cut) else s
  }

  function Strip(s: string, cut: set<char>): string {
    RStrip(LStrip(s, cut), cut)
  }

  predicate OccursAt(s: string, part: string, i: nat) {
    i + |part| <= |s| && s[i..i + |part|] == part
  }

  predicate Contains(s: string, part: string) {
    exists i :: 0 <= i <= |s| && OccursAt(s, part, i)
  }
}
