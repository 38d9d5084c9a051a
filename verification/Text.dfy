/** Line feeds in text. */
module Text {
  /** The position of the first LF, or the length. */
  function LfAt(s: string): (i: nat)
    ensures i <= |s|
    ensures forall j | 0 <= j < i :: s[j] != '\n'
    ensures i < |s| ==> s[i] == '\n'
  {
    if s == "" || s[0] == '\n' then 0 else 1 + LfAt(s[1..])
  }

  lemma {:induction false} LfAtIs(s: string, i: nat)
    requires i <= |s| && (forall j | 0 <= j < i :: s[j] != '\n') && (i < |s| ==> s[i] == '\n')
    ensures LfAt(s) == i
    decreases i
  {
    if i > 0 { LfAtIs(s[1..], i - 1); }
  }

  /** Without its one trailing CR, if there is one. */
  function ChopCr(line: string): string {
    if line != "" && line[|line| - 1] == '\r' then line[..|line| - 1] else line
  }
}
