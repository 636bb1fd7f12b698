/** String helpers with the behaviour of the JavaScript built-ins the source uses. */
module Strings {

  /**
   * `s.padStart(width, pad)` for a one-character pad string: `s` unchanged when
   * it is already at least `width` long, otherwise `s` preceded by as many
   * copies of `pad` as make it exactly `width` long.
   */
  function PadStart(s: string, width: nat, pad: char): (r: string)
    ensures |r| == if |s| >= width then |s| else width
    ensures |r| >= |s| && r[|r| - |s|..] == s
    ensures forall i :: 0 <= i < |r| - |s| ==> r[i] == pad
  {
    if |s| >= width then s else seq(width - |s|, _ => pad) + s
  }
}
