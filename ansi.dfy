/** The ANSI escape sequences the program writes (the ANSI_COLOR_* macros it
    uses); the colours it defines but never uses are left out. */
module Ansi {

  const Esc: char := '\U{1B}'

  const Red: string := [Esc] + "[0;31m"
  const Green: string := [Esc] + "[0;32m"
  const Yellow: string := [Esc] + "[0;33m"
  const Magenta: string := [Esc] + "[0;35m"
  const Reset: string := [Esc] + "[0m"

  /** The codes are pairwise different, and none is empty. */
  lemma CodesDistinct()
    ensures |Red| == |Green| == |Yellow| == |Magenta| == 7 && |Reset| == 4
    ensures Red != Green && Red != Yellow && Red != Magenta
    ensures Green != Yellow && Green != Magenta && Yellow != Magenta
  {
    assert Red[5] == '1' && Green[5] == '2' && Yellow[5] == '3' && Magenta[5] == '5';
  }
}
