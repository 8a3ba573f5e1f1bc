/** The output resolution chosen for an aspect-ratio name. */
module TaskUtils {

  datatype Resolution = Resolution(width: nat, height: nat) {
    /** The same frame turned on its side. */
    function Swapped(): Resolution {
      Resolution(height, width)
    }
  }

  /** The ratio names the lookup table knows. */
  predicate KnownRatio(aspectRatio: string) {
    aspectRatio == "9:16" || aspectRatio == "16:9" || aspectRatio == "1:1" || aspectRatio == "3:4" || aspectRatio == "4:3"
  }

  /** The portrait frame used for the default ratio and any unknown name. */
  const DefaultResolution: Resolution := Resolution(1080, 1920)

  /** The resolution for a ratio name: the table entry, or 1080x1920 for a
      name the table does not know. The short side is always 1080, and the
      frame has the shape the name describes. */
  function ResolutionFor(aspectRatio: string): (r: Resolution)
    ensures !KnownRatio(aspectRatio) ==> r == DefaultResolution
    ensures aspectRatio == "9:16" ==> r == Resolution(1080, 1920)
    ensures aspectRatio == "16:9" ==> r == Resolution(1920, 1080)
    ensures aspectRatio == "1:1" ==> r == Resolution(1080, 1080)
    ensures aspectRatio == "3:4" ==> r == Resolution(1080, 1440)
    ensures aspectRatio == "4:3" ==> r == Resolution(1440, 1080)
    ensures (if r.width <= r.height then r.width else r.height) == 1080
  {
    if aspectRatio == "9:16" then Resolution(1080, 1920)
    else if aspectRatio == "16:9" then Resolution(1920, 1080)
    else if aspectRatio == "1:1" then Resolution(1080, 1080)
    else if aspectRatio == "3:4" then Resolution(1080, 1440)
    else if aspectRatio == "4:3" then Resolution(1440, 1080)
    else DefaultResolution
  }

  /** A ratio name read as "W:H" describes the frame's shape exactly:
      width * H == height * W for every known name. */
  lemma ResolutionMatchesRatio(aspectRatio: string, w: nat, h: nat)
    requires (aspectRatio, w, h) in {("9:16", 9, 16), ("16:9", 16, 9), ("1:1", 1, 1), ("3:4", 3, 4), ("4:3", 4, 3)}
    ensures ResolutionFor(aspectRatio).width * h == ResolutionFor(aspectRatio).height * w
  {
  }

  /** Portrait and landscape names give the same frame turned on its side. */
  lemma RatiosSwap()
    ensures ResolutionFor("9:16") == ResolutionFor("16:9").Swapped()
    ensures ResolutionFor("3:4") == ResolutionFor("4:3").Swapped()
    ensures ResolutionFor("1:1") == ResolutionFor("1:1").Swapped()
  {
  }
}
