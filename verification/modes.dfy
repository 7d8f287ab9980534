/**
 * The interaction mode flags shared by the dig and build handlers
 * (modeState) and resetModes.
 */
module Modes {

  /** The three flags of modeState, as a value. */
  datatype Flags = Flags(digging: bool, placing: bool, treePlanting: bool)

  const Cleared: Flags := Flags(false, false, false)

  /** No two modes are on at once. */
  predicate AtMostOne(f: Flags)
  {
    (f.digging ==> !f.placing && !f.treePlanting) && (f.placing ==> !f.treePlanting)
  }

  /** The shared modeState object. */
  class ModeState {
    var digging: bool
    var placing: bool
    var treePlanting: bool

    function Value(): Flags
      reads this
    {
      Flags(digging, placing, treePlanting)
    }

    /** All three flags start false. */
    constructor()
      ensures Value() == Cleared
    {
      digging, placing, treePlanting := false, false, false;
    }

    /** resetModes: every flag false, whatever it was (so calling it twice is calling it once). */
    method ResetModes()
      modifies this
      ensures Value() == Cleared
    {
      digging := false;
      placing := false;
      treePlanting := false;
    }
  }
}
