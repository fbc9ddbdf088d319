/** The Activatable concept: a binary on/off switch that every handler
    instance carries. It is switched on when constructed. */
module Activation {

  class Activatable {
    var active: bool

    /** A freshly constructed switch is on. */
    constructor()
      ensures active
    {
      active := true;
    }

    /** Switch on, whatever the previous state (not a toggle). */
    method Activate()
      modifies this
      ensures active
    {
      active := true;
    }

    /** Switch off, whatever the previous state (not a toggle). */
    method Deactivate()
      modifies this
      ensures !active
    {
      active := false;
    }

    /** Query the switch; changes nothing (no modifies clause). */
    method IsActive() returns (isOn: bool)
      ensures isOn <==> active
    {
      isOn := active;
    }
  }
}
