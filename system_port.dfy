/** The millisecond tick counter behind port_system_get_millis / port_system_set_millis. */
module SystemPort {
  import opened Word

  class Clock {
    var millis: u32

    constructor ()
      ensures millis == 0
    {
      millis := 0;
    }

    /** port_system_set_millis */
    method SetMillis(ms: u32)
      modifies this
      ensures millis == ms
    {
      millis := ms;
    }
  }
}
