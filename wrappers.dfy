/** The optional value used wherever the C code returns a pointer that may be NULL. */
module Wrappers {

  datatype Option<+T> = None | Some(value: T)

  /**
   * The record lookup of the port layers (_stm32f4_button_get,
   * _stm32f4_ultrasound_get): the slot of an id below the array length,
   * otherwise NULL.
   */
  function Lookup<T>(records: seq<T>, id: nat): (r: Option<T>)
    ensures r.Some? <==> id < |records|
    ensures r.Some? ==> r.value == records[id]
  {
    if id < |records| then Some(records[id]) else None
  }
}
