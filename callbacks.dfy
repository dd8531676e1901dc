/** Opaque values that theme code hands to the theme layer. */
module Callbacks {

  /** An opaque function supplied by theme code. */
  datatype Callback = Callback(id: nat)

  /** An opaque object passed through to a callback (a jQuery element or a deferred). */
  datatype Ref = Ref(id: nat)
}
