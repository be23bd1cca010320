/** Errors the simulator raises, and the result type that carries them. */
module Outcomes {

  /** The exceptions raised by the simulator (all are Python ValueError, IndexError or TypeError). */
  datatype Error =
    | InvalidParameter       // count/fraction parameter of the wrong type or a float outside [0, 1]
    | CountTooLarge          // more slices requested than the axis holds
    | NegativeCount          // a negative count reaching np.random.choice
    | InvalidAxisList        // axis_list not a list, of length 0 or > 3, or holding a value outside {0, 1, 2}
    | InvalidSimulations     // simulations neither a dict nor a list
    | InvalidSpecCount       // wrong number of simulation dicts for the mode
    | UnknownType            // unrecognised 'type' tag
    | MixedAxisFirstInChain  // chained mode whose first simulation is not missing_slides/wrong_sequence
    | IndexOutOfBounds       // np.delete or fancy indexing of a provenance map with an index past its end

  datatype Result<T> = Ok(value: T) | Err(error: Error)
}
