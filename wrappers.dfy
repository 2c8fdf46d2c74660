/** Option and Result values, and the exceptions the modelled code can raise. */
module Wrappers {

  datatype Option<+T> = None | Some(value: T)

  /** The Python and native failures the model keeps as explicit outcomes. */
  datatype Fault =
    | KeyError        // a dictionary lookup of an absent key
    | IndexError      // a list index past the end
    | AttributeError  // a field read before anything assigned it
    | ShapeMismatch   // the tensor library refuses operands of incompatible shape
    | UnboundLocal    // a local variable read on a path that never assigned it
    | TypeError       // arithmetic on None
    | ZeroDivision    // a division by zero
    | CheckFailed     // a glog CHECK that does not hold aborts the process

  datatype Result<+T> = Ok(value: T) | Err(error: Fault)
}

/** The enumerations the network code takes from the Caffe protocol definitions. */
module Caffe {

  /** The execution phase of a pass; a unit's include rule names one of these. */
  datatype Phase = TRAIN | TEST

  /** The pooling methods a pooling layer's parameters may name. */
  datatype PoolMethod = MAX | AVE | STOCHASTIC
}
