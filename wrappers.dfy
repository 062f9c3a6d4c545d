/** Small failure-carrying datatypes shared by the whole model. */
module Wrappers {

  datatype Option<+T> = None | Some(value: T)

  /** The exceptions the modelled Python code raises. */
  datatype Error =
    | ValueError(message: string)
    | HomeAssistantError(message: string)
    | KeyError(key: string)
    | AttributeError

  /** How a Python call ended: it returned normally, or it raised `error`. */
  datatype Outcome = Done | Raised(error: Error)

  /** The message both capability models and the water heater raise for an unknown mode. */
  const ModeNotSupported: string := "Operation mode not supported"
}
