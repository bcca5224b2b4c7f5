/** The Python exceptions raised by the modelled code, with the messages the
    source gives them. */
module Errors {

  datatype Exception =
    | ValueError(message: string)
    /** Raised for an infrastructure type the source does not implement yet. */
    | NotImplementedError(message: string)
    /** Raised when an attribute (an enum member or an instance field that was
        never assigned) is read; carries the attribute's name. */
    | AttributeError(name: string)
}
