/** The error values of `src/error.rs`, with the numbers a NOTIFICATION carries. */
module Errors {
  import opened Basics

  datatype ErrorCode =
    | LocalLogicError
    | MessageHeaderError
    | OpenMessageError
    | UpdateMessageError
    | HoldTimerExpired
    | FiniteStateMachineError
    | Cease
  {
    function Number(): nat {
      match this
      case LocalLogicError => 0
      case MessageHeaderError => 1
      case OpenMessageError => 2
      case UpdateMessageError => 3
      case HoldTimerExpired => 4
      case FiniteStateMachineError => 5
      case Cease => 6
    }
  }

  datatype ErrorSubCode =
    | BufferTooShort | IOError
    | ConnectionNotSync | BadMessageLength | BadMessageType
    | UnsupportedVersionNumber | BadBgpIdentifier | UnsupportedOptionalParameter
    | UnacceptableHoldTime | UnsupportedCapability
    | MalformedAttributeList | AttributeLengthError | InvalidOriginAttribute
    | InvalidNetworkField | MalformedAsPath
    | Undefined
  {
    function Number(): nat {
      match this
      case BufferTooShort => 1
      case IOError => 2
      case ConnectionNotSync => 1
      case BadMessageLength => 2
      case BadMessageType => 3
      case UnsupportedVersionNumber => 1
      case BadBgpIdentifier => 3
      case UnsupportedOptionalParameter => 4
      case UnacceptableHoldTime => 6
      case UnsupportedCapability => 7
      case MalformedAttributeList => 1
      case AttributeLengthError => 5
      case InvalidOriginAttribute => 6
      case InvalidNetworkField => 10
      case MalformedAsPath => 11
      case Undefined => 0
    }
  }

  datatype Error = Error(code: ErrorCode, subcode: ErrorSubCode, data: Option<bytes>)

  function HeaderError(subcode: ErrorSubCode): Error {
    Error(MessageHeaderError, subcode, None)
  }

  function OpenError(subcode: ErrorSubCode): Error {
    Error(OpenMessageError, subcode, None)
  }

  function UpdateError(subcode: ErrorSubCode): Error {
    Error(UpdateMessageError, subcode, None)
  }
}
