/**
 * Option and Result, and the kinds of exception the converter raises.
 * A Python `raise` becomes an `Err` value; the kind of exception is kept
 * (ValueError, KeyError, ...) together with the reason the message gives.
 */
module Wrappers {

  datatype Option<+T> = None | Some(value: T) {
    predicate IsFailure() { None? }

    function PropagateFailure<U>(): Option<U>
      requires None?
    {
      None
    }

    function Extract(): T
      requires Some?
    {
      value
    }
  }

  /** Why a ValueError or NotImplementedError was raised. */
  datatype Reason =
    | MultipleCommonFrames
    | NoCommonFrame
    | NoBridgingTransformation
    | UnknownTransformationType
    | UnsupportedTransformationType(kind: string)
    | ScaleNeedsThreeParameters
    | EmptyAnnotationFrames
    | EmptyTomogramFrames
    | MissingFrames
    | NoOrigin3D
    | TargetFrameNotInTomogram(name: string)
    | PointsOutOfBounds(total: nat, shown: seq<nat>)
    | UnknownDefaultFrame(name: string)
    | UnsupportedAnnotationType(kind: string)
    | NotEnoughValuesToUnpack
    | TooManyValuesToUnpack
    | InvalidLiteral(text: string)
    | NoFilesMatching(pattern: string)
    | PathDoesNotMatchFilter(path: string)
    | NoEmpiarFileAtPath(path: string)
    | NoTiltImageAtPath(path: string)
    | ShapesNotBroadcastable

  datatype Error =
    | ValueError(reason: Reason)
    | NotImplementedError(reason: Reason)
    | KeyError(key: string)
    | IndexError
    | TypeError
    | AttributeError(attribute: string)
    | ZeroDivisionError
    | UnboundLocalError(variable: string)

  datatype Result<+T> = Ok(value: T) | Err(error: Error) {
    predicate IsFailure() { Err? }

    function PropagateFailure<U>(): Result<U>
      requires Err?
    {
      Err(error)
    }

    function Extract(): T
      requires Ok?
    {
      value
    }
  }
}
