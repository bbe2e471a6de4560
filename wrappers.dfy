/** Option and Result, and the Java exceptions the modelled code can raise. */
module Wrappers {

  datatype Option<+T> = None | Some(value: T)

  /** The Java exception classes that the modelled code throws or lets escape. */
  datatype ExceptionKind =
    | NullPointer           // java.lang.NullPointerException
    | IllegalState          // java.lang.IllegalStateException (Gson getAs* on the wrong element)
    | UnsupportedOperation  // java.lang.UnsupportedOperationException (Gson getAs* on JsonNull/JsonObject)
    | ClassCast             // java.lang.ClassCastException
    | IndexOutOfBounds      // java.lang.IndexOutOfBoundsException
    | IllegalArgument       // java.lang.IllegalArgumentException (Enum.valueOf)
    | InvalidParameter      // java.security.InvalidParameterException
    | NotImplemented        // org.apache.commons.lang3.NotImplementedException
    | Assertion             // java.lang.AssertionError raised by org.testng.Assert
    | PathNotFound          // com.jayway.jsonpath.PathNotFoundException
    | Core                  // org.autong.exception.CoreException
    | UnirestConfig         // kong.unirest.UnirestConfigException
    | JsonSyntax            // com.google.gson.JsonSyntaxException
    | Failure               // anything thrown by a transport or a file reader

  datatype Exception = Exception(kind: ExceptionKind, message: string)

  /** A value, or the exception that was thrown instead of producing it. */
  datatype Result<+T> = Ok(value: T) | Err(error: Exception) {
    predicate IsFailure() { Err? }

    function PropagateFailure<U>(): Result<U>
      requires Err?
    {
      Err(error)
    }

    function Extract(): T
      requires Ok?
    {
      value
    }
  }
}
