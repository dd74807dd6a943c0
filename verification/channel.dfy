/** The method channel shared by every platform runner: the five method
    names the Dart side calls, the values that travel back and the three kinds of reply (success, named error, not implemented). */
module Channel {

  const GetForegroundAppMethod := "getForegroundApp"
  const CheckPermissionsMethod := "checkPermissions"
  const RequestPermissionsMethod := "requestPermissions"
  const GetPlatformInfoMethod := "getPlatformInfo"
  const TestMethod := "test"

  /** The method names every runner dispatches; anything else is not implemented. */
  const Methods: set<string> :=
    {GetForegroundAppMethod, CheckPermissionsMethod, RequestPermissionsMethod, GetPlatformInfoMethod, TestMethod}

  /** A value of the standard method codec, restricted to the kinds the runners send. */
  datatype Value =
    | Null
    | Bool(b: bool)
    | Str(s: string)
    | Dict(entries: map<string, Value>)

  /** The outcome a handler reports through its result object. */
  datatype Reply =
    | Success(value: Value)
    | Error(code: string, message: string, details: Value)
    | NotImplemented
}
