/** Shared vocabulary of the libretro configuration generator: optional and
    failure-carrying results, the scalar values written to the frontend's
    configuration file, and the installation paths the generator is given. */
module Values {

  datatype Option<+T> = None | Some(value: T)

  datatype Result<+T, +E> = Success(value: T) | Failure(error: E)

  /** A scalar stored under one key of the frontend configuration.
      `Num` holds a decimal literal (a message position such as 0.05, an
      overlay opacity) whose arithmetic is never needed, so it stays a token. */
  datatype Value =
    | Str(text: string)
    | Int(n: int)
    | Num(literal: string)

  /** The per-system settings: option name to its raw string value. */
  type Config = map<string, string>

  /** The boolean literals of the frontend format. */
  function Flag(b: bool): (v: Value)
    ensures v == Str("true") || v == Str("false")
    ensures v == Str("true") <==> b
  {
    if b then Str("true") else Str("false")
  }

  /** Installation paths supplied by the host distribution's file layout. */
  datatype Paths = Paths(
    savesDir: string,
    overlayUser: string,
    overlaySystem: string,
    overlayConfigFile: string)
}
