/** Values shared by every part of the adapter: optional values, results that
    stand for Python exceptions, and the configuration the modules read from
    the process environment when they are imported. */
module Common {

  datatype Option<+T> = None | Some(value: T)

  /** A call either returns a value or raises one of the exceptions below. */
  datatype Result<+T> = Ok(value: T) | Err(error: Error)

  /** The exceptions that reach the callers of the adapter. */
  datatype Error =
    | ValueError(message: string)      // Python's ValueError
    | DaisysMcpError(message: string)  // raised by throw_mcp_error in daisys_mcp/utils.py
    | RuntimeError(message: string)    // Python's RuntimeError
    | AttributeError(message: string)  // a missing attribute or method
    | SdkError(message: string)        // any other exception escaping the SDK unchanged

  /** DAISYS_EMAIL, DAISYS_PASSWORD and DISABLE_AUDIO_PLAYBACK, read once per process. */
  datatype Config = Config(email: Option<string>, password: Option<string>, disablePlayback: bool)

  /** Python truthiness of an optional string: None and "" are false. */
  predicate Truthy(s: Option<string>)
  {
    s.Some? && s.value != ""
  }

  /** The `not email or not password` guard of both synthesis paths fails. */
  predicate MissingCredentials(cfg: Config)
  {
    !Truthy(cfg.email) || !Truthy(cfg.password)
  }
}
