/** Shared result types. The build helpers signal every configuration fault
    with a single error kind, ConfigurationError, carrying a readable message;
    here that exception becomes the failing case of a Result. */
module Config {

  datatype Option<+T> = None | Some(value: T)

  datatype Result<+T> = Ok(value: T) | ConfigurationError(message: string)
}
