/** The application's error type (`AppError` in src/main.rs, `crate::Error` where src/search_params/mod.rs uses it). */
module AppErrors {

  /** A Client error blames the caller's configuration; Server is reserved and never produced by the core. */
  datatype AppError = Client(msg: string) | Server(msg: string)
}
