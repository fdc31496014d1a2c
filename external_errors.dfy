/**
 * Error types of the crates the proxy depends on (std::io, serde_yaml, redis,
 * r2d2, hyper and hyper_reverse_proxy). Only what the proxy reads of them is
 * kept: the text their `to_string` yields and, for YAML errors, the location.
 */
module ExternalErrors {
  import opened Wrappers

  /** `std::io::Error`. */
  datatype IoError = IoError(text: string)

  /** `serde_yaml::Location`: a line and a column. */
  datatype Location = Location(line: nat, column: nat)

  /** `serde_yaml::Error`: its text and the optional position it reports. */
  datatype YamlError = YamlError(text: string, location: Option<Location>)

  /** `redis::RedisError`. */
  datatype RedisError = RedisError(text: string)

  /** `r2d2::Error` (a connection could not be taken from the pool). */
  datatype R2d2Error = R2d2Error(text: string)

  /** `hyper::Error`. */
  datatype HyperError = HyperError(text: string)

  /** `hyper::http::uri::InvalidUri`. */
  datatype InvalidUri = InvalidUri(text: string)

  /** `hyper_reverse_proxy::ProxyError`, the forwarder's error. */
  datatype HyperReverseProxyError =
    | ForwardInvalidUri(uri: InvalidUri)
    | ForwardHyperError(hyper: HyperError)
    | ForwardHeaderError
}
