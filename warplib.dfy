/** The warplib records both the daemon and the command line use. */
module Warplib {
  /** One request header (warplib.Header). */
  datatype Header = Header(key: string, value: string)

  const UserAgentKey := "User-Agent"
}
