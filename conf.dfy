/** The configuration shape of internal/conf/conf.go. Loading and printing it is I/O and is not modelled. */
module Conf {

  /** One `{host, upstream}` entry of the `proxy` list. */
  datatype Proxy = Proxy(host: string, upstream: string)

  /** The process configuration: the CORS switch and the ordered proxy list. */
  datatype Config = Config(enableCors: bool, proxy: seq<Proxy>)
}
