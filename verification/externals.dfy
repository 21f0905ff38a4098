/** The library code the configuration parsers call but this model does not
    reimplement, passed in as plain functions: `hyper::Uri`'s parser (which
    yields the URI's printed form), `humantime`'s duration parser, and the
    derived `Debug` rendering of a YAML node that some error messages embed. */
module Externals {
  import opened Wrappers
  import opened YamlTree
  import opened Config

  datatype Externals = Externals(
    parseUri: string -> Option<Uri>,
    parseDuration: string -> Option<Duration>,
    debug: Yaml -> string)
}
