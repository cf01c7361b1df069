/** Options of pgpool (pgpool/pgpool.go) and the comparison that decides whether to rebuild. */
module PoolOptions {
  import opened Common

  /** typeNames distinguishes a nil slice from an empty one, as Go does. */
  datatype Options = Options(
    host: string, port: int, database: string, user: string, password: string, timezone: string,
    maxConns: int, minConns: int, maxConnLifetime: int, maxConnIdleTime: int, pingTimeout: int,
    sslMode: string, caPEM: string,
    typeNames: Option<seq<string>>)

  /** A nil and an empty list of type names become the same. */
  function Canonical(o: Options): Options {
    if o.typeNames == Some([]) then o.(typeNames := None) else o
  }

  function Names(o: Options): seq<string> {
    match o.typeNames
    case None => []
    case Some(names) => names
  }

  /** Options.equal: field by field, with the type names compared as lists. */
  predicate Equal(o: Options, other: Options)
    ensures Equal(o, other) <==>
              o.(typeNames := None) == other.(typeNames := None) && Names(o) == Names(other)
  {
    Canonical(o) == Canonical(other)
  }
}
