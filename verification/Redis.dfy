/** The Redis tables one refresh reads. Each request has one answer for the whole refresh, or fails. */
module Redis {
  import opened Results
  import opened Sequences

  datatype Db = APPL_DB | ASIC_DB | COUNTERS_DB | CONFIG_DB | STATE_DB

  type Fields = map<string, string>

  datatype Request = Scan(db: Db, pattern: string) | HGetAll(db: Db, key: string)

  /** Parsing of decimal numbers, which is not part of this model. */
  type ParseNumber = string -> Option<real>

  /** Reading a field that a hash lacks gives the empty string. */
  function Get(fields: Fields, name: string): string {
    if name in fields then fields[name] else ""
  }

  datatype Store = Store(scans: (Db, string) -> Option<seq<string>>, hashes: (Db, string) -> Option<Fields>) {
    function ScanKeys(db: Db, pattern: string): Result<seq<string>, Request> {
      match scans(db, pattern)
      case Some(keys) => Success(keys)
      case None => Failure(Scan(db, pattern))
    }

    /** A missing key reads as an empty hash; only the connection can fail. */
    function ReadHash(db: Db, key: string): Result<Fields, Request> {
      match hashes(db, key)
      case Some(fields) => Success(fields)
      case None => Failure(HGetAll(db, key))
    }

    predicate Readable(request: Request) {
      match request
      case Scan(db, pattern) => scans(db, pattern).Some?
      case HGetAll(db, key) => hashes(db, key).Some?
    }

    /** What a successful scan returned; reports are only delivered when every request succeeded. */
    function Keys(db: Db, pattern: string): seq<string> {
      scans(db, pattern).GetOr([])
    }

    function Hash(db: Db, key: string): Fields {
      hashes(db, key).GetOr(map[])
    }

    /**
     * A refresh succeeds with `report` when all its requests are answered, as `complete` says;
     * otherwise it stops at one that is not.
     */
    ghost predicate Answers<R>(complete: bool, report: R, outcome: Result<R, Request>) {
      match outcome
      case Success(value) => complete && value == report
      case Failure(request) => !complete && !Readable(request)
    }
  }
}
