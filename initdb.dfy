/**
 * Start-up of the database repository: a bounded number of connection
 * attempts, each failed one followed by a wait, and a migration after the
 * first connection that succeeds.
 */
module InitDb {
  import opened Wrappers
  import opened Errors
  import opened Config

  /** An open database handle; which one is all that matters here. */
  datatype Db = Db(handle: nat)

  /** The SQL repository built over a handle. */
  datatype PostgresRepo = PostgresRepo(db: Db)

  /** What the connection attempt number i reports. */
  datatype Attempt = Refused(err: Error) | Connected(db: Db)

  /** The number of connection attempts the loop makes at most: none when the setting is not positive. */
  function MaxAttempts(cfg: DBConfig): nat {
    if cfg.reconnRetry > 0 then cfg.reconnRetry else 0
  }

  /**
   * Tries to connect up to `cfg.reconnRetry` times. `connect(i)` is what
   * attempt i reports and `migrateErr` what the migration reports. Returns
   * the repository (None for a nil one), the error (None for nil), how many
   * attempts were made and the waits slept, in order.
   */
  method InitDB(cfg: DBConfig, connect: nat -> Attempt, migrateErr: Option<Error>)
    returns (repo: Option<PostgresRepo>, err: Option<Error>, attempts: nat, waits: seq<Duration>)
    ensures attempts <= MaxAttempts(cfg)
    ensures forall j: nat :: j + 1 < attempts ==> connect(j).Refused?
    ensures cfg.reconnRetry <= 0 ==> repo == None && err == None && attempts == 0
    ensures cfg.reconnRetry > 0 ==> attempts >= 1
    ensures attempts >= 1 && connect(attempts - 1).Connected? ==>
              if migrateErr.None? then repo == Some(PostgresRepo(connect(attempts - 1).db)) && err == None
              else repo == None && err == Some(Wrapped("migration failure", migrateErr.value))
    ensures attempts >= 1 && connect(attempts - 1).Refused? ==>
              attempts == cfg.reconnRetry && repo == None && err == Some(connect(attempts - 1).err)
    ensures |waits| == (if attempts >= 1 && connect(attempts - 1).Connected? then attempts - 1 else attempts)
    ensures forall k :: 0 <= k < |waits| ==> waits[k] == cfg.timeWaitPerTry
  {
    repo, err, attempts, waits := None, None, 0, [];
    var i := 0;
    while i < cfg.reconnRetry
      invariant 0 <= i <= MaxAttempts(cfg)
      invariant attempts == i && repo == None
      invariant forall j: nat :: j < i ==> connect(j).Refused?
      invariant i == 0 ==> err == None
      invariant i > 0 ==> err == Some(connect(i - 1).err)
      invariant |waits| == i
      invariant forall k :: 0 <= k < |waits| ==> waits[k] == cfg.timeWaitPerTry
    {
      attempts := i + 1;
      match connect(i)
      case Connected(db) =>
        if migrateErr.Some? {
          return None, Some(Wrapped("migration failure", migrateErr.value)), attempts, waits;
        }
        return Some(PostgresRepo(db)), None, attempts, waits;
      case Refused(e) =>
        err := Some(e);
        waits := waits + [cfg.timeWaitPerTry];
      i := i + 1;
    }
  }
}
