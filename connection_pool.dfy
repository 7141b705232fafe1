/**
 * Bookkeeping of a pool of read-only connections: which connections are
 * available for reuse and which are checked out.
 *
 * A connection is identified by the id the pool gave it when it opened it.
 * Whether opening a native connection succeeds is decided by the file system
 * and the SQLite engine, so it is a parameter of the operations that open one.
 */
module ConnectionPooling {
  import opened Wrappers
  import opened SQLite

  type ConnectionId = nat

  /** The error a failing SQLite call throws, carrying its result code. */
  datatype SQLiteError = SQLiteError(code: int32)

  class ConnectionPool {
    /** Connections ready for reuse, the one handed out next first. */
    var availableConnections: seq<ConnectionId>
    /** Connections currently checked out. */
    var busyConnections: set<ConnectionId>
    /** Connections on which the preparation step has run. */
    var preparedConnections: set<ConnectionId>
    /** Connections the idle drain has closed. */
    ghost var closedConnections: set<ConnectionId>
    /** The id the next opened connection receives. */
    var nextId: nat
    /** Whether the pool was given a preparation step for new connections. */
    const hasPreparation: bool

    ghost predicate Valid()
      reads this
    {
      && (forall i, j | 0 <= i < j < |availableConnections| :: availableConnections[i] != availableConnections[j])
      && (forall c | c in availableConnections :: c !in busyConnections && c < nextId)
      && (forall c | c in busyConnections :: c < nextId && c !in closedConnections)
      && (forall c | c in closedConnections :: c < nextId && c !in availableConnections)
      // every connection the pool opened is available, busy or closed
      && (forall c: ConnectionId | c < nextId :: c in availableConnections || c in busyConnections || c in closedConnections)
      && (hasPreparation ==> (forall c | c in availableConnections :: c in preparedConnections))
      && (hasPreparation ==> busyConnections <= preparedConnections)
    }

    /** The connection the next successful dequeue hands out. */
    ghost function NextConnection(): ConnectionId
      reads this
    {
      if availableConnections != [] then availableConnections[0] else nextId
    }

    /**
     * A new pool tries to open one connection and makes it available; when
     * that open fails the pool starts empty and initialisation still succeeds.
     */
    constructor (hasPreparation: bool, openSucceeds: bool)
      ensures Valid()
      ensures this.hasPreparation == hasPreparation
      ensures busyConnections == {} && closedConnections == {}
      ensures openSucceeds ==>
                && availableConnections == [0] && nextId == 1
                && preparedConnections == if hasPreparation then {0} else {}
      ensures !openSucceeds ==> availableConnections == [] && nextId == 0 && preparedConnections == {}
    {
      this.hasPreparation := hasPreparation;
      busyConnections := {};
      closedConnections := {};
      if openSucceeds {
        availableConnections := [0];
        preparedConnections := if hasPreparation then {0} else {};
        nextId := 1;
      } else {
        availableConnections := [];
        preparedConnections := {};
        nextId := 0;
      }
    }

    /** `availableConnections.removeAll()`: the dropped connections are released, which closes them. */
    method RemoveAllAvailable()
      requires Valid()
      modifies this
      ensures Valid()
      ensures availableConnections == []
      ensures closedConnections == old(closedConnections) + (set c | c in old(availableConnections))
      ensures busyConnections == old(busyConnections) && nextId == old(nextId) && preparedConnections == old(preparedConnections)
    {
      closedConnections := closedConnections + set c | c in availableConnections;
      availableConnections := [];
    }

    /**
     * Checks out a connection: the first available one, or else a newly
     * opened one (prepared, when the pool has a preparation step). Opening
     * fails with `SQLITE_CANTOPEN` and leaves the pool unchanged.
     */
    method DequeueConnectionForUse(openSucceeds: bool) returns (r: Result<ConnectionId, SQLiteError>)
      requires Valid()
      modifies this
      ensures Valid()
      ensures closedConnections == old(closedConnections)
      ensures old(availableConnections) != [] ==>
                && r == Success(old(availableConnections)[0])
                && availableConnections == old(availableConnections)[1..]
                && nextId == old(nextId) && preparedConnections == old(preparedConnections)
      ensures old(availableConnections) == [] && openSucceeds ==>
                && r == Success(old(nextId))
                && availableConnections == [] && nextId == old(nextId) + 1
                && preparedConnections == if hasPreparation then old(preparedConnections) + {old(nextId)} else old(preparedConnections)
      ensures old(availableConnections) == [] && !openSucceeds ==>
                && r == Failure(SQLiteError(SQLITE_CANTOPEN))
                && availableConnections == old(availableConnections) && busyConnections == old(busyConnections)
                && nextId == old(nextId) && preparedConnections == old(preparedConnections)
      ensures r.Success? ==>
                && r.value == old(NextConnection())
                && r.value !in old(busyConnections)
                && busyConnections == old(busyConnections) + {r.value}
                && r.value !in availableConnections
                && (hasPreparation ==> r.value in preparedConnections)
    {
      if availableConnections != [] {
        var connection := availableConnections[0];
        var rest := availableConnections[1..];
        // the rest were available and, having no duplicates, do not include the head
        forall c | c in rest ensures c in availableConnections && c != connection {
          var k :| 0 <= k < |rest| && rest[k] == c;
          assert availableConnections[k + 1] == c;
        }
        availableConnections := rest;
        busyConnections := busyConnections + {connection};
        r := Success(connection);
      } else if openSucceeds {
        var connection := nextId;
        nextId := nextId + 1;
        if hasPreparation {
          preparedConnections := preparedConnections + {connection};
        }
        busyConnections := busyConnections + {connection};
        r := Success(connection);
      } else {
        r := Failure(SQLiteError(SQLITE_CANTOPEN));
      }
    }

    /** Returns a busy connection to the front of the available ones; any other connection is ignored. */
    method EnqueueConnectionForReuse(connection: ConnectionId)
      requires Valid()
      modifies this
      ensures Valid()
      ensures nextId == old(nextId) && preparedConnections == old(preparedConnections)
      ensures closedConnections == old(closedConnections)
      ensures connection in old(busyConnections) ==>
                && availableConnections == [connection] + old(availableConnections)
                && busyConnections == old(busyConnections) - {connection}
      ensures connection !in old(busyConnections) ==>
                availableConnections == old(availableConnections) && busyConnections == old(busyConnections)
      ensures connection in old(busyConnections) ==>
                connection in availableConnections && connection !in busyConnections
    {
      if connection in busyConnections {
        busyConnections := busyConnections - {connection};
        availableConnections := [connection] + availableConnections;
      }
    }

    /**
     * Runs `work` on a checked-out connection and returns that connection for
     * reuse whatever the work's outcome; the work's value or error is passed
     * on unchanged. A failure to open a connection is passed on instead.
     */
    method Execute<T>(openSucceeds: bool, work: ConnectionId -> Result<T, SQLiteError>) returns (r: Result<T, SQLiteError>)
      requires Valid()
      modifies this
      ensures Valid()
      ensures old(availableConnections) == [] && !openSucceeds ==>
                && r == Failure(SQLiteError(SQLITE_CANTOPEN))
                && availableConnections == old(availableConnections) && nextId == old(nextId)
                && preparedConnections == old(preparedConnections)
      ensures old(availableConnections) != [] || openSucceeds ==>
                && r == work(old(NextConnection()))
                && old(NextConnection()) !in old(busyConnections)
                && availableConnections == [old(NextConnection())] + (if old(availableConnections) != [] then old(availableConnections)[1..] else [])
                && nextId == (if old(availableConnections) == [] then old(nextId) + 1 else old(nextId))
                && (hasPreparation ==> old(NextConnection()) in preparedConnections)
                && preparedConnections == (if hasPreparation && old(availableConnections) == [] then old(preparedConnections) + {old(nextId)} else old(preparedConnections))
      ensures busyConnections == old(busyConnections) && closedConnections == old(closedConnections)
    {
      var dequeued := DequeueConnectionForUse(openSucceeds);
      match dequeued {
        case Failure(e) =>
          r := Failure(e);
        case Success(connection) =>
          r := work(connection);
          EnqueueConnectionForReuse(connection);
      }
    }

    /** The idle drain: closes every available connection but the first. */
    method DrainAvailableConnections()
      requires Valid()
      modifies this
      ensures Valid()
      ensures availableConnections == if |old(availableConnections)| <= 1 then old(availableConnections) else old(availableConnections)[..1]
      ensures closedConnections == old(closedConnections) + (set c | c in old(availableConnections) && c !in availableConnections)
      ensures busyConnections == old(busyConnections) && nextId == old(nextId) && preparedConnections == old(preparedConnections)
    {
      if |availableConnections| > 1 {
        closedConnections := closedConnections + set c | c in availableConnections[1..];
        availableConnections := availableConnections[..1];
      }
    }
  }

  // ---------------------------------------------------------------------------
  // The pool's behaviour as its tests exercise it

  /** Dequeuing from a pool whose location cannot be opened fails with `SQLITE_CANTOPEN`. */
  method DequeueFromUnopenableLocation() returns (r: Result<ConnectionId, SQLiteError>)
    ensures r.Failure? && r.error.code == SQLITE_CANTOPEN
  {
    var pool := new ConnectionPool(false, false);
    r := pool.DequeueConnectionForUse(false);
  }

  /** Dequeuing with no available connection opens one, which is then busy and not available. */
  method DequeueOpensNewConnection() returns (openedCount: nat, inAvailable: bool, inBusy: bool)
    ensures openedCount == 1 && !inAvailable && inBusy
  {
    var pool := new ConnectionPool(false, true);
    pool.RemoveAllAvailable();
    var before := pool.nextId;
    var r := pool.DequeueConnectionForUse(true);
    var connection := r.value;
    openedCount := pool.nextId - before;
    inAvailable := connection in pool.availableConnections;
    inBusy := connection in pool.busyConnections;
  }

  /**
   * With a preparation step and one connection already checked out, work run
   * through the pool gets a second, prepared connection, and the first stays
   * busy and unavailable.
   */
  method ExecuteWhileCheckedOutUsesPreparedConnection() returns (firstAvailable: bool, firstBusy: bool, workConnectionPrepared: bool, distinct: bool)
    ensures !firstAvailable && firstBusy && workConnectionPrepared && distinct
  {
    var pool := new ConnectionPool(true, true);
    pool.RemoveAllAvailable();
    var first := pool.DequeueConnectionForUse(true);
    var used := pool.Execute(true, (c: ConnectionId) => Success(c));
    firstAvailable := first.value in pool.availableConnections;
    firstBusy := first.value in pool.busyConnections;
    workConnectionPrepared := used.Success? && used.value in pool.preparedConnections;
    distinct := used.Success? && used.value != first.value;
  }

  /** A checked-out connection moves from busy to available when it is enqueued. */
  method EnqueueMovesBusyToAvailable() returns (availableBefore: bool, busyBefore: bool, availableAfter: bool, busyAfter: bool)
    ensures !availableBefore && busyBefore && availableAfter && !busyAfter
  {
    var pool := new ConnectionPool(false, true);
    var r := pool.DequeueConnectionForUse(true);
    var connection := r.value;
    availableBefore := connection in pool.availableConnections;
    busyBefore := connection in pool.busyConnections;
    pool.EnqueueConnectionForReuse(connection);
    availableAfter := connection in pool.availableConnections;
    busyAfter := connection in pool.busyConnections;
  }

  /**
   * A burst of `burst` overlapping checkouts on a new pool leaves `burst`
   * connections opened in all (the initial one included); once
   * they are all returned they are all available, and the idle drain then
   * leaves exactly one.
   */
  method BurstThenDrainLeavesOne(burst: nat) returns (openedCount: nat, availableAfterBurst: nat, availableAfterDrain: nat)
    requires burst >= 1
    ensures openedCount == burst && availableAfterBurst == burst && availableAfterDrain == 1
  {
    var pool := new ConnectionPool(false, true);
    var i := 0;
    // the first checkout reuses the connection opened at initialisation; each later one opens a new one
    while i < burst
      invariant 0 <= i <= burst
      invariant pool.Valid() && !pool.hasPreparation
      invariant pool.availableConnections == (if i == 0 then [0] else [])
      invariant pool.nextId == if i == 0 then 1 else i
      invariant forall c :: c in pool.busyConnections <==> 0 <= c < i
    {
      var r := pool.DequeueConnectionForUse(true);
      i := i + 1;
    }
    var j := 0;
    while j < burst
      invariant 0 <= j <= burst
      invariant pool.Valid() && pool.nextId == burst
      invariant |pool.availableConnections| == j
      invariant forall c :: c in pool.busyConnections <==> j <= c < burst
    {
      pool.EnqueueConnectionForReuse(j);
      j := j + 1;
    }
    openedCount := pool.nextId;
    availableAfterBurst := |pool.availableConnections|;
    pool.DrainAvailableConnections();
    availableAfterDrain := |pool.availableConnections|;
  }
}
