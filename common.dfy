/**
  * Vocabulary shared by the whole gateway model: tenant tokens, the Java
  * exceptions the core raises, result wrappers, Java's 32-bit counter
  * arithmetic, the configuration values the core reads, and the database
  * adapters together with the supplier that opens them.
  */
module Common {

  /** A tenant token: the key under which every per-tenant structure is kept. */
  type Token = string

  /** The exceptions the core raises or lets through, by Java class. */
  datatype Error =
    | IllegalArgument(message: string)
    | IllegalState(message: string)
    | ArithmeticError                  // integer division or remainder by zero
    | NoSuchElement                    // Optional.get on an empty Optional
    | SQLError(message: string)        // a checked SQLException from the database layer
    | RuntimeError(cause: Error)       // an unchecked RuntimeException wrapping a checked cause
    | RuntimeMessage(message: string)  // an unchecked RuntimeException with a message and no cause

  datatype Option<+T> = None | Some(value: T)

  datatype Result<+T> = Ok(value: T) | Err(error: Error)

  /** The outcome of an operation that returns nothing. */
  datatype Outcome = Pass | Fail(error: Error)

  /** The body of every REST request: the tenant token and the SQL text. */
  datatype SQLQuery = SQLQuery(token: Token, query: string)

  const INT_MIN: int := -0x8000_0000
  const INT_MAX: int := 0x7fff_ffff

  /** Java `int`. */
  type Int32 = x: int | INT_MIN <= x <= INT_MAX

  /** The value an `AtomicInteger` holds after `getAndIncrement`: Java int addition wraps around. */
  function WrapInc(x: Int32): Int32 {
    if x == INT_MAX then INT_MIN else x + 1
  }

  /** The configuration values the arbitration layer reads. */
  datatype Config = Config(
    dbHost: string,
    numAdapterInstances: Int32,        // adapters per tenant pool
    numAdapterInstancesLimit: Int32,   // upper bound on the pool size
    numAdapterAccessLimit: Int32)      // permits per tenant when access is limited

  /** An open database adapter bound to one tenant database. */
  class Adapter {
    const host: string
    const user: string
    const password: string
    const database: string
    ghost var closed: bool

    constructor (host: string, user: string, password: string, database: string)
      ensures this.host == host && this.user == user
      ensures this.password == password && this.database == database
      ensures !closed
    {
      this.host := host;
      this.user := user;
      this.password := password;
      this.database := database;
      closed := false;
    }

    method Close()
      modifies this
      ensures closed
    {
      closed := true;
    }
  }

  /** The injected factory that opens adapters; `created` counts the adapters it has opened. */
  class AdapterSupplier {
    var created: nat

    constructor ()
      ensures created == 0
    {
      created := 0;
    }

    method Get(host: string, user: string, password: string, database: string) returns (a: Adapter)
      modifies this
      ensures fresh(a) && !a.closed
      ensures a.host == host && a.user == user && a.password == password && a.database == database
      ensures created == old(created) + 1
    {
      a := new Adapter(host, user, password, database);
      created := created + 1;
    }
  }
}
