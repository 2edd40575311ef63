/**
 * Value types of the payroll contract: the two records it stores
 * (`Employee`, `PayrollRecord`), the host integer widths it uses, the
 * error kinds its entry points abort with, and the request it hands to
 * the external token contract.
 */
module PayrollTypes {

  /** Rust `i128`: salaries and payment amounts. */
  type i128 = x: int | -0x8000_0000_0000_0000_0000_0000_0000_0000 <= x < 0x8000_0000_0000_0000_0000_0000_0000_0000

  /** Rust `u64`: the ledger timestamp. */
  type u64 = x: int | 0 <= x < 0x1_0000_0000_0000_0000

  /** A storage entry that may be absent. */
  datatype Option<+T> = None | Some(value: T)

  /** An account on the host; only its identity matters here. */
  datatype Address = Address(id: nat)

  /** One entry of the employee registry, stored under the employee's address. */
  datatype Employee = Employee(address: Address, salary: i128, name: string, active: bool)

  /** One entry of the append-only payroll history. */
  datatype PayrollRecord = PayrollRecord(employee: Address, amount: i128, timestamp: u64, period: string)

  /**
   * The reasons an entry point aborts. On the host each of these is a panic,
   * which reverts every write of the invocation; `NotInitialized` is the
   * panic of `unwrap()` on a missing owner entry.
   */
  datatype Error =
    | AlreadyInitialized
    | NotInitialized
    | Unauthorized
    | InvalidSalary
    | EmployeeAlreadyExists
    | EmployeeNotFound
    | EmployeeInactive
    | TransferFailure

  /** Outcome of an entry point that returns nothing on success. */
  datatype Outcome = Pass | Fail(error: Error)

  /** Outcome of a query that returns a value on success. */
  datatype Result<+T> = Ok(value: T) | Err(error: Error)

  /**
   * A call `token::Client::transfer(from, to, amount)` on the token contract
   * at address `token`. Whether it succeeds is decided by that contract; the
   * model receives the answer as an oracle `Transfer -> bool`.
   */
  datatype Transfer = Transfer(token: Address, from: Address, to: Address, amount: i128)
}
