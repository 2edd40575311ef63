/**
 * Client code that drives the contract through the scenarios of its unit
 * tests, and through the error paths and payments they leave out. Each method starts from a freshly deployed contract and
 * its postcondition is what the scenario asserts; the proofs use only the
 * entry points' contracts.
 */
module Scenarios {
  import opened PayrollTypes
  import opened Ledger
  import opened Contract

  /** After `initialize`, the owner reads back and index and history are empty. */
  method InitializeThenQuery(owner: Address, token: Address)
    returns (got: Result<Address>, index: seq<Address>, history: seq<PayrollRecord>)
    ensures got == Ok(owner) && index == [] && history == []
  {
    var c := new PayrollContract();
    var r := c.Initialize(owner, token);
    got := c.GetOwner();
    index := c.GetAllEmployees();
    history := c.GetPayrollHistory();
  }

  /** A second `initialize` aborts and keeps the first owner and token. */
  method InitializeTwice(owner: Address, token: Address, owner2: Address, token2: Address)
    returns (second: Outcome, got: Result<Address>, storedToken: Option<Address>)
    ensures second == Fail(AlreadyInitialized) && got == Ok(owner) && storedToken == Some(token)
  {
    var c := new PayrollContract();
    var first := c.Initialize(owner, token);
    second := c.Initialize(owner2, token2);
    got := c.GetOwner();
    storedToken := c.token;
  }

  /** Before `initialize`, every owner-only entry point aborts on the missing owner. */
  method UninitializedRejects(caller: Address, e: Address) returns (r: Outcome, got: Result<Address>)
    ensures r == Fail(NotInitialized) && got == Err(NotInitialized)
  {
    var c := new PayrollContract();
    r := c.AddEmployee(caller, e, 100_000, "John Doe");
    got := c.GetOwner();
  }

  /** A new employee reads back with its salary and name, active. */
  method AddThenGet(owner: Address, token: Address, e: Address) returns (emp: Result<Employee>)
    ensures emp == Ok(Employee(e, 100_000, "John Doe", true))
  {
    var c := new PayrollContract();
    var r := c.Initialize(owner, token);
    r := c.AddEmployee(owner, e, 100_000, "John Doe");
    emp := c.GetEmployee(e);
  }

  /** Registering the same address twice aborts and keeps the first entry. */
  method AddTwice(owner: Address, token: Address, e: Address)
    returns (second: Outcome, emp: Result<Employee>, index: seq<Address>)
    ensures second == Fail(EmployeeAlreadyExists)
    ensures emp == Ok(Employee(e, 100_000, "John Doe", true)) && index == [e]
  {
    var c := new PayrollContract();
    var r := c.Initialize(owner, token);
    r := c.AddEmployee(owner, e, 100_000, "John Doe");
    second := c.AddEmployee(owner, e, 50_000, "Jane Roe");
    emp := c.GetEmployee(e);
    index := c.GetAllEmployees();
  }

  /** A salary update changes the salary and nothing else of the entry. */
  method UpdateThenGet(owner: Address, token: Address, e: Address) returns (emp: Result<Employee>)
    ensures emp == Ok(Employee(e, 120_000, "John Doe", true))
  {
    var c := new PayrollContract();
    var r := c.Initialize(owner, token);
    r := c.AddEmployee(owner, e, 100_000, "John Doe");
    r := c.UpdateSalary(owner, e, 120_000);
    emp := c.GetEmployee(e);
  }

  /** A non-positive salary is refused on update and the old salary stays. */
  method UpdateToZeroRejected(owner: Address, token: Address, e: Address)
    returns (r: Outcome, emp: Result<Employee>)
    ensures r == Fail(InvalidSalary) && emp == Ok(Employee(e, 100_000, "John Doe", true))
  {
    var c := new PayrollContract();
    r := c.Initialize(owner, token);
    r := c.AddEmployee(owner, e, 100_000, "John Doe");
    r := c.UpdateSalary(owner, e, 0);
    emp := c.GetEmployee(e);
  }

  /** Deactivation clears the active flag, and doing it twice is the same as once. */
  method DeactivateThenGet(owner: Address, token: Address, e: Address)
    returns (again: Outcome, emp: Result<Employee>)
    ensures again == Pass && emp == Ok(Employee(e, 100_000, "John Doe", false))
  {
    var c := new PayrollContract();
    var r := c.Initialize(owner, token);
    r := c.AddEmployee(owner, e, 100_000, "John Doe");
    r := c.DeactivateEmployee(owner, e);
    again := c.DeactivateEmployee(owner, e);
    emp := c.GetEmployee(e);
  }

  /** A caller other than the owner cannot register an employee. */
  method NonOwnerCannotAdd(owner: Address, token: Address, nonOwner: Address, e: Address)
    returns (r: Outcome, emp: Result<Employee>, index: seq<Address>)
    requires nonOwner != owner
    ensures r == Fail(Unauthorized) && emp == Err(EmployeeNotFound) && index == []
  {
    var c := new PayrollContract();
    r := c.Initialize(owner, token);
    r := c.AddEmployee(nonOwner, e, 100_000, "John Doe");
    emp := c.GetEmployee(e);
    index := c.GetAllEmployees();
  }

  /** A deactivated employee cannot be paid and the history stays empty. */
  method DeactivatedNotPaid(owner: Address, token: Address, e: Address, now: u64)
    returns (r: Outcome, history: seq<PayrollRecord>)
    ensures r == Fail(EmployeeInactive) && history == []
  {
    var c := new PayrollContract();
    r := c.Initialize(owner, token);
    r := c.AddEmployee(owner, e, 100_000, "John Doe");
    r := c.DeactivateEmployee(owner, e);
    r := c.PayEmployee(owner, e, "2024-01", now, t => true);
    history := c.GetPayrollHistory();
  }

  /** Paying one employee appends one record with its salary, time and period. */
  method PayOne(owner: Address, token: Address, e: Address, now: u64)
    returns (r: Outcome, history: seq<PayrollRecord>)
    ensures r == Pass && history == [PayrollRecord(e, 100_000, now, "2024-01")]
  {
    var c := new PayrollContract();
    r := c.Initialize(owner, token);
    r := c.AddEmployee(owner, e, 100_000, "John Doe");
    r := c.PayEmployee(owner, e, "2024-01", now, t => true);
    history := c.GetPayrollHistory();
  }

  /** A refused transfer aborts a single payment and records nothing. */
  method PayOneRefused(owner: Address, token: Address, e: Address, now: u64)
    returns (r: Outcome, history: seq<PayrollRecord>)
    ensures r == Fail(TransferFailure) && history == []
  {
    var c := new PayrollContract();
    r := c.Initialize(owner, token);
    r := c.AddEmployee(owner, e, 100_000, "John Doe");
    r := c.PayEmployee(owner, e, "2024-01", now, t => false);
    history := c.GetPayrollHistory();
  }

  /** A contract owned by `owner` with two active employees registered in the order e1, e2. */
  method TwoEmployees(owner: Address, token: Address, e1: Address, e2: Address) returns (c: PayrollContract)
    requires e1 != e2
    ensures fresh(c) && c.Valid()
    ensures c.owner == Some(owner) && c.token == Some(token)
    ensures c.employees == [e1, e2] && c.history == []
    ensures c.records == map[e1 := Employee(e1, 100_000, "John Doe", true), e2 := Employee(e2, 90_000, "Jane Roe", true)]
  {
    c := new PayrollContract();
    var r := c.Initialize(owner, token);
    r := c.AddEmployee(owner, e1, 100_000, "John Doe");
    r := c.AddEmployee(owner, e2, 90_000, "Jane Roe");
  }

  /** A batch skips a deactivated employee and pays the active one. */
  method PayAllSkipsInactive(owner: Address, token: Address, e1: Address, e2: Address, now: u64)
    returns (r: Outcome, history: seq<PayrollRecord>)
    requires e1 != e2
    ensures r == Pass && history == [PayrollRecord(e1, 100_000, now, "2024-01")]
  {
    var c := TwoEmployees(owner, token, e1, e2);
    r := c.DeactivateEmployee(owner, e2);
    ghost var records := c.records;
    assert [e1, e2][..1] == [e1] && [e1][..0] == [];
    assert BatchRecords([e1], records, now, "2024-01") == [PayrollRecord(e1, 100_000, now, "2024-01")];
    assert BatchRecords([e1, e2], records, now, "2024-01") == [PayrollRecord(e1, 100_000, now, "2024-01")];
    r := c.PayAllEmployees(owner, "2024-01", now, t => true);
    history := c.GetPayrollHistory();
  }

  /** When the second transfer of a batch fails, the first payment is not recorded either. */
  method PayAllRollsBack(owner: Address, token: Address, e1: Address, e2: Address, now: u64)
    returns (r: Outcome, history: seq<PayrollRecord>)
    requires e1 != e2
    ensures r == Fail(TransferFailure) && history == []
  {
    var c := TwoEmployees(owner, token, e1, e2);
    r := c.PayAllEmployees(owner, "2024-01", now, (t: Transfer) => t.to != e2);
    history := c.GetPayrollHistory();
  }
}
