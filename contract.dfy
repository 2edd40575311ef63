/**
 * The payroll contract: its instance storage as fields and its public entry
 * points as methods. An entry point that would panic on the host returns
 * `Fail` and leaves every field as it was, which is what the host's revert
 * of the whole invocation amounts to.
 */
module Contract {
  import opened PayrollTypes
  import opened Ledger

  class PayrollContract {
    var owner: Option<Address>
    var token: Option<Address>
    var employees: seq<Address>
    var records: map<Address, Employee>
    var history: seq<PayrollRecord>

    /** The storage as a value. */
    function Snapshot(): Store
      reads this
    {
      Store(owner, token, employees, records, history)
    }

    ghost predicate Valid()
      reads this
    {
      Consistent(Snapshot())
    }

    /** A freshly deployed contract: its instance storage is empty. */
    constructor ()
      ensures Valid()
      ensures owner == None && token == None && employees == [] && records == map[] && history == []
    {
      owner, token := None, None;
      employees, records, history := [], map[], [];
    }

    /** Stores owner and token, and an empty index and history, exactly once. */
    method Initialize(newOwner: Address, newToken: Address) returns (r: Outcome)
      requires Valid()
      modifies this
      ensures Valid() && Evolves(old(Snapshot()), Snapshot())
      ensures r.Pass? <==> old(owner).None?
      ensures r.Fail? ==> r.error == AlreadyInitialized && Snapshot() == old(Snapshot())
      ensures r.Pass? ==> owner == Some(newOwner) && token == Some(newToken)
      ensures r.Pass? ==> employees == [] && records == map[] && history == []
    {
      if owner.Some? {
        return Fail(AlreadyInitialized);
      }
      InitializeKeepsConsistent(Snapshot(), newOwner, newToken);
      owner, token := Some(newOwner), Some(newToken);
      employees, history := [], [];
      r := Pass;
    }

    /** The owner check every mutating entry point starts with. */
    function RequireOwner(caller: Address): (r: Outcome)
      reads this
      ensures r.Pass? <==> owner == Some(caller)
      ensures owner.None? ==> r == Fail(NotInitialized)
      ensures owner.Some? && owner.value != caller ==> r == Fail(Unauthorized)
    {
      match owner
      case None => Fail(NotInitialized)
      case Some(o) => if caller == o then Pass else Fail(Unauthorized)
    }

    /**
     * Registers `addr` as an active employee with the given salary and name,
     * appending it to the end of the index.
     */
    method AddEmployee(caller: Address, addr: Address, salary: i128, name: string) returns (r: Outcome)
      requires Valid()
      modifies this
      ensures Valid() && Evolves(old(Snapshot()), Snapshot())
      ensures old(RequireOwner(caller)).Fail? ==> r == old(RequireOwner(caller))
      ensures old(owner) == Some(caller) && salary <= 0 ==> r == Fail(InvalidSalary)
      ensures old(owner) == Some(caller) && salary > 0 && addr in old(records) ==> r == Fail(EmployeeAlreadyExists)
      ensures r.Pass? <==> old(owner) == Some(caller) && salary > 0 && addr !in old(records)
      ensures r.Fail? ==> Snapshot() == old(Snapshot())
      ensures r.Pass? ==> records == old(records)[addr := Employee(addr, salary, name, true)]
      ensures r.Pass? ==> employees == old(employees) + [addr]
      ensures r.Pass? ==> owner == old(owner) && token == old(token) && history == old(history)
    {
      r := RequireOwner(caller);
      if r.Fail? {
        return;
      }
      if salary <= 0 {
        return Fail(InvalidSalary);
      }
      if addr in records {
        return Fail(EmployeeAlreadyExists);
      }
      AddEmployeeKeepsConsistent(Snapshot(), addr, salary, name);
      records := records[addr := Employee(addr, salary, name, true)];
      employees := employees + [addr];
    }

    /** Overwrites the salary of a registered employee; nothing else changes. */
    method UpdateSalary(caller: Address, addr: Address, newSalary: i128) returns (r: Outcome)
      requires Valid()
      modifies this
      ensures Valid() && Evolves(old(Snapshot()), Snapshot())
      ensures old(RequireOwner(caller)).Fail? ==> r == old(RequireOwner(caller))
      ensures old(owner) == Some(caller) && newSalary <= 0 ==> r == Fail(InvalidSalary)
      ensures old(owner) == Some(caller) && newSalary > 0 && addr !in old(records) ==> r == Fail(EmployeeNotFound)
      ensures r.Pass? <==> old(owner) == Some(caller) && newSalary > 0 && addr in old(records)
      ensures r.Fail? ==> Snapshot() == old(Snapshot())
      ensures r.Pass? ==> records == old(records)[addr := old(records)[addr].(salary := newSalary)]
      ensures r.Pass? ==> owner == old(owner) && token == old(token)
      ensures r.Pass? ==> employees == old(employees) && history == old(history)
    {
      r := RequireOwner(caller);
      if r.Fail? {
        return;
      }
      if newSalary <= 0 {
        return Fail(InvalidSalary);
      }
      if addr !in records {
        return Fail(EmployeeNotFound);
      }
      UpdateSalaryKeepsConsistent(Snapshot(), addr, newSalary);
      var employee := records[addr];
      employee := employee.(salary := newSalary);
      records := records[addr := employee];
    }

    /**
     * Clears the active flag of a registered employee; nothing else changes.
     * Deactivating an inactive employee succeeds and changes nothing.
     */
    method DeactivateEmployee(caller: Address, addr: Address) returns (r: Outcome)
      requires Valid()
      modifies this
      ensures Valid() && Evolves(old(Snapshot()), Snapshot())
      ensures old(RequireOwner(caller)).Fail? ==> r == old(RequireOwner(caller))
      ensures old(owner) == Some(caller) && addr !in old(records) ==> r == Fail(EmployeeNotFound)
      ensures r.Pass? <==> old(owner) == Some(caller) && addr in old(records)
      ensures r.Fail? ==> Snapshot() == old(Snapshot())
      ensures r.Pass? ==> records == old(records)[addr := old(records)[addr].(active := false)]
      ensures r.Pass? && !old(records)[addr].active ==> records == old(records)
      ensures r.Pass? ==> owner == old(owner) && token == old(token)
      ensures r.Pass? ==> employees == old(employees) && history == old(history)
    {
      r := RequireOwner(caller);
      if r.Fail? {
        return;
      }
      if addr !in records {
        return Fail(EmployeeNotFound);
      }
      DeactivateKeepsConsistent(Snapshot(), addr);
      var employee := records[addr];
      employee := employee.(active := false);
      records := records[addr := employee];
    }

    /**
     * Pays one active employee its current salary from the caller's account
     * through the token contract, then appends the payment to the history.
     * A failed transfer aborts the call and nothing is recorded.
     */
    method PayEmployee(caller: Address, addr: Address, period: string, now: u64,
                       transfer: Transfer -> bool) returns (r: Outcome)
      requires Valid()
      modifies this
      ensures Valid() && Evolves(old(Snapshot()), Snapshot())
      ensures old(RequireOwner(caller)).Fail? ==> r == old(RequireOwner(caller))
      ensures old(owner) == Some(caller) && addr !in old(records) ==> r == Fail(EmployeeNotFound)
      ensures old(owner) == Some(caller) && addr in old(records) && !old(records)[addr].active ==>
        r == Fail(EmployeeInactive)
      ensures (old(owner) == Some(caller) && addr in old(records) && old(records)[addr].active &&
               !transfer(Transfer(old(token).value, caller, addr, old(records)[addr].salary)))
        ==> r == Fail(TransferFailure)
      ensures r.Pass? <==>
        old(owner) == Some(caller) && addr in old(records) && old(records)[addr].active &&
        transfer(Transfer(old(token).value, caller, addr, old(records)[addr].salary))
      ensures r.Fail? ==> Snapshot() == old(Snapshot())
      ensures r.Pass? ==> history == old(history) + [PayrollRecord(addr, old(records)[addr].salary, now, period)]
      ensures r.Pass? ==> owner == old(owner) && token == old(token)
      ensures r.Pass? ==> employees == old(employees) && records == old(records)
    {
      r := RequireOwner(caller);
      if r.Fail? {
        return;
      }
      if addr !in records {
        return Fail(EmployeeNotFound);
      }
      var employee := records[addr];
      if !employee.active {
        return Fail(EmployeeInactive);
      }
      var tokenAddress := token.value;
      if !transfer(Transfer(tokenAddress, caller, addr, employee.salary)) {
        return Fail(TransferFailure);
      }
      var record := PayRecord(addr, employee, now, period);
      history := history + [record];
    }

    /**
     * Walks the index in order and pays every active employee as
     * `PayEmployee` does. The batch is all or nothing: its records are
     * staged by `TransferBatch` and appended to the history only when every
     * transfer has succeeded; otherwise they are discarded.
     */
    method PayAllEmployees(caller: Address, period: string, now: u64,
                           transfer: Transfer -> bool) returns (r: Outcome)
      requires Valid()
      modifies this
      ensures Valid() && Evolves(old(Snapshot()), Snapshot())
      ensures old(RequireOwner(caller)).Fail? ==> r == old(RequireOwner(caller))
      ensures r.Pass? <==>
        old(owner) == Some(caller) && BatchFunded(old(employees), old(records), old(token).value, caller, transfer)
      ensures r.Fail? ==> Snapshot() == old(Snapshot())
      ensures r.Fail? && old(owner) == Some(caller) ==> r == Fail(TransferFailure)
      ensures r.Pass? ==> Indexed(old(employees), old(records))
      ensures r.Pass? ==> history == old(history) + BatchRecords(old(employees), old(records), now, period)
      ensures r.Pass? ==> owner == old(owner) && token == old(token)
      ensures r.Pass? ==> employees == old(employees) && records == old(records)
    {
      r := RequireOwner(caller);
      if r.Fail? {
        return;
      }
      BatchKeepsConsistent(Snapshot(), now, period);
      var funded, batch := TransferBatch(employees, records, token.value, caller, now, period, transfer);
      if !funded {
        return Fail(TransferFailure);
      }
      history := history + batch;
    }

    /** Looks up an employee entry. */
    function GetEmployee(addr: Address): (r: Result<Employee>)
      reads this
      requires Valid()
      ensures r.Ok? <==> addr in employees
      ensures r.Err? ==> r.error == EmployeeNotFound
      ensures r.Ok? ==> r.value.address == addr && r.value.salary > 0
    {
      if addr in records then Ok(records[addr]) else Err(EmployeeNotFound)
    }

    /** The index of employee addresses, empty before initialisation. */
    function GetAllEmployees(): (r: seq<Address>)
      reads this
      requires Valid()
      ensures Distinct(r)
      ensures forall a :: a in r <==> GetEmployee(a).Ok?
      ensures owner.None? ==> r == []
    {
      employees
    }

    /** The payroll history, empty before initialisation. */
    function GetPayrollHistory(): (r: seq<PayrollRecord>)
      reads this
      requires Valid()
      ensures forall k :: 0 <= k < |r| ==> r[k].amount > 0 && GetEmployee(r[k].employee).Ok?
      ensures owner.None? ==> r == []
    {
      history
    }

    /** The owner; reading it before initialisation aborts. */
    function GetOwner(): (r: Result<Address>)
      reads this
      ensures r.Ok? <==> owner.Some?
      ensures r.Ok? ==> RequireOwner(r.value).Pass?
      ensures r.Err? ==> r.error == NotInitialized
    {
      match owner
      case None => Err(NotInitialized)
      case Some(o) => Ok(o)
    }
  }

  /**
   * The loop of a batch payment: for each address of the index in order,
   * skip it when inactive, otherwise ask for the transfer of its salary from
   * `caller` and stage its history record. The first refused transfer stops
   * the loop and discards everything staged.
   */
  method TransferBatch(index: seq<Address>, records: map<Address, Employee>, token: Address, caller: Address,
                       now: u64, period: string, transfer: Transfer -> bool)
    returns (funded: bool, batch: seq<PayrollRecord>)
    requires Indexed(index, records)
    ensures funded <==> BatchFunded(index, records, token, caller, transfer)
    ensures funded ==> batch == BatchRecords(index, records, now, period)
    ensures !funded ==> batch == []
  {
    batch := [];
    for i := 0 to |index|
      invariant batch == BatchRecords(index[..i], records, now, period)
      invariant BatchFunded(index[..i], records, token, caller, transfer)
    {
      var employeeAddr := index[i];
      var employee := records[employeeAddr];
      if employee.active {
        if !transfer(Transfer(token, caller, employeeAddr, employee.salary)) {
          BatchUnfunded(index, records, i, token, caller, transfer);
          return false, [];
        }
        batch := batch + [PayRecord(employeeAddr, employee, now, period)];
      }
      BatchStep(index, records, i, now, period, token, caller, transfer);
    }
    assert index[..|index|] == index;
    funded := true;
  }
}
