# Payroll contract model

A Dafny model of `PayrollContract`, a Soroban smart contract that keeps a
payroll ledger on chain. The contract stores an owner and a payment token,
a registry of employees keyed by address, an ordered index of those
addresses, and an append-only history of salary payments. Every mutating
entry point is owner-only. Payments go through the token contract's
`transfer`, and each payment is recorded in the history.

The model has four modules:

- `PayrollTypes` (`types.dfy`): the stored records `Employee` and
  `PayrollRecord`, and the host widths `i128` (salaries, amounts) and `u64`
  (timestamps). It also holds the error kinds and the `Transfer` request sent
  to the token contract.
- `Ledger` (`ledger.dfy`): the instance storage as a value `Store`, with
  these parts:
  - the storage invariant `Consistent`: owner and token are stored together;
    the index is duplicate-free and lists exactly the registered addresses;
    every entry is stored under its own address with a positive salary; every
    history record is a positive payment to a registered employee;
  - the relation `Evolves` between the storage before and after any call:
    owner and token are never reassigned; index and history only grow at the
    end; entries are never removed or renamed; an inactive employee never
    becomes active again;
  - the function `BatchRecords`, giving the records one batch payment
    appends, with lemmas about it.
- `Contract` (`contract.dfy`): the class `PayrollContract`. Its fields are
  the storage entries and its methods are the entry points. Every method keeps
  `Valid()` and `Evolves`. A call that panics on the host (and so reverts all
  its writes) returns `Fail(error)` and leaves the storage exactly as it was.
  `TransferBatch` is the loop of `pay_all_employees`.
- `Scenarios` (`scenarios.dfy`): client methods that run the unit-test
  scenarios and a few more against the entry points' contracts. Each scenario
  starts from a freshly deployed contract.

Two details of the code that the model keeps:

- Before `initialize`, the owner-only entry points and `get_owner` abort,
  because they `unwrap()` a missing owner entry. The model gives this abort its
  own error kind, `NotInitialized`, next to the seven kinds the contract's
  panic messages stand for.
- `pay_employee` and `pay_all_employees` transfer from the caller's account
  (lib.rs:159, lib.rs:207), even though the comment at lib.rs:158 says "from
  contract".

## Model

| member | source | states |
|---|---|---|
| `Contract.PayrollContract.constructor` | contracts/hello-world/src/lib.rs:24-35 | a freshly deployed contract has no owner, no token, an empty registry, index and history, and satisfies the storage invariant |
| `Contract.PayrollContract.Initialize` | contracts/hello-world/src/lib.rs:40-53 | succeeds exactly when no owner is stored; then owner and token are the given ones and index, registry and history are empty; otherwise fails with AlreadyInitialized and changes nothing |
| `Contract.PayrollContract.RequireOwner` | contracts/hello-world/src/lib.rs:261-266 | passes exactly when the caller is the stored owner; fails with NotInitialized when no owner is stored and with Unauthorized for any other caller |
| `Contract.PayrollContract.AddEmployee` | contracts/hello-world/src/lib.rs:56-95 | owner check, then InvalidSalary for salary <= 0, then EmployeeAlreadyExists for a known address; on success the entry holds the given address, salary and name with active = true, the address is appended once at the end of the index, and nothing else changes; on failure nothing changes |
| `Contract.PayrollContract.UpdateSalary` | contracts/hello-world/src/lib.rs:98-116 | owner check, then InvalidSalary for salary <= 0, then EmployeeNotFound; on success only that employee's salary changes (name, active flag, index and history untouched); on failure nothing changes |
| `Contract.PayrollContract.DeactivateEmployee` | contracts/hello-world/src/lib.rs:119-133 | owner check, then EmployeeNotFound; on success only that employee's active flag becomes false, and deactivating an inactive employee changes nothing; on failure nothing changes |
| `Contract.PayrollContract.PayEmployee` | contracts/hello-world/src/lib.rs:136-176 | owner check, then EmployeeNotFound, EmployeeInactive, TransferFailure in that order; succeeds exactly when the employee is known and active and the transfer of its salary from the caller succeeds; then the history grows by one record (address, current salary, timestamp, period) at the end; on failure nothing changes |
| `Contract.PayrollContract.PayAllEmployees` | contracts/hello-world/src/lib.rs:179-226 | after the owner check, succeeds exactly when every transfer the batch asks for succeeds; then the history is the old history followed by one record per active employee in index order; otherwise fails with TransferFailure and no record of the batch remains |
| `Contract.TransferBatch` | contracts/hello-world/src/lib.rs:197-225 | the batch loop walks the index in order: `funded` is true exactly when every active employee's salary transfer succeeds; the staged records are then exactly `BatchRecords`, otherwise nothing is staged |
| `Contract.PayrollContract.GetEmployee` | contracts/hello-world/src/lib.rs:229-234 | finds an entry exactly for the addresses in the index, fails with EmployeeNotFound otherwise; a found entry carries its own address and a positive salary |
| `Contract.PayrollContract.GetAllEmployees` | contracts/hello-world/src/lib.rs:237-242 | returns a duplicate-free index that lists exactly the addresses `GetEmployee` finds; empty before initialisation |
| `Contract.PayrollContract.GetPayrollHistory` | contracts/hello-world/src/lib.rs:245-250 | every returned record is a positive payment to a registered employee; empty before initialisation |
| `Contract.PayrollContract.GetOwner` | contracts/hello-world/src/lib.rs:253-258 | returns the owner exactly when one is stored, and that owner passes the owner check; fails with NotInitialized otherwise |
| `Ledger.EvolvesTransitive` | contracts/hello-world/src/lib.rs:40-226 | the change allowed by one call composes: after any run of calls, owner and token stay fixed once set, index and history keep their old contents as a prefix, and no inactive employee is active again |
| `Ledger.InitializeKeepsConsistent` | contracts/hello-world/src/lib.rs:45-52 | initialising empty storage yields storage that satisfies the invariant |
| `Ledger.AddEmployeeKeepsConsistent` | contracts/hello-world/src/lib.rs:66-94 | adding a new address with a positive salary keeps the index duplicate-free and equal to the registry's keys, and keeps the other parts of the invariant |
| `Ledger.UpdateSalaryKeepsConsistent` | contracts/hello-world/src/lib.rs:102-115 | overwriting a salary with a positive one keeps the invariant |
| `Ledger.DeactivateKeepsConsistent` | contracts/hello-world/src/lib.rs:123-132 | clearing an active flag keeps the invariant |
| `Ledger.BatchKeepsConsistent` | contracts/hello-world/src/lib.rs:205-223 | appending a batch's records keeps the invariant, in particular every record's amount stays positive |
| `Ledger.BatchStep` | contracts/hello-world/src/lib.rs:197-224 | one loop iteration extends the staged records by the current employee's record exactly when it is active, and the funded prefix by one |
| `Ledger.BatchUnfunded` | contracts/hello-world/src/lib.rs:205-207 | one refused transfer for an active employee of the index makes the whole batch unfunded |
| `Ledger.BatchRecordsSound` | contracts/hello-world/src/lib.rs:205-215 | every record of a batch pays an active employee of the index exactly its current salary, with the batch's timestamp and period |
| `Ledger.BatchRecordsPayees` | contracts/hello-world/src/lib.rs:197-225 | the payees of a batch, in order, are the active employees of the index, in index order |
| `Ledger.ActivePayeesMembers` | contracts/hello-world/src/lib.rs:197-205 | an address is paid by a batch exactly when it is in the index and active |
| `Ledger.ActivePayeesDistinct` | contracts/hello-world/src/lib.rs:197-225 | over a duplicate-free index, no employee is paid twice by one batch |
| `Scenarios.InitializeThenQuery` | contracts/hello-world/src/test.rs:5-17 | after initialize, get_owner returns the owner, and the index and history are empty |
| `Scenarios.InitializeTwice` | contracts/hello-world/src/lib.rs:41-43 | a second initialize fails with AlreadyInitialized, and the first owner and token stay |
| `Scenarios.UninitializedRejects` | contracts/hello-world/src/lib.rs:261-262 | before initialize, add_employee and get_owner abort with NotInitialized |
| `Scenarios.AddThenGet` | contracts/hello-world/src/test.rs:19-40 | a new employee reads back with salary 100000, its name, and active |
| `Scenarios.AddTwice` | contracts/hello-world/src/lib.rs:71-73 | adding a known address fails with EmployeeAlreadyExists; the first entry and the one-element index stay |
| `Scenarios.UpdateThenGet` | contracts/hello-world/src/test.rs:42-62 | after update_salary to 120000 the entry has that salary, with the same name and still active |
| `Scenarios.UpdateToZeroRejected` | contracts/hello-world/src/lib.rs:102-104 | updating a salary to 0 fails with InvalidSalary and the old salary stays |
| `Scenarios.DeactivateThenGet` | contracts/hello-world/src/test.rs:64-84 | after deactivation the entry is inactive with salary and name kept; a second deactivation succeeds |
| `Scenarios.NonOwnerCannotAdd` | contracts/hello-world/src/test.rs:86-104 | add_employee by a non-owner fails with Unauthorized, and the registry and index stay empty |
| `Scenarios.DeactivatedNotPaid` | contracts/hello-world/src/lib.rs:146-148 | paying a deactivated employee fails with EmployeeInactive, and the history stays empty |
| `Scenarios.PayOne` | contracts/hello-world/src/lib.rs:159-175 | paying an active employee appends exactly one record with its salary, the timestamp and the period |
| `Scenarios.PayOneRefused` | contracts/hello-world/src/lib.rs:159 | a refused transfer makes pay_employee fail with TransferFailure, and nothing is recorded |
| `Scenarios.PayAllSkipsInactive` | contracts/hello-world/src/lib.rs:197-225 | with one active and one deactivated employee, a batch appends exactly one record, for the active one |
| `Scenarios.PayAllRollsBack` | contracts/hello-world/src/lib.rs:205-207 | when the second transfer of a batch is refused, the batch fails with TransferFailure, and the first employee's payment is not recorded either |

## Left out

- Signature checks (`caller.require_auth()`) are host cryptography. The caller's identity is taken as authentic; only the owner comparison of `require_owner` is modelled.
- The token contract (`token::Client::transfer`) is a foreign call, and balances are not modelled. Each call gets an oracle `Transfer -> bool` that says whether a given transfer succeeds. The index has no duplicates, so no request repeats within one batch, and any pattern of refusals can be expressed.
- The ledger clock (`env.ledger().timestamp()`) becomes the parameter `now`. It is one value per invocation, because the host's timestamp does not change within one.
- Soroban storage, serialisation and host types (`#[contracttype]`, `env.storage().instance()`, `Vec`, `String`) become class fields, `seq`, `map` and `string`. The `DataKey` variants become one field each, and the `Employee(address)` entries become one map.
- `DataKey::NextEmployeeId` is never read or written, so it has no field.
- Host reverts are not modelled as such. A failed call instead returns `Fail` with the storage unchanged. `pay_all_employees` writes the history on each iteration and relies on the host to revert on a panic; the model stages the batch's records in `TransferBatch` and appends them only once every transfer has succeeded. The outcome and the final storage are the same.
- The `.unwrap()` calls on the index, the token, the history and an employee entry (lib.rs:92, :154, :173, :193, :203, :221) cannot fail once the contract is initialised, because of the storage invariant. They have no error path of their own.
- The test scaffolding (`Env::default`, `mock_all_auths`, the generated client) is not modelled. The tests' assertions appear as the `Scenarios` methods.
