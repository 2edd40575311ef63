/**
 * The contract's instance storage as a value, the invariant every entry
 * point keeps, the relation between the storage before and after any
 * successful call, and the records one batch payment appends.
 */
module Ledger {
  import opened PayrollTypes

  /**
   * Instance storage, one field per storage key: the `Owner`, `Token`,
   * `Employees` and `PayrollHistory` singletons and the per-address
   * `Employee(address)` entries gathered into one map.
   */
  datatype Store = Store(
    owner: Option<Address>,
    token: Option<Address>,
    employees: seq<Address>,
    records: map<Address, Employee>,
    history: seq<PayrollRecord>)

  /** No address occurs twice in the employee index. */
  predicate Distinct(s: seq<Address>) {
    forall i, j :: 0 <= i < j < |s| ==> s[i] != s[j]
  }

  /** The index lists exactly the addresses that have an employee entry. */
  ghost predicate IndexMatches(employees: seq<Address>, records: map<Address, Employee>) {
    Distinct(employees) && forall a :: a in records <==> a in employees
  }

  /** Every employee entry is stored under its own address and has a positive salary. */
  ghost predicate WellFormedRecords(records: map<Address, Employee>) {
    forall a :: a in records ==> records[a].address == a && records[a].salary > 0
  }

  /** Every payment in the history went to a registered employee and was positive. */
  ghost predicate AuditedHistory(history: seq<PayrollRecord>, records: map<Address, Employee>) {
    forall k :: 0 <= k < |history| ==> history[k].amount > 0 && history[k].employee in records
  }

  /**
   * The storage invariant. Owner and token are stored together, and before
   * initialisation nothing else is stored.
   */
  ghost predicate Consistent(s: Store) {
    (s.owner.None? <==> s.token.None?) &&
    (s.owner.None? ==> s.employees == [] && s.records == map[] && s.history == []) &&
    IndexMatches(s.employees, s.records) &&
    WellFormedRecords(s.records) &&
    AuditedHistory(s.history, s.records)
  }

  /**
   * How storage may change from `s` to a later `t`: owner and token are never
   * reassigned once set, the index and the history only grow at the end,
   * employee entries are never removed, renamed or re-addressed, and an
   * inactive employee never becomes active again.
   */
  ghost predicate Evolves(s: Store, t: Store) {
    (s.owner.Some? ==> t.owner == s.owner && t.token == s.token) &&
    s.employees <= t.employees &&
    s.history <= t.history &&
    forall a :: a in s.records ==>
      a in t.records &&
      t.records[a].address == s.records[a].address &&
      t.records[a].name == s.records[a].name &&
      (!s.records[a].active ==> !t.records[a].active)
  }

  /** Any run of successful calls is an evolution of the storage it started from. */
  lemma EvolvesTransitive(s: Store, t: Store, u: Store)
    requires Evolves(s, t) && Evolves(t, u)
    ensures Evolves(s, u)
  {
  }

  /** Every index entry has an employee entry. */
  ghost predicate Indexed(index: seq<Address>, records: map<Address, Employee>) {
    forall i :: 0 <= i < |index| ==> index[i] in records
  }

  /** The history entry for paying the employee at `a` its current salary. */
  function PayRecord(a: Address, e: Employee, now: u64, period: string): PayrollRecord {
    PayrollRecord(a, e.salary, now, period)
  }

  /**
   * The records a batch payment over `index` appends: one per active
   * employee, in index order, inactive employees skipped.
   */
  function BatchRecords(index: seq<Address>, records: map<Address, Employee>, now: u64, period: string): seq<PayrollRecord>
    requires Indexed(index, records)
  {
    if index == [] then []
    else
      var a := index[|index| - 1];
      BatchRecords(index[..|index| - 1], records, now, period) +
      (if records[a].active then [PayRecord(a, records[a], now, period)] else [])
  }

  /** The active employees of `index`, in index order. */
  function ActivePayees(index: seq<Address>, records: map<Address, Employee>): seq<Address>
    requires Indexed(index, records)
  {
    if index == [] then []
    else
      var a := index[|index| - 1];
      ActivePayees(index[..|index| - 1], records) + (if records[a].active then [a] else [])
  }

  /** The payees of a sequence of history records, in order. */
  function Payees(recs: seq<PayrollRecord>): (r: seq<Address>)
    ensures |r| == |recs| && forall k :: 0 <= k < |recs| ==> r[k] == recs[k].employee
  {
    if recs == [] then [] else Payees(recs[..|recs| - 1]) + [recs[|recs| - 1].employee]
  }

  /** Whether every transfer a batch payment over `index` asks for succeeds. */
  ghost predicate BatchFunded(index: seq<Address>, records: map<Address, Employee>, token: Address,
                              caller: Address, transfer: Transfer -> bool)
  {
    forall j :: 0 <= j < |index| && index[j] in records && records[index[j]].active ==>
      transfer(Transfer(token, caller, index[j], records[index[j]].salary))
  }

  /** One more step of a batch over the index prefix `index[..i]`. */
  lemma BatchStep(index: seq<Address>, records: map<Address, Employee>, i: nat, now: u64, period: string,
                  token: Address, caller: Address, transfer: Transfer -> bool)
    requires Indexed(index, records) && i < |index|
    requires BatchFunded(index[..i], records, token, caller, transfer)
    requires records[index[i]].active ==> transfer(Transfer(token, caller, index[i], records[index[i]].salary))
    ensures Indexed(index[..i + 1], records) && Indexed(index[..i], records)
    ensures BatchFunded(index[..i + 1], records, token, caller, transfer)
    ensures BatchRecords(index[..i + 1], records, now, period) ==
      BatchRecords(index[..i], records, now, period) +
      (if records[index[i]].active then [PayRecord(index[i], records[index[i]], now, period)] else [])
  {
    assert index[..i + 1][..i] == index[..i];
  }

  /** A failed transfer for an active employee of the index means the batch is not funded. */
  lemma BatchUnfunded(index: seq<Address>, records: map<Address, Employee>, i: nat,
                      token: Address, caller: Address, transfer: Transfer -> bool)
    requires i < |index| && index[i] in records && records[index[i]].active
    requires !transfer(Transfer(token, caller, index[i], records[index[i]].salary))
    ensures !BatchFunded(index, records, token, caller, transfer)
  {
  }

  /**
   * Every record of a batch pays an active employee of the index exactly its
   * current salary, stamped with the batch's time and period.
   */
  lemma {:induction false} BatchRecordsSound(index: seq<Address>, records: map<Address, Employee>, now: u64, period: string)
    requires Indexed(index, records)
    ensures forall k :: 0 <= k < |BatchRecords(index, records, now, period)| ==>
      var r := BatchRecords(index, records, now, period)[k];
      r.employee in index && r.employee in records && records[r.employee].active &&
      r.amount == records[r.employee].salary && r.timestamp == now && r.period == period
  {
    if index != [] {
      var init := index[..|index| - 1];
      BatchRecordsSound(init, records, now, period);
      assert forall a :: a in init ==> a in index;
    }
  }

  /** A batch pays exactly the active employees of the index, in index order. */
  lemma {:induction false} BatchRecordsPayees(index: seq<Address>, records: map<Address, Employee>, now: u64, period: string)
    requires Indexed(index, records)
    ensures Payees(BatchRecords(index, records, now, period)) == ActivePayees(index, records)
  {
    if index != [] {
      var init := index[..|index| - 1];
      var a := index[|index| - 1];
      var rest := if records[a].active then [PayRecord(a, records[a], now, period)] else [];
      BatchRecordsPayees(init, records, now, period);
      PayeesAppend(BatchRecords(init, records, now, period), rest);
    }
  }

  lemma PayeesAppend(xs: seq<PayrollRecord>, ys: seq<PayrollRecord>)
    ensures Payees(xs + ys) == Payees(xs) + Payees(ys)
  {
  }

  /** An address is paid by a batch exactly when it is in the index and active. */
  lemma {:induction false} ActivePayeesMembers(index: seq<Address>, records: map<Address, Employee>)
    requires Indexed(index, records)
    ensures forall a :: a in ActivePayees(index, records) <==> a in index && records[a].active
  {
    if index != [] {
      var init := index[..|index| - 1];
      ActivePayeesMembers(init, records);
      assert index == init + [index[|index| - 1]];
    }
  }

  /** Over a duplicate-free index, no active employee is paid twice by one batch. */
  lemma {:induction false} ActivePayeesDistinct(index: seq<Address>, records: map<Address, Employee>)
    requires Indexed(index, records) && Distinct(index)
    ensures Distinct(ActivePayees(index, records))
  {
    if index != [] {
      var init := index[..|index| - 1];
      var a := index[|index| - 1];
      ActivePayeesDistinct(init, records);
      ActivePayeesMembers(init, records);
      assert a !in init;
    }
  }

  /** Initialising empty storage yields consistent storage. */
  lemma InitializeKeepsConsistent(s: Store, owner: Address, token: Address)
    requires Consistent(s) && s.owner.None?
    ensures var t := Store(Some(owner), Some(token), [], map[], []);
      Consistent(t) && Evolves(s, t)
  {
  }

  /**
   * Registering a new address with a positive salary keeps the invariant:
   * the address is appended once to the index, which stays duplicate-free.
   */
  lemma AddEmployeeKeepsConsistent(s: Store, a: Address, salary: i128, name: string)
    requires Consistent(s) && s.owner.Some? && a !in s.records && salary > 0
    ensures var t := s.(employees := s.employees + [a], records := s.records[a := Employee(a, salary, name, true)]);
      Consistent(t) && Evolves(s, t)
  {
    assert a !in s.employees;
  }

  /** Changing the salary of a registered employee to a positive amount keeps the invariant. */
  lemma UpdateSalaryKeepsConsistent(s: Store, a: Address, salary: i128)
    requires Consistent(s) && a in s.records && salary > 0
    ensures var t := s.(records := s.records[a := s.records[a].(salary := salary)]);
      Consistent(t) && Evolves(s, t)
  {
  }

  /** Clearing the active flag of a registered employee keeps the invariant. */
  lemma DeactivateKeepsConsistent(s: Store, a: Address)
    requires Consistent(s) && a in s.records
    ensures var t := s.(records := s.records[a := s.records[a].(active := false)]);
      Consistent(t) && Evolves(s, t)
  {
  }

  /** Appending the records of a batch payment keeps the invariant. */
  lemma {:induction false} BatchKeepsConsistent(s: Store, now: u64, period: string)
    requires Consistent(s)
    ensures Indexed(s.employees, s.records)
    ensures var t := s.(history := s.history + BatchRecords(s.employees, s.records, now, period));
      Consistent(t) && Evolves(s, t)
  {
    BatchRecordsSound(s.employees, s.records, now, period);
  }
}
