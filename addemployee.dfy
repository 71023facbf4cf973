/** The add-employee form (components/AddEmployeeModal.tsx): the record `handleSubmit` hands to
    the store's `addEmployee`, built from the five form fields. The device id and its last-active
    time come from the same clock reading as the employee id the store assigns. */
module AddEmployee {
  import opened Types
  import opened Text
  import Store
  import Dashboard
  import Compromised

  /** The five text fields of the form. */
  datatype EmployeeForm = EmployeeForm(name: string, role: string, department: string, systemName: string, systemIp: string)

  /** The device registered with a new employee when an address was entered. */
  function NewDevice(f: EmployeeForm, now: nat): (d: SystemDevice)
    ensures d.ip == f.systemIp && d.status == Online && d.os == "Windows 11" && d.macAddress == "00:00:00:00:00:00"
    ensures d.name == (if f.systemName == "" then "Workstation" else f.systemName)
    ensures d.cpuUsage == 12 && d.memoryUsage == 34 && GaugesInRange(d)
    ensures d.networkStats == NetworkStats(0.0, 0.0, 0, "0 GB")
    ensures d.id == "SYS-" + Decimal(now) && d.lastActive == Instant(now)
  {
    SystemDevice("SYS-" + Decimal(now), if f.systemName != "" then f.systemName else "Workstation", f.systemIp,
                 "00:00:00:00:00:00", "Windows 11", Online, Instant(now), 12, 34, NetworkStats(0.0, 0.0, 0, "0 GB"))
  }

  /** `handleSubmit`'s record: the form's name, role and department, a zero score, Active, no
      apps, and one device exactly when the address field is filled in. */
  function NewEmployeeData(f: EmployeeForm, now: nat): (d: Store.EmployeeDraft)
    ensures d.name == f.name && d.role == f.role && d.department == f.department
    ensures d.riskScore == 0 && d.status == EmployeeStatus.Active && d.authorizedApps == []
    ensures d.systems == [] <==> f.systemIp == ""
    ensures f.systemIp != "" ==> d.systems == [NewDevice(f, now)]
  {
    Store.EmployeeDraft(f.name, f.role, f.department, 0,
                        if f.systemIp != "" then [NewDevice(f, now)] else [], [], EmployeeStatus.Active)
  }

  /** A new employee raises the dashboard's active-user figure by one. */
  lemma NewEmployeeIsActive(f: EmployeeForm, now: nat, es: seq<Employee>)
    ensures Dashboard.ActiveUsers([Store.WithId(NewEmployeeData(f, now), "EMP-" + Decimal(now))] + es)
            == Dashboard.ActiveUsers(es) + 1
  {
    var e := Store.WithId(NewEmployeeData(f, now), "EMP-" + Decimal(now));
    assert ([e] + es)[1..] == es;
  }

  /** A new employee's device is online, so the compromised-systems banner is unchanged. */
  lemma NewEmployeeAddsNoThreat(f: EmployeeForm, now: nat, es: seq<Employee>)
    ensures Compromised.CompromisedDevices([Store.WithId(NewEmployeeData(f, now), "EMP-" + Decimal(now))] + es)
            == Compromised.CompromisedDevices(es)
  {
    var e := Store.WithId(NewEmployeeData(f, now), "EMP-" + Decimal(now));
    assert ([e] + es)[1..] == es;
    if f.systemIp != "" {
      assert e.systems[1..] == [];
    }
  }

  /** `handleSubmit`: one employee, built from the form, is prepended to the store. The browser
      submits the form only when the name, role and department fields, marked `required`, are not
      empty. */
  method Submit(store: Store.DataStore, f: EmployeeForm, now: nat)
    requires store.Valid() && f.name != "" && f.role != "" && f.department != ""
    modifies store`employees
    ensures store.Valid()
    ensures store.employees == [Store.WithId(NewEmployeeData(f, now), "EMP-" + Decimal(now))] + old(store.employees)
  {
    store.AddEmployee(NewEmployeeData(f, now), now);
  }
}
