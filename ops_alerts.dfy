/**
 * Deadline checks over ops groups. Dates are read through `parse`, which gives an
 * instant in milliseconds or `None` for a string no date can be read from, and the
 * clock is the parameter `now`.
 */
module OpsAlerts {
  import opened Wrappers
  import opened Types
  import opened Seqs

  /** `isOverdue`: an unreadable date compares false, as a NaN time does. */
  function IsOverdue(isoDate: Option<string>, parse: string -> Option<int>, now: int): (r: bool)
    ensures r <==> isoDate.Some? && isoDate.value != "" && parse(isoDate.value).Some? && parse(isoDate.value).value < now
  {
    match isoDate
    case None => false
    case Some(d) => d != "" && match parse(d) case Some(t) => t < now case None => false
  }

  datatype StepStatus = StepPaid | StepDue | StepOverdue

  function PaymentStepStatus(step: OpsPaymentStep, parse: string -> Option<int>, now: int): (s: StepStatus)
    ensures step.paid == Some(true) ==> s == StepPaid
    ensures step.paid != Some(true) ==> (s == StepOverdue <==> IsOverdue(step.dueDate, parse, now))
    ensures s != StepPaid <==> step.paid != Some(true)
  {
    if step.paid == Some(true) then StepPaid
    else if step.dueDate.Some? && step.dueDate.value != "" && IsOverdue(step.dueDate, parse, now) then StepOverdue
    else StepDue
  }

  datatype DeadlineStatus = DeadlineOk | DeadlineOverdue

  function SupplierDeadlineStatus(supplier: Supplier, parse: string -> Option<int>, now: int): (s: DeadlineStatus)
    ensures supplier.deadline.None? ==> s == DeadlineOk
    ensures s == DeadlineOverdue <==> IsOverdue(supplier.deadline, parse, now)
  {
    if supplier.deadline.None? || supplier.deadline.value == "" then DeadlineOk
    else if IsOverdue(supplier.deadline, parse, now) then DeadlineOverdue
    else DeadlineOk
  }

  /** `costs.filter((c) => paymentStepStatus(c) === "overdue")` */
  function OverdueCosts(costs: seq<OpsPaymentStep>, parse: string -> Option<int>, now: int): (r: seq<OpsPaymentStep>)
    ensures |r| == |set i | 0 <= i < |costs| && PaymentStepStatus(costs[i], parse, now) == StepOverdue|
    ensures Subsequence(r, costs)
    ensures forall c :: multiset(r)[c] == if PaymentStepStatus(c, parse, now) == StepOverdue then multiset(costs)[c] else 0
    ensures forall c :: c in r <==> c in costs && PaymentStepStatus(c, parse, now) == StepOverdue
  {
    var keep := (c: OpsPaymentStep) => PaymentStepStatus(c, parse, now) == StepOverdue;
    var r := Filter(costs, keep);
    assert |r| == |set i | 0 <= i < |costs| && PaymentStepStatus(costs[i], parse, now) == StepOverdue| by {
      FilterCount(costs, keep);
      var viaKeep := Positions(costs, keep);
      var direct := set i | 0 <= i < |costs| && PaymentStepStatus(costs[i], parse, now) == StepOverdue;
      forall i ensures i in viaKeep <==> i in direct {
      }
      assert viaKeep == direct;
    }
    assert Subsequence(r, costs) && forall c :: multiset(r)[c] == if keep(c) then multiset(costs)[c] else 0 by {
      FilterKeeps(costs, keep);
    }
    r
  }

  /** `suppliers.filter((s) => supplierDeadlineStatus(s) === "overdue")` */
  function OverdueSuppliers(suppliers: seq<Supplier>, parse: string -> Option<int>, now: int): (r: seq<Supplier>)
    ensures |r| == |set i | 0 <= i < |suppliers| && SupplierDeadlineStatus(suppliers[i], parse, now) == DeadlineOverdue|
    ensures Subsequence(r, suppliers)
    ensures forall s :: multiset(r)[s] == if SupplierDeadlineStatus(s, parse, now) == DeadlineOverdue then multiset(suppliers)[s] else 0
    ensures forall s :: s in r <==> s in suppliers && SupplierDeadlineStatus(s, parse, now) == DeadlineOverdue
  {
    var keep := (s: Supplier) => SupplierDeadlineStatus(s, parse, now) == DeadlineOverdue;
    var r := Filter(suppliers, keep);
    assert |r| == |set i | 0 <= i < |suppliers| && SupplierDeadlineStatus(suppliers[i], parse, now) == DeadlineOverdue| by {
      FilterCount(suppliers, keep);
      var viaKeep := Positions(suppliers, keep);
      var direct := set i | 0 <= i < |suppliers| && SupplierDeadlineStatus(suppliers[i], parse, now) == DeadlineOverdue;
      forall i ensures i in viaKeep <==> i in direct {
      }
      assert viaKeep == direct;
    }
    assert Subsequence(r, suppliers) && forall s :: multiset(r)[s] == if keep(s) then multiset(suppliers)[s] else 0 by {
      FilterKeeps(suppliers, keep);
    }
    r
  }

  datatype Alerts = Alerts(overdueCosts: nat, overdueSuppliers: nat)

  /** The alert counts: how many cost steps and how many suppliers of the group are overdue, duplicates included. */
  function GroupAlerts(group: OpsGroup, parse: string -> Option<int>, now: int): (a: Alerts)
    ensures a.overdueCosts == |set i | 0 <= i < |group.costs| && PaymentStepStatus(group.costs[i], parse, now) == StepOverdue|
    ensures a.overdueSuppliers == |set i | 0 <= i < |group.suppliers| && SupplierDeadlineStatus(group.suppliers[i], parse, now) == DeadlineOverdue|
    ensures a.overdueCosts <= |group.costs| && a.overdueSuppliers <= |group.suppliers|
  {
    var costs := OverdueCosts(group.costs, parse, now);
    var suppliers := OverdueSuppliers(group.suppliers, parse, now);
    assert |costs| <= |group.costs| && |suppliers| <= |group.suppliers| by {
      FilterKeeps(group.costs, (c: OpsPaymentStep) => PaymentStepStatus(c, parse, now) == StepOverdue);
      FilterKeeps(group.suppliers, (s: Supplier) => SupplierDeadlineStatus(s, parse, now) == DeadlineOverdue);
    }
    Alerts(|costs|, |suppliers|)
  }

  /**
   * A group whose cost steps are all paid has no overdue cost, and one whose
   * suppliers have no deadline has no overdue supplier, whatever the clock says.
   */
  lemma SettledGroupHasNoAlerts(group: OpsGroup, parse: string -> Option<int>, now: int)
    ensures (forall i :: 0 <= i < |group.costs| ==> group.costs[i].paid == Some(true)) ==>
      GroupAlerts(group, parse, now).overdueCosts == 0
    ensures (forall i :: 0 <= i < |group.suppliers| ==> group.suppliers[i].deadline.None?) ==>
      GroupAlerts(group, parse, now).overdueSuppliers == 0
  {
    var costs := OverdueCosts(group.costs, parse, now);
    var suppliers := OverdueSuppliers(group.suppliers, parse, now);
    if costs != [] {
      assert costs[0] in group.costs;
    }
    if suppliers != [] {
      assert suppliers[0] in group.suppliers;
    }
  }
}
