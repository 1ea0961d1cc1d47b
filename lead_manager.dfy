/**
 * The business rules that protect opportunities the integration owns: such
 * a lead cannot be deleted, only the integration ('SYSTEM') may move a lead
 * to 'Order', and the system-owned columns of a managed lead are read-only
 * to everyone else. Deletion is a soft delete.
 */
module LeadManager {
  import opened Store

  /** Why an operation is refused. */
  datatype Denial =
    | ManagedLeadProtected
    | OrderReservedToSystem
    | ManagedStatusRestricted(status: string)
    | SystemOnlyField(field: string)

  /** The text the guard gives for a refusal. */
  function ReasonText(d: Denial): string {
    match d
    case ManagedLeadProtected => "Integration-managed leads cannot be deleted. They are protected by business rules."
    case OrderReservedToSystem =>
      "Only the integration system can set lead status to \"Order\". This stage is reserved for actual sales transactions."
    case ManagedStatusRestricted(status) => "Integration-managed leads cannot be manually moved to " + status + " status."
    case SystemOnlyField(field) =>
      "Field '" + field + "' can only be updated by the integration system for integration-managed leads."
  }

  /** The answer of a guard: allowed (with an optional warning) or denied with a reason. */
  datatype Verdict = Allowed(warning: Option<string>) | Denied(reason: Denial)

  const System: string := "SYSTEM"

  /** Whether the lead exists and is owned by the integration; a missing lead is not. */
  predicate IsIntegrationManaged(leads: seq<Lead>, id: nat) {
    ValidId(leads, id) && leads[id - 1].managed
  }

  /** Deletion is refused exactly for integration-managed leads. */
  function CanDeleteLead(leads: seq<Lead>, id: nat): (v: Verdict)
    ensures v.Denied? <==> IsIntegrationManaged(leads, id)
    ensures v.Denied? ==> v.reason == ManagedLeadProtected
    ensures v.Allowed? ==> v.warning.None?
  {
    if IsIntegrationManaged(leads, id) then Denied(ManagedLeadProtected) else Allowed(None)
  }

  /**
   * A status change: 'Order' is reserved to the integration for every lead;
   * a managed lead also cannot be moved to 'Converted' by anyone else.
   */
  function CanUpdateLeadStatus(leads: seq<Lead>, id: nat, newStatus: string, updatedBy: string): (v: Verdict)
    ensures v.Denied? <==> updatedBy != System && (newStatus == "Order" || (newStatus == "Converted" && IsIntegrationManaged(leads, id)))
    ensures v.Denied? && newStatus == "Order" ==> v.reason == OrderReservedToSystem
    ensures v.Allowed? ==> v.warning.None?
  {
    if newStatus == "Order" && updatedBy != System then Denied(OrderReservedToSystem)
    else if IsIntegrationManaged(leads, id) && (newStatus == "Order" || newStatus == "Converted") && updatedBy != System then
      Denied(ManagedStatusRestricted(newStatus))
    else Allowed(None)
  }

  /** The columns that only the integration may change on a lead it manages. */
  const SystemOnlyFields: seq<string> := [
    "registration_no", "volume_converted", "annual_potential", "py_billed_volume",
    "source_from", "integration_managed", "integration_batch_id", "last_integration_update"]

  /** The columns a person may change on a managed lead, with a warning that the integration may overwrite them. */
  const OverriddenFields: seq<string> := ["sector", "sub_sector", "dsr_name", "lead_status"]

  /** The warning given for a change the integration may overwrite. */
  function OverrideWarning(field: string): string {
    "Manual changes to '" + field + "' may be overridden by future integration updates."
  }

  /**
   * A field change: always allowed on a lead the integration does not
   * manage; on a managed one, denied for the system-only columns and allowed
   * with a warning for the columns the integration overwrites, unless the
   * caller is the integration itself.
   */
  function CanUpdateField(leads: seq<Lead>, id: nat, field: string, updatedBy: string): (v: Verdict)
    ensures v.Denied? <==> IsIntegrationManaged(leads, id) && field in SystemOnlyFields && updatedBy != System
    ensures v.Denied? ==> v.reason == SystemOnlyField(field)
    ensures v.Allowed? && v.warning.Some? <==>
      IsIntegrationManaged(leads, id) && field in OverriddenFields && updatedBy != System
  {
    if !IsIntegrationManaged(leads, id) then Allowed(None)
    else if field in SystemOnlyFields && updatedBy != System then Denied(SystemOnlyField(field))
    else if field in OverriddenFields && updatedBy != System then Allowed(Some(OverrideWarning(field)))
    else Allowed(None)
  }

  /** The protected and the overwritten columns are distinct, so no column is both denied and warned about. */
  lemma FieldListsDisjoint(field: string)
    ensures !(field in SystemOnlyFields && field in OverriddenFields)
  {
    if field in OverriddenFields {
      assert field == "sector" || field == "sub_sector" || field == "dsr_name" || field == "lead_status";
    }
  }

  /** The integration is never refused a status change or a field change; the delete guard takes no caller. */
  lemma SystemNeverDenied(leads: seq<Lead>, id: nat, status: string, field: string)
    ensures CanUpdateLeadStatus(leads, id, status, System).Allowed?
    ensures CanUpdateField(leads, id, field, System) == Allowed(None)
  {
  }

  /**
   * Soft-deletes a lead: refused (nothing changes) when the lead is
   * managed; otherwise its status becomes 'D' and its update time now, and
   * the row stays in the table. An unknown id updates no row.
   */
  method DeleteLead(db: Database, id: nat, now: int) returns (r: Result<string>)
    modifies db`leads
    ensures |db.leads| == |old(db.leads)|
    ensures IsIntegrationManaged(old(db.leads), id) ==>
      r == Failure(ReasonText(ManagedLeadProtected)) && db.leads == old(db.leads)
    ensures !IsIntegrationManaged(old(db.leads), id) ==> r == Success("Lead deleted successfully")
    ensures !IsIntegrationManaged(old(db.leads), id) && ValidId(old(db.leads), id) ==>
      db.leads == old(db.leads)[id - 1 := old(db.leads[id - 1]).(status := "D", lastUpdated := now)]
    ensures !ValidId(old(db.leads), id) ==> db.leads == old(db.leads)
  {
    var verdict := CanDeleteLead(db.leads, id);
    if verdict.Denied? {
      return Failure(ReasonText(verdict.reason));
    }
    if ValidId(db.leads, id) {
      db.leads := db.leads[id - 1 := db.leads[id - 1].(status := "D", lastUpdated := now)];
    }
    r := Success("Lead deleted successfully");
  }

  /**
   * Sets a lead's stage when the status guard allows it, stamping its update
   * time; a refused change alters nothing and fails with the guard's reason.
   */
  method UpdateLeadStatus(db: Database, id: nat, newStatus: string, updatedBy: string, now: int) returns (r: Result<string>)
    modifies db`leads
    ensures |db.leads| == |old(db.leads)|
    ensures CanUpdateLeadStatus(old(db.leads), id, newStatus, updatedBy).Denied? ==>
      && r == Failure(ReasonText(CanUpdateLeadStatus(old(db.leads), id, newStatus, updatedBy).reason))
      && db.leads == old(db.leads)
    ensures CanUpdateLeadStatus(old(db.leads), id, newStatus, updatedBy).Allowed? ==>
      && r == Success("Lead status updated successfully")
      && db.leads == (if ValidId(old(db.leads), id)
                      then old(db.leads)[id - 1 := old(db.leads[id - 1]).(stage := newStatus, lastUpdated := now)]
                      else old(db.leads))
  {
    var verdict := CanUpdateLeadStatus(db.leads, id, newStatus, updatedBy);
    if verdict.Denied? {
      return Failure(ReasonText(verdict.reason));
    }
    if ValidId(db.leads, id) {
      db.leads := db.leads[id - 1 := db.leads[id - 1].(stage := newStatus, lastUpdated := now)];
    }
    r := Success("Lead status updated successfully");
  }

  /**
   * Checks an operation before it runs: 'delete', 'update_status' and
   * 'update_field' go to their guard, with parameters defaulting to the
   * caller 'Manual' and the empty status or field; any other operation is
   * allowed.
   */
  function ValidateOperation(leads: seq<Lead>, operation: string, id: nat, params: map<string, string>): (v: Verdict)
    ensures operation == "delete" ==> v == CanDeleteLead(leads, id)
    ensures operation == "update_status" ==>
      v == CanUpdateLeadStatus(leads, id, if "new_status" in params then params["new_status"] else "",
                               if "updated_by" in params then params["updated_by"] else "Manual")
    ensures operation == "update_field" ==>
      v == CanUpdateField(leads, id, if "field_name" in params then params["field_name"] else "",
                          if "updated_by" in params then params["updated_by"] else "Manual")
    ensures operation !in {"delete", "update_status", "update_field"} ==> v == Allowed(None)
  {
    var updatedBy := if "updated_by" in params then params["updated_by"] else "Manual";
    if operation == "delete" then CanDeleteLead(leads, id)
    else if operation == "update_status" then
      CanUpdateLeadStatus(leads, id, if "new_status" in params then params["new_status"] else "", updatedBy)
    else if operation == "update_field" then
      CanUpdateField(leads, id, if "field_name" in params then params["field_name"] else "", updatedBy)
    else Allowed(None)
  }

  /** A caller that names no `updated_by` is 'Manual', so it may not move a lead to 'Order'. */
  lemma DefaultCallerCannotOrder(leads: seq<Lead>, id: nat)
    ensures ValidateOperation(leads, "update_status", id, map["new_status" := "Order"]).Denied?
  {
  }

  // ----- The management summary -----

  /** The number of active leads (status 'A'). */
  function CountActive(leads: seq<Lead>): nat {
    if leads == [] then 0
    else CountActive(leads[..|leads| - 1]) + (if leads[|leads| - 1].status == "A" then 1 else 0)
  }

  /** The number of active leads the integration manages. */
  function CountManaged(leads: seq<Lead>): nat {
    if leads == [] then 0
    else CountManaged(leads[..|leads| - 1]) + (if leads[|leads| - 1].status == "A" && leads[|leads| - 1].managed then 1 else 0)
  }

  /** The number of active leads the integration does not manage. */
  function CountManual(leads: seq<Lead>): nat {
    if leads == [] then 0
    else CountManual(leads[..|leads| - 1]) + (if leads[|leads| - 1].status == "A" && !leads[|leads| - 1].managed then 1 else 0)
  }

  /** The number of active leads at stage 'Order'. */
  function CountOrders(leads: seq<Lead>): nat {
    if leads == [] then 0
    else CountOrders(leads[..|leads| - 1]) + (if leads[|leads| - 1].status == "A" && leads[|leads| - 1].stage == "Order" then 1 else 0)
  }

  datatype Summary = Summary(totalActive: int, managed: int, manual: int, orders: int, protectedLeads: int)

  /** The management summary: manual leads are the active ones less the managed ones, and every managed lead is protected. */
  function LeadManagementSummary(leads: seq<Lead>): (s: Summary)
    ensures s.manual == s.totalActive - s.managed && s.protectedLeads == s.managed
    ensures s.totalActive == CountActive(leads) && s.managed == CountManaged(leads) && s.orders == CountOrders(leads)
  {
    var total := CountActive(leads);
    var managed := CountManaged(leads);
    Summary(total, managed, total - managed, CountOrders(leads), managed)
  }

  /** The subtraction counts exactly the active leads the integration does not manage, so it is never negative. */
  lemma {:induction false} ManualIsUnmanagedCount(leads: seq<Lead>)
    ensures LeadManagementSummary(leads).manual == CountManual(leads)
    ensures CountManaged(leads) <= CountActive(leads)
  {
    if leads != [] {
      ManualIsUnmanagedCount(leads[..|leads| - 1]);
    }
  }

  /** Deleting an unmanaged active lead takes one lead off the active and manual counts and leaves the managed count alone. */
  lemma {:induction false} DeleteUpdatesSummary(leads: seq<Lead>, id: nat, now: int)
    requires ValidId(leads, id) && leads[id - 1].status == "A" && !leads[id - 1].managed
    ensures var after := leads[id - 1 := leads[id - 1].(status := "D", lastUpdated := now)];
      && CountActive(after) == CountActive(leads) - 1
      && CountManaged(after) == CountManaged(leads)
    decreases |leads|
  {
    var after := leads[id - 1 := leads[id - 1].(status := "D", lastUpdated := now)];
    var n := |leads|;
    assert after[..n - 1] == if id == n then leads[..n - 1] else leads[..n - 1][id - 1 := leads[id - 1].(status := "D", lastUpdated := now)];
    if id < n {
      DeleteUpdatesSummary(leads[..n - 1], id, now);
    }
  }
}
