/**
 * The volunteer's list of active emergencies: the active alerts, newest first, refetched on
 * every change to the alerts table, and the accept action that writes the alert and then an
 * assignment row.
 */
module ActiveEmergencies {
  import opened Wrappers
  import opened Remote

  datatype AcceptOutcome = NotSignedIn | Accepted | Failed

  /** The patch this screen sends on accept: 'in_progress' and the volunteer, nothing else. */
  function AcceptPatch(volunteer: string): (p: AlertPatch)
    ensures p.status == Some(InProgress) && p.volunteerId == Some(volunteer) && p.updatedAt.None?
  {
    AlertPatch(Some(InProgress), Some(volunteer), None)
  }

  /** The assignment row recorded on accept. */
  function AssignmentFor(alertId: string, volunteer: string): (a: Assignment)
    ensures a.alertId == alertId && a.volunteerId == volunteer && a.status == InProgress
  {
    Assignment(alertId, volunteer, InProgress)
  }

  class ActiveEmergencies {
    var emergencies: seq<AlertRow>
    var requests: seq<Request>

    /** Mounting fetches the active alerts (and subscribes to changes). */
    constructor ()
      ensures emergencies == [] && requests == [SelectAlertRows(ActiveNewest)]
    {
      emergencies := [];
      requests := [SelectAlertRows(ActiveNewest)];
    }

    /** `fetchActiveEmergencies` answered: the list is replaced only when data came back. */
    method FetchDone(table: Option<seq<AlertRow>>)
      modifies this
      ensures requests == old(requests)
      ensures table.None? ==> emergencies == old(emergencies)
      ensures table.Some? ==> emergencies == SelectAlerts(table.value, ActiveNewest)
    {
      if table.Some? {
        emergencies := SelectAlerts(table.value, ActiveNewest);
      }
    }

    /** Any change to `emergency_alerts` refetches. */
    method OnChange()
      modifies this
      ensures emergencies == old(emergencies)
      ensures requests == old(requests) + [SelectAlertRows(ActiveNewest)]
    {
      requests := requests + [SelectAlertRows(ActiveNewest)];
    }

    /**
     * `handleAcceptMission`: without a user nothing is sent. Otherwise the alert is patched;
     * only if that succeeds is the assignment inserted; only if both succeed is the list
     * refetched.
     */
    method HandleAcceptMission(user: Option<string>, emergencyId: string, updateFails: bool, insertFails: bool)
      returns (outcome: AcceptOutcome)
      modifies this
      ensures emergencies == old(emergencies)
      ensures user.None? ==> outcome == NotSignedIn && requests == old(requests)
      ensures user.Some? && updateFails ==>
        outcome == Failed && requests == old(requests) + [UpdateAlert(emergencyId, AcceptPatch(user.value))]
      ensures user.Some? && !updateFails && insertFails ==>
        outcome == Failed
        && requests == old(requests) + [UpdateAlert(emergencyId, AcceptPatch(user.value)),
                                        InsertAssignment(AssignmentFor(emergencyId, user.value))]
      ensures user.Some? && !updateFails && !insertFails ==>
        outcome == Accepted
        && requests == old(requests) + [UpdateAlert(emergencyId, AcceptPatch(user.value)),
                                        InsertAssignment(AssignmentFor(emergencyId, user.value)),
                                        SelectAlertRows(ActiveNewest)]
    {
      if user.None? {
        return NotSignedIn;
      }
      requests := requests + [UpdateAlert(emergencyId, AcceptPatch(user.value))];
      if updateFails {
        return Failed;
      }
      requests := requests + [InsertAssignment(AssignmentFor(emergencyId, user.value))];
      if insertFails {
        return Failed;
      }
      requests := requests + [SelectAlertRows(ActiveNewest)];
      outcome := Accepted;
    }
  }

  /** An accepted alert leaves the active list: it is no longer 'active'. */
  lemma AcceptedLeavesActiveList(table: seq<AlertRow>, alertId: string, volunteer: string)
    ensures forall a :: a in SelectAlerts(UpdateById(table, alertId, AcceptPatch(volunteer)), ActiveNewest) ==> a.id != alertId
  {
    var after := UpdateById(table, alertId, AcceptPatch(volunteer));
    var r := SelectAlerts(after, ActiveNewest);
    forall a | a in r ensures a.id != alertId {
      var k :| 0 <= k < |r| && r[k] == a;
      assert a in after && a.status == Active;
      var i :| 0 <= i < |after| && after[i] == a;
      var row := table[i];
      assert a == if row.id == alertId then ApplyPatch(row, AcceptPatch(volunteer)) else row;
    }
  }
}
