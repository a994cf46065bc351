/**
 * The volunteer's own missions: the alerts assigned to them and in progress, newest first;
 * completing one; and the chat opened for a mission.
 */
module MyMissionsTab {
  import opened Wrappers
  import opened Remote
  import ActiveEmergencies
  import DashboardTab

  datatype CompleteOutcome = Done | Failed

  /** The patch sent on completion: the status alone. */
  const CompletePatch: AlertPatch := AlertPatch(Some(Completed), None, None)

  class MyMissions {
    const user: Option<string>
    var missions: seq<AlertRow>
    var selectedChat: Option<string>
    var requests: seq<Request>

    /** Mounting fetches (and subscribes) only when someone is signed in. */
    constructor (user: Option<string>)
      ensures this.user == user && missions == [] && selectedChat.None?
      ensures user.None? ==> requests == []
      ensures user.Some? ==> requests == [SelectAlertRows(MissionsOf(user.value))]
    {
      this.user := user;
      missions, selectedChat := [], None;
      requests := if user.Some? then [SelectAlertRows(MissionsOf(user.value))] else [];
    }

    /** `fetchMyMissions` answered: nothing without a user; the list is replaced only when data came back. */
    method FetchDone(table: Option<seq<AlertRow>>)
      modifies this
      ensures requests == old(requests) && selectedChat == old(selectedChat)
      ensures user.None? || table.None? ==> missions == old(missions)
      ensures user.Some? && table.Some? ==> missions == SelectAlerts(table.value, MissionsOf(user.value))
    {
      if user.None? || table.None? {
        return;
      }
      missions := SelectAlerts(table.value, MissionsOf(user.value));
    }

    /** A change to one of this volunteer's alerts refetches; without a user there is no channel. */
    method OnChange()
      modifies this
      ensures missions == old(missions) && selectedChat == old(selectedChat)
      ensures user.None? ==> requests == old(requests)
      ensures user.Some? ==> requests == old(requests) + [SelectAlertRows(MissionsOf(user.value))]
    {
      if user.Some? {
        requests := requests + [SelectAlertRows(MissionsOf(user.value))];
      }
    }

    /**
     * `handleCompleteMission`: the status patch is sent; only when it succeeds are the
     * missions refetched (which itself needs a user).
     */
    method HandleCompleteMission(missionId: string, updateFails: bool) returns (outcome: CompleteOutcome)
      modifies this
      ensures missions == old(missions) && selectedChat == old(selectedChat)
      ensures updateFails ==> outcome == Failed && requests == old(requests) + [UpdateAlert(missionId, CompletePatch)]
      ensures !updateFails ==>
        outcome == Done
        && requests == old(requests) + [UpdateAlert(missionId, CompletePatch)]
             + (if user.Some? then [SelectAlertRows(MissionsOf(user.value))] else [])
    {
      requests := requests + [UpdateAlert(missionId, CompletePatch)];
      if updateFails {
        return Failed;
      }
      if user.Some? {
        requests := requests + [SelectAlertRows(MissionsOf(user.value))];
      }
      outcome := Done;
    }

    /** "Open Chat" on a mission. */
    method OpenChat(missionId: string)
      modifies this
      ensures selectedChat == Some(missionId)
      ensures missions == old(missions) && requests == old(requests)
    {
      selectedChat := Some(missionId);
    }

    /** "Close" (or the chat window's own close). */
    method CloseChat()
      modifies this
      ensures selectedChat.None?
      ensures missions == old(missions) && requests == old(requests)
    {
      selectedChat := None;
    }
  }

  /** A completed mission drops out of the volunteer's missions. */
  lemma CompletedLeavesMissions(row: AlertRow, volunteer: string)
    ensures !Matches(MissionsOf(volunteer), ApplyPatch(row, CompletePatch))
  {
  }

  /** Accepting on the active-emergencies screen makes the alert one of the volunteer's missions. */
  lemma AcceptedFromActiveListIsMission(row: AlertRow, volunteer: string)
    ensures Matches(MissionsOf(volunteer), ApplyPatch(row, ActiveEmergencies.AcceptPatch(volunteer)))
  {
  }

  /**
   * Accepting on the dashboard sets 'assigned', which the missions query does not select:
   * an alert accepted there never shows among the volunteer's missions.
   */
  lemma AcceptedFromDashboardIsNotMission(row: AlertRow, volunteer: string, now: int)
    ensures !Matches(MissionsOf(volunteer), ApplyPatch(row, DashboardTab.AcceptPatch(volunteer, now)))
  {
  }
}
