/**
 * The volunteer dashboard's alert list: time-ago labels, the priority colour of an emergency
 * type, the join of open alerts with their reporters' profiles, and the accept action that
 * assigns the signed-in volunteer.
 */
module DashboardTab {
  import opened Wrappers
  import opened Text
  import opened Seqs
  import opened Remote

  const MinuteMs: int := 60 * 1000

  /**
   * `getTimeAgo`, given the time elapsed since the timestamp in milliseconds (negative for a
   * timestamp in the future). Units are never singularised.
   */
  function GetTimeAgo(elapsedMs: int): (r: string)
    ensures var m := elapsedMs / MinuteMs;
      && (m < 1 ==> r == "Just now")
      && (1 <= m < 60 ==> r == NatToString(m) + " mins ago")
      && (60 <= m && m / 60 < 24 ==> r == NatToString(m / 60) + " hours ago")
      && (m / 60 >= 24 ==> r == NatToString(m / 60 / 24) + " days ago")
  {
    var minutes := elapsedMs / MinuteMs;
    if minutes < 1 then "Just now"
    else if minutes < 60 then NatToString(minutes) + " mins ago"
    else
      var hours := minutes / 60;
      if hours < 24 then NatToString(hours) + " hours ago"
      else NatToString(hours / 24) + " days ago"
  }

  /** Each label reads back as the whole number of units elapsed: the minute count, the hour count or the day count. */
  lemma GetTimeAgoReadBack(elapsedMs: int)
    requires elapsedMs >= MinuteMs
    ensures var m := elapsedMs / MinuteMs;
      var n := if m < 60 then m else if m / 60 < 24 then m / 60 else m / 60 / 24;
      var r := GetTimeAgo(elapsedMs);
      StartsWith(r, NatToString(n)) && ParseDigits(NatToString(n)) == n
      && r[|NatToString(n)|] == ' '
  {
    var m := elapsedMs / MinuteMs;
    var n := if m < 60 then m else if m / 60 < 24 then m / 60 else m / 60 / 24;
    NatToStringRoundTrip(n);
    var r := GetTimeAgo(elapsedMs);
    var d := NatToString(n);
    var unit := if m < 60 then " mins ago" else if m / 60 < 24 then " hours ago" else " days ago";
    assert r == d + unit;
    assert r[..|d|] == d;
    assert r[|d|] == unit[0];
  }

  /** One minute reads "1 mins ago" and one hour "1 hours ago": there is no singular form. */
  lemma GetTimeAgoNeverSingular()
    ensures GetTimeAgo(MinuteMs) == "1 mins ago"
    ensures GetTimeAgo(60 * MinuteMs) == "1 hours ago"
    ensures GetTimeAgo(24 * 60 * MinuteMs) == "1 days ago"
  {
    assert NatToString(1) == "1";
    assert MinuteMs / MinuteMs == 1;
    assert (60 * MinuteMs) / MinuteMs == 60;
    assert (24 * 60 * MinuteMs) / MinuteMs == 1440;
  }

  /** `getPriorityColor`: the badge class of an emergency type, compared case-insensitively. */
  function GetPriorityColor(emergencyType: string): (r: string)
    ensures r == "bg-red-500" <==> Lower(emergencyType) == "medical"
    ensures r == "bg-blue-500" <==> Lower(emergencyType) == "food-water"
    ensures r == "bg-green-500" <==> Lower(emergencyType) == "shelter"
    ensures r == "bg-orange-500" <==> Lower(emergencyType) == "evacuation"
    ensures r == "bg-gray-500" <==> Lower(emergencyType) !in {"medical", "food-water", "shelter", "evacuation"}
  {
    match Lower(emergencyType)
    case "medical" => "bg-red-500"
    case "food-water" => "bg-blue-500"
    case "shelter" => "bg-green-500"
    case "evacuation" => "bg-orange-500"
    case _ => "bg-gray-500"
  }

  /** An open alert with the reporter's profile attached (`null` when not found). */
  datatype JoinedAlert = JoinedAlert(alert: AlertRow, userProfile: Option<ProfileRow>)

  /** The user ids sent to the profile query: `[...new Set(alerts.map(a => a.user_id))]`. */
  function UserIds(alerts: seq<AlertRow>): (ids: seq<string>)
    ensures NoDup(ids)
    ensures forall i :: 0 <= i < |alerts| ==> alerts[i].userId in ids
    ensures forall k :: 0 <= k < |ids| ==> exists i :: 0 <= i < |alerts| && alerts[i].userId == ids[k]
  {
    var all := seq(|alerts|, i requires 0 <= i < |alerts| => alerts[i].userId);
    var ids := Dedup(all);
    assert forall k :: 0 <= k < |ids| ==> ids[k] in all;
    assert forall i :: 0 <= i < |alerts| ==> all[i] == alerts[i].userId && all[i] in ids;
    ids
  }

  function ProfileOf(profiles: seq<ProfileRow>, userId: string): Option<ProfileRow> {
    Find(profiles, (p: ProfileRow) => p.id == userId)
  }

  /**
   * The alert/profile join: alerts keep their order and count; each gets the first profile
   * whose id is its `user_id`, or none; none at all when the profile query failed.
   */
  function JoinProfiles(alerts: seq<AlertRow>, profiles: Option<seq<ProfileRow>>): (r: seq<JoinedAlert>)
    ensures |r| == |alerts|
    ensures forall i :: 0 <= i < |alerts| ==> r[i].alert == alerts[i]
    ensures profiles.None? ==> forall i :: 0 <= i < |r| ==> r[i].userProfile.None?
    ensures profiles.Some? ==> forall i :: 0 <= i < |r| && r[i].userProfile.Some? ==>
      r[i].userProfile.value in profiles.value && r[i].userProfile.value.id == alerts[i].userId
    ensures profiles.Some? ==> forall i :: 0 <= i < |r| && r[i].userProfile.None? ==>
      forall k :: 0 <= k < |profiles.value| ==> profiles.value[k].id != alerts[i].userId
  {
    seq(|alerts|, i requires 0 <= i < |alerts| =>
      JoinedAlert(alerts[i], if profiles.Some? then ProfileOf(profiles.value, alerts[i].userId) else None))
  }

  /** The joined profile is the FIRST profile with the alert's user id. */
  lemma JoinPicksFirstProfile(alerts: seq<AlertRow>, profiles: seq<ProfileRow>, i: int, k: int)
    requires 0 <= i < |alerts| && 0 <= k < |profiles| && profiles[k].id == alerts[i].userId
    requires forall j :: 0 <= j < k ==> profiles[j].id != alerts[i].userId
    ensures JoinProfiles(alerts, Some(profiles))[i].userProfile == Some(profiles[k])
  {
    FindIsFirst(profiles, (p: ProfileRow) => p.id == alerts[i].userId, k);
  }

  /** The query behind the list: active, unassigned alerts, newest first, at most ten. */
  const OpenAlertsQuery: AlertQuery := OpenUnassigned(10)

  datatype AcceptOutcome = NotSignedIn | Accepted | Failed

  /** The patch `acceptMission` sends: the volunteer, status 'assigned', and the time of the click. */
  function AcceptPatch(volunteer: string, now: int): AlertPatch {
    AlertPatch(Some(Assigned), Some(volunteer), Some(now))
  }

  /** The dashboard's alert list state and what it has asked of the store. */
  class Dashboard {
    var alerts: seq<JoinedAlert>
    var loading: bool
    var requests: seq<Request>

    /** Mounting fetches the open alerts. */
    constructor ()
      ensures alerts == [] && loading && requests == [SelectAlertRows(OpenAlertsQuery)]
    {
      alerts, loading := [], true;
      requests := [SelectAlertRows(OpenAlertsQuery)];
    }

    /** An INSERT on `emergency_alerts` refetches the list. */
    method OnAlertInserted()
      modifies this
      ensures alerts == old(alerts) && loading == old(loading)
      ensures requests == old(requests) + [SelectAlertRows(OpenAlertsQuery)]
    {
      requests := requests + [SelectAlertRows(OpenAlertsQuery)];
    }

    /**
     * `fetchActiveAlerts` once its queries are answered. `alertTable` is the table the alert
     * query ran on (None: the query failed); `profileTable` the table the profile query ran
     * on (None: it failed). Loading is off on every path.
     */
    method FetchActiveAlerts(alertTable: Option<seq<AlertRow>>, profileTable: Option<seq<ProfileRow>>)
      modifies this
      ensures !loading
      ensures alertTable.None? ==> alerts == old(alerts) && requests == old(requests)
      ensures alertTable.Some? && SelectAlerts(alertTable.value, OpenAlertsQuery) == [] ==>
        alerts == [] && requests == old(requests)
      ensures alertTable.Some? && SelectAlerts(alertTable.value, OpenAlertsQuery) != [] ==>
        var data := SelectAlerts(alertTable.value, OpenAlertsQuery);
        var ids := UserIds(data);
        && requests == old(requests) + [SelectProfiles(ids)]
        && alerts == JoinProfiles(data, if profileTable.Some? then Some(Filter(profileTable.value, (p: ProfileRow) => p.id in ids)) else None)
    {
      if alertTable.None? {
        loading := false;
        return;
      }
      var data := SelectAlerts(alertTable.value, OpenAlertsQuery);
      if data == [] {
        alerts := [];
        loading := false;
        return;
      }
      var ids := UserIds(data);
      requests := requests + [SelectProfiles(ids)];
      var profiles := if profileTable.Some? then Some(Filter(profileTable.value, (p: ProfileRow) => p.id in ids)) else None;
      alerts := JoinProfiles(data, profiles);
      loading := false;
    }

    /**
     * `acceptMission`: without a user nothing happens; otherwise the patch is sent, and only
     * when it succeeds is the list refetched.
     */
    method AcceptMission(user: Option<string>, alertId: string, now: int, updateFails: bool) returns (outcome: AcceptOutcome)
      modifies this
      ensures alerts == old(alerts) && loading == old(loading)
      ensures user.None? ==> outcome == NotSignedIn && requests == old(requests)
      ensures user.Some? && updateFails ==>
        outcome == Failed && requests == old(requests) + [UpdateAlert(alertId, AcceptPatch(user.value, now))]
      ensures user.Some? && !updateFails ==>
        outcome == Accepted
        && requests == old(requests) + [UpdateAlert(alertId, AcceptPatch(user.value, now)), SelectAlertRows(OpenAlertsQuery)]
    {
      if user.None? {
        return NotSignedIn;
      }
      requests := requests + [UpdateAlert(alertId, AcceptPatch(user.value, now))];
      if updateFails {
        return Failed;
      }
      requests := requests + [SelectAlertRows(OpenAlertsQuery)];
      outcome := Accepted;
    }
  }

  /**
   * The accept patch touches only the alert with that id, and only its status, volunteer and
   * update time; it sets them to 'assigned', the volunteer and the click time.
   */
  lemma AcceptChangesOnlyThatAlert(table: seq<AlertRow>, alertId: string, volunteer: string, now: int, i: int)
    requires 0 <= i < |table|
    ensures var after := UpdateById(table, alertId, AcceptPatch(volunteer, now));
      && |after| == |table|
      && (table[i].id != alertId ==> after[i] == table[i])
      && (table[i].id == alertId ==>
            after[i] == table[i].(status := Assigned, volunteerId := Some(volunteer), updatedAt := now))
  {
  }

  /**
   * The patch is sent by id alone, so an alert that was completed after the list was loaded
   * goes back to 'assigned' when accepted.
   */
  lemma AcceptCanMoveStatusBackwards(row: AlertRow, volunteer: string, now: int)
    requires row.status == Completed
    ensures UpdateById([row], row.id, AcceptPatch(volunteer, now))[0].status == Assigned
  {
  }
}
