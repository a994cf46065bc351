/**
 * The live map: which circle marker each emergency alert and each user location gets
 * (colour, radius, opacity, popup), the redraw that rebuilds the marker list, the current
 * user's entry appended to the location list, and the local assign-volunteer update.
 */
module MapComponent {
  import opened Wrappers
  import opened Text
  import Remote

  const HourMs: int := 60 * 60 * 1000

  datatype Contact = Contact(fullName: string, phone: string)

  /** An alert as the map holds it; timestamps are milliseconds since the epoch. */
  datatype MapAlert = MapAlert(
    id: string, userId: string, emergencyType: string, description: string,
    location: Option<Remote.Coord>, status: string, createdAt: int, updatedAt: int,
    volunteerId: Option<string>, profile: Option<Contact>)

  datatype UserKind = Volunteer | Victim

  datatype UserLocation = UserLocation(
    id: string, userId: string, userType: UserKind, location: Option<Remote.Coord>,
    lastUpdated: int, isActive: bool, profile: Option<Contact>)

  /** A circle marker: where, how large, its fill, and whether a popup is bound to it. */
  datatype Marker = Marker(at: Remote.Coord, radius: nat, fillColor: string, fillOpacity: real, popup: bool)

  const Red := "#ef4444"
  const Orange := "#f97316"
  const Yellow := "#eab308"
  const Purple := "#8b5cf6"
  const Green := "#22c55e"
  const Blue := "#3b82f6"

  /**
   * The inner `getSeverityColor`: medical or older than two hours is red, else fire or older
   * than one hour is orange, else yellow. The hour comparisons are strict.
   */
  function SeverityColor(emergencyType: string, elapsedMs: int): (c: string)
    ensures c == Red <==> emergencyType == "medical" || elapsedMs > 2 * HourMs
    ensures c == Orange <==> !(emergencyType == "medical" || elapsedMs > 2 * HourMs) && (emergencyType == "fire" || elapsedMs > HourMs)
    ensures c == Yellow <==> emergencyType != "medical" && emergencyType != "fire" && elapsedMs <= HourMs
  {
    if emergencyType == "medical" || elapsedMs > 2 * HourMs then Red
    else if emergencyType == "fire" || elapsedMs > HourMs then Orange
    else Yellow
  }

  /** An alert's marker: none without a location; smaller once a volunteer is assigned. */
  function AlertMarker(alert: MapAlert, now: int): (m: Option<Marker>)
    ensures m.None? <==> alert.location.None?
    ensures m.Some? ==>
      && m.value.at == alert.location.value
      && m.value.radius == (if Truthy(alert.volunteerId) then 8 else 12)
      && m.value.fillColor == SeverityColor(alert.emergencyType, now - alert.createdAt)
      && m.value.fillOpacity == 0.8 && m.value.popup
  {
    if alert.location.None? then None
    else Some(Marker(alert.location.value, if Truthy(alert.volunteerId) then 8 else 12,
                     SeverityColor(alert.emergencyType, now - alert.createdAt), 0.8, true))
  }

  /**
   * A user location's marker: the current user is purple, radius 10, opaque and without a
   * popup; others are green (volunteers) or blue, radius 6, opacity 0.7, with a popup only
   * when they have a profile.
   */
  function UserMarker(loc: UserLocation, currentUserId: string): (m: Option<Marker>)
    ensures m.None? <==> loc.location.None?
    ensures m.Some? && loc.userId == currentUserId ==>
      m.value == Marker(loc.location.value, 10, Purple, 1.0, false)
    ensures m.Some? && loc.userId != currentUserId ==>
      && m.value.at == loc.location.value && m.value.radius == 6 && m.value.fillOpacity == 0.7
      && m.value.fillColor == (if loc.userType == Volunteer then Green else Blue)
      && (m.value.popup <==> loc.profile.Some?)
  {
    if loc.location.None? then None
    else
      var isCurrent := loc.userId == currentUserId;
      var color := if isCurrent then Purple else if loc.userType == Volunteer then Green else Blue;
      Some(Marker(loc.location.value, if isCurrent then 10 else 6, color,
                  if isCurrent then 1.0 else 0.7, !isCurrent && loc.profile.Some?))
  }

  /** The alert markers in list order, skipping alerts without a location. */
  function AlertMarkers(alerts: seq<MapAlert>, now: int): (r: seq<Marker>)
    ensures |r| <= |alerts|
    ensures forall k :: 0 <= k < |r| ==> r[k].popup && (r[k].radius == 8 || r[k].radius == 12)
  {
    if alerts == [] then []
    else
      var prefix := AlertMarkers(alerts[..|alerts| - 1], now);
      match AlertMarker(alerts[|alerts| - 1], now)
      case None => prefix
      case Some(m) => prefix + [m]
  }

  /** The user markers in list order, skipping entries without a location. */
  function UserMarkers(locs: seq<UserLocation>, currentUserId: string): (r: seq<Marker>)
    ensures |r| <= |locs|
    ensures forall k :: 0 <= k < |r| ==> r[k].radius == 6 || r[k].radius == 10
  {
    if locs == [] then []
    else
      var prefix := UserMarkers(locs[..|locs| - 1], currentUserId);
      match UserMarker(locs[|locs| - 1], currentUserId)
      case None => prefix
      case Some(m) => prefix + [m]
  }

  /** Every alert with a location has its marker on the map. */
  lemma {:induction false} LocatedAlertIsDrawn(alerts: seq<MapAlert>, now: int, i: int)
    requires 0 <= i < |alerts| && alerts[i].location.Some?
    ensures AlertMarker(alerts[i], now).value in AlertMarkers(alerts, now)
    decreases |alerts|
  {
    if i < |alerts| - 1 {
      var front := alerts[..|alerts| - 1];
      assert front[i] == alerts[i];
      LocatedAlertIsDrawn(front, now, i);
    }
  }

  /** Every alert marker is the marker of some alert in the list. */
  lemma {:induction false} AlertMarkerHasAlert(alerts: seq<MapAlert>, now: int, k: int)
    requires 0 <= k < |AlertMarkers(alerts, now)|
    ensures exists i :: 0 <= i < |alerts| && AlertMarker(alerts[i], now) == Some(AlertMarkers(alerts, now)[k])
    decreases |alerts|
  {
    var front := alerts[..|alerts| - 1];
    var prefix := AlertMarkers(front, now);
    if k < |prefix| {
      AlertMarkerHasAlert(front, now, k);
      var i :| 0 <= i < |front| && AlertMarker(front[i], now) == Some(prefix[k]);
      assert alerts[i] == front[i];
    } else {
      assert AlertMarker(alerts[|alerts| - 1], now) == Some(AlertMarkers(alerts, now)[k]);
    }
  }

  /** The entry appended for the signed-in user after the generated ones. */
  function CurrentUserEntry(userId: string, userType: UserKind, at: Remote.Coord, now: int): UserLocation {
    UserLocation("current-user", userId, userType, Some(at), now, true, Some(Contact("You", "")))
  }

  /** The location list with the current user pushed last; the generated entries keep their order. */
  function WithCurrentUser(generated: seq<UserLocation>, userId: string, userType: UserKind, at: Remote.Coord, now: int): (r: seq<UserLocation>)
    ensures |r| == |generated| + 1 && r[..|generated|] == generated
    ensures r[|generated|].id == "current-user" && r[|generated|].userId == userId
    ensures r[|generated|].profile == Some(Contact("You", ""))
  {
    generated + [CurrentUserEntry(userId, userType, at, now)]
  }

  /** The appended entry is drawn as the current user: purple, radius 10, opaque, no popup. */
  lemma CurrentUserDrawnPurple(generated: seq<UserLocation>, userId: string, userType: UserKind, at: Remote.Coord, now: int)
    ensures var locs := WithCurrentUser(generated, userId, userType, at, now);
      UserMarkers(locs, userId) == UserMarkers(generated, userId) + [Marker(at, 10, Purple, 1.0, false)]
  {
    var locs := WithCurrentUser(generated, userId, userType, at, now);
    assert locs[..|locs| - 1] == generated;
  }

  /** `handleAssignVolunteer`'s update: only alerts with that id change. */
  function AssignVolunteer(alerts: seq<MapAlert>, alertId: string, userId: string, now: int): (r: seq<MapAlert>)
    ensures |r| == |alerts|
    ensures forall i :: 0 <= i < |alerts| && alerts[i].id != alertId ==> r[i] == alerts[i]
    ensures forall i :: 0 <= i < |alerts| && alerts[i].id == alertId ==>
      r[i] == alerts[i].(volunteerId := Some(userId), status := "in_progress", updatedAt := now)
  {
    seq(|alerts|, i requires 0 <= i < |alerts| =>
      if alerts[i].id == alertId
      then alerts[i].(volunteerId := Some(userId), status := "in_progress", updatedAt := now)
      else alerts[i])
  }

  /**
   * After assignment the alert's marker shrinks to radius 8 (for a non-empty user id) and
   * keeps its place and colour.
   */
  lemma AssignedAlertMarkerShrinks(alerts: seq<MapAlert>, alertId: string, userId: string, now: int, clock: int, i: int)
    requires 0 <= i < |alerts| && alerts[i].id == alertId && alerts[i].location.Some? && userId != ""
    ensures var after := AssignVolunteer(alerts, alertId, userId, now)[i];
      && AlertMarker(after, clock).value.radius == 8
      && AlertMarker(after, clock).value.at == AlertMarker(alerts[i], clock).value.at
      && AlertMarker(after, clock).value.fillColor == AlertMarker(alerts[i], clock).value.fillColor
  {
  }

  /** The map's data and the markers currently drawn. */
  class MapView {
    var alerts: seq<MapAlert>
    var userLocations: seq<UserLocation>
    var markers: seq<Marker>

    constructor ()
      ensures alerts == [] && userLocations == [] && markers == []
    {
      alerts, userLocations, markers := [], [], [];
    }

    /** The data effect: generated alerts and locations, then the current user pushed last. */
    method LoadData(generatedAlerts: seq<MapAlert>, generatedLocations: seq<UserLocation>,
                    userId: string, userType: UserKind, at: Remote.Coord, now: int)
      modifies this
      ensures alerts == generatedAlerts
      ensures userLocations == WithCurrentUser(generatedLocations, userId, userType, at, now)
      ensures markers == old(markers)
    {
      var locs := generatedLocations;
      locs := locs + [CurrentUserEntry(userId, userType, at, now)];
      alerts := generatedAlerts;
      userLocations := locs;
    }

    /**
     * `updateMarkers`: nothing happens before the map has loaded; otherwise the markers are
     * cleared and rebuilt, alert markers first, then user markers, each in list order.
     */
    method UpdateMarkers(mapLoaded: bool, currentUserId: string, now: int)
      modifies this
      ensures alerts == old(alerts) && userLocations == old(userLocations)
      ensures !mapLoaded ==> markers == old(markers)
      ensures mapLoaded ==> markers == AlertMarkers(alerts, now) + UserMarkers(userLocations, currentUserId)
    {
      if !mapLoaded {
        return;
      }
      var drawn: seq<Marker> := [];
      var pending := alerts;
      var i := 0;
      while i < |pending|
        invariant 0 <= i <= |pending|
        invariant drawn == AlertMarkers(pending[..i], now)
      {
        assert pending[..i + 1][..i] == pending[..i];
        var m := AlertMarker(pending[i], now);
        if m.Some? {
          drawn := drawn + [m.value];
        }
        i := i + 1;
      }
      assert pending[..|pending|] == pending;
      var locs := userLocations;
      var j := 0;
      while j < |locs|
        invariant 0 <= j <= |locs|
        invariant drawn == AlertMarkers(pending, now) + UserMarkers(locs[..j], currentUserId)
      {
        assert locs[..j + 1][..j] == locs[..j];
        var m := UserMarker(locs[j], currentUserId);
        if m.Some? {
          drawn := drawn + [m.value];
        }
        j := j + 1;
      }
      assert locs[..|locs|] == locs;
      markers := drawn;
    }

    /** `handleAssignVolunteer`: a no-op unless the viewer is a volunteer. */
    method HandleAssignVolunteer(alertId: string, userId: string, userType: UserKind, now: int)
      modifies this
      ensures userLocations == old(userLocations) && markers == old(markers)
      ensures userType != Volunteer ==> alerts == old(alerts)
      ensures userType == Volunteer ==> alerts == AssignVolunteer(old(alerts), alertId, userId, now)
    {
      if userType != Volunteer {
        return;
      }
      alerts := AssignVolunteer(alerts, alertId, userId, now);
    }
  }
}
