/**
 * The SOS button: the checks made before an alert is sent, the alert row it inserts, the
 * volunteer-assignment call, the five-second countdown, failure recovery, and cancelling.
 * The position fix (or its absence) and the store's answers are parameters.
 */
module SOSButton {
  import opened Wrappers
  import Remote

  /** `lat && lng ? { lat, lng } : null`: a zero (or missing) coordinate drops the location. */
  function AlertLocation(lat: Option<real>, lng: Option<real>): (loc: Option<Remote.Coord>)
    ensures loc.Some? <==> lat.Some? && lat.value != 0.0 && lng.Some? && lng.value != 0.0
    ensures loc.Some? ==> loc.value == Remote.Coord(lat.value, lng.value)
  {
    if lat.Some? && lat.value != 0.0 && lng.Some? && lng.value != 0.0
    then Some(Remote.Coord(lat.value, lng.value)) else None
  }

  /** The inserted description: the typed text, or "<type> emergency alert" when nothing was typed. */
  function AlertDescription(typed: string, emergencyType: string): (d: string)
    ensures typed != "" ==> d == typed
    ensures typed == "" ==> d == emergencyType + " emergency alert"
  {
    if typed != "" then typed else emergencyType + " emergency alert"
  }

  /** The row `sendSOSAlert` inserts: the user's, of the chosen type, with status 'active'. */
  function SOSRow(userId: string, emergencyType: string, typed: string, lat: Option<real>, lng: Option<real>): (row: Remote.NewAlert)
    ensures row.userId == userId && row.emergencyType == emergencyType && row.status == Remote.Active
    ensures row.description == AlertDescription(typed, emergencyType)
    ensures row.location == AlertLocation(lat, lng)
  {
    Remote.NewAlert(userId, emergencyType, AlertDescription(typed, emergencyType), AlertLocation(lat, lng), Remote.Active)
  }

  /** A position fix on the equator is sent without a location. */
  lemma EquatorDropsLocation(lng: real)
    ensures AlertLocation(Some(0.0), Some(lng)) == None
  {
  }

  datatype PressOutcome = NeedsLogin | NeedsType | Locating

  /** What the insert returns: the new row's id, or an error. */
  datatype InsertOutcome = Inserted(id: string) | InsertFailed

  /** The countdown starts here. */
  const CountdownStart: nat := 5

  class SOSButton {
    var isActivated: bool
    var countdown: nat
    var description: string
    var showChat: bool
    var alertId: string
    var isSubmitting: bool
    /** The interval's own `count`, which it decrements and copies into `countdown`. */
    var ticksLeft: nat
    /**
     * The signed-in user and the chosen type of the render whose press started the current
     * submission: `sendSOSAlert` is a closure of that same render, so it sees these values.
     */
    var pressUser: Option<string>
    var pressType: string
    var requests: seq<Remote.Request>

    /**
     * The countdown shows what the interval has counted down to, never more than five; it
     * runs only for an activated alert; the chat shows only for an activated alert, and an
     * activated alert is no longer being submitted; a submission was started by a signed-in
     * user.
     */
    predicate Valid()
      reads this
    {
      && countdown == ticksLeft && countdown <= CountdownStart
      && (countdown > 0 ==> isActivated)
      && (showChat ==> isActivated)
      && (isActivated ==> !isSubmitting)
      && (isSubmitting ==> pressUser.Some?)
    }

    constructor ()
      ensures Valid()
      ensures !isActivated && countdown == 0 && description == "" && !showChat
      ensures alertId == "" && !isSubmitting && requests == []
    {
      isActivated, countdown, description, showChat := false, 0, "", false;
      alertId, isSubmitting, ticksLeft, requests := "", false, 0, [];
      pressUser, pressType := None, "";
    }

    /** The SOS button is disabled while an alert is active or being submitted. */
    predicate ButtonDisabled()
      reads this
    {
      isActivated || isSubmitting
    }

    /** Typing a description (the box is hidden once activated and disabled while submitting). */
    method SetDescription(text: string)
      requires Valid() && !isActivated && !isSubmitting
      modifies this
      ensures Valid() && description == text
      ensures isActivated == old(isActivated) && countdown == old(countdown) && showChat == old(showChat)
      ensures alertId == old(alertId) && isSubmitting == old(isSubmitting) && requests == old(requests)
    {
      description := text;
    }

    /**
     * `handleSOSPress`: signed-out users are turned away first, then a missing type; both
     * leave everything as it is. Otherwise submitting starts and the position is requested.
     */
    method HandleSOSPress(user: Option<string>, emergencyType: string) returns (outcome: PressOutcome)
      requires Valid() && !ButtonDisabled()
      modifies this
      ensures Valid()
      ensures user.None? ==> outcome == NeedsLogin
      ensures user.Some? && emergencyType == "" ==> outcome == NeedsType
      ensures outcome != Locating ==> !isSubmitting
      ensures outcome == Locating <==> user.Some? && emergencyType != ""
      ensures outcome == Locating ==> isSubmitting && pressUser == user && pressType == emergencyType
      ensures isActivated == old(isActivated) && countdown == old(countdown) && description == old(description)
      ensures showChat == old(showChat) && alertId == old(alertId) && requests == old(requests)
    {
      if user.None? {
        return NeedsLogin;
      }
      if emergencyType == "" {
        return NeedsType;
      }
      isSubmitting, pressUser, pressType := true, user, emergencyType;
      outcome := Locating;
    }

    /**
     * `sendSOSAlert` with the position found (or not), for the user and type of the press
     * that started it. Its own "no user" return cannot be taken: the press that reached it
     * had already checked the same user. The row is inserted; on failure the alert is
     * deactivated; on success the new id is kept, the chat shown, the assignment RPC called
     * when the id is non-empty, and the countdown started at five. Submitting ends either way.
     */
    method SendSOSAlert(lat: Option<real>, lng: Option<real>, insert: InsertOutcome)
      requires Valid() && isSubmitting && !isActivated
      modifies this
      ensures Valid()
      ensures !isSubmitting
      ensures !ButtonDisabled() <==> insert.InsertFailed?
      ensures description == old(description) && pressUser == old(pressUser) && pressType == old(pressType)
      ensures var row := SOSRow(old(pressUser).value, old(pressType), old(description), lat, lng);
        && (insert.InsertFailed? ==>
              && !isActivated && countdown == old(countdown) && showChat == old(showChat) && alertId == old(alertId)
              && requests == old(requests) + [Remote.InsertAlert(row)])
        && (insert.Inserted? ==>
              && isActivated && showChat && alertId == insert.id && countdown == CountdownStart
              && requests == old(requests) + [Remote.InsertAlert(row)]
                   + (if insert.id != "" then [Remote.AssignVolunteerRpc(insert.id)] else []))
    {
      requests := requests + [Remote.InsertAlert(SOSRow(pressUser.value, pressType, description, lat, lng))];
      isSubmitting := false;
      if insert.InsertFailed? {
        return;
      }
      alertId := insert.id;
      if insert.id != "" {
        requests := requests + [Remote.AssignVolunteerRpc(insert.id)];
      }
      isActivated, showChat := true, true;
      ticksLeft, countdown := CountdownStart, CountdownStart;
    }

    /** One second of the countdown: one less, stopping at zero. */
    method Tick()
      requires Valid() && ticksLeft > 0
      modifies this
      ensures Valid()
      ensures countdown == old(countdown) - 1
      ensures isActivated == old(isActivated) && showChat == old(showChat) && alertId == old(alertId)
      ensures description == old(description) && isSubmitting == old(isSubmitting) && requests == old(requests)
    {
      ticksLeft := ticksLeft - 1;
      countdown := ticksLeft;
    }

    /** "Cancel Request", offered once the countdown is over: back to the idle button. */
    method Cancel()
      requires Valid() && isActivated && countdown == 0
      modifies this
      ensures Valid()
      ensures !isActivated && countdown == 0 && !showChat && !ButtonDisabled()
      ensures alertId == old(alertId) && description == old(description) && requests == old(requests)
    {
      isActivated, countdown, showChat := false, 0, false;
    }
  }

  /**
   * A press followed, when it asked for a position, by its send: however the checks and the
   * insert turn out, the button is not left submitting, and it stays disabled exactly when
   * an alert was inserted.
   */
  method PressThenSend(b: SOSButton, user: Option<string>, emergencyType: string,
                       lat: Option<real>, lng: Option<real>, insert: InsertOutcome)
    requires b.Valid() && !b.ButtonDisabled()
    modifies b
    ensures b.Valid() && !b.isSubmitting
    ensures b.ButtonDisabled() <==> user.Some? && emergencyType != "" && insert.Inserted?
  {
    var outcome := b.HandleSOSPress(user, emergencyType);
    if outcome == Locating {
      b.SendSOSAlert(lat, lng, insert);
    }
  }

  /** From a successful send, five ticks bring the countdown to zero and make cancelling possible. */
  method CountdownToCancel(b: SOSButton)
    requires b.Valid() && b.isActivated && b.countdown == CountdownStart
    modifies b
    ensures b.Valid() && !b.isActivated && b.countdown == 0 && !b.ButtonDisabled()
  {
    var n := 0;
    while n < CountdownStart
      invariant 0 <= n <= CountdownStart
      invariant b.Valid() && b.isActivated
      invariant b.countdown == CountdownStart - n
    {
      b.Tick();
      n := n + 1;
    }
    b.Cancel();
  }
}
