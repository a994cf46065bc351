# JeevanRaksha core, modelled in Dafny

JeevanRaksha is a disaster-response web application. Victims raise SOS alerts and chat with
volunteers. Volunteers see open and active alerts, accept and complete missions, and see
everyone on a map. A feed shows public disaster warnings near the user. Almost all of it is
React views bound to a hosted database. This project models the logic those views hold:

- **The disaster-alert feed** (`DisasterAlerts`):
  - icon and severity classification;
  - relative-time labels;
  - the record transform with its defaults and its `"lng,lat"` centroid;
  - the 200 km radius filter and the distance sort;
  - the single fallback entry shown on failure.
- **Emergency-alert list operations** (`DashboardTab`, `MapComponent`, `ActiveEmergencies`,
  `MyMissionsTab`):
  - time-ago and priority-colour labels;
  - the alert/profile join;
  - marker colour, radius and popup choices;
  - the accept and complete patches, and the two-write accept that stops early on error.
- **Small UI state machines** (`SOSButton`, `ChatBot`, `ChatWindow`, `VolunteerRegistration`,
  `VictimChatList`):
  - the SOS guards, row construction, countdown and cancel;
  - the chatbot transcript;
  - the chat window's message list, upload path and media classification;
  - skill toggling;
  - the chat list's view selection.
- **The synchronisation hooks** (`UseChat`, `UserLocation`):
  - `useChat` is a state machine over effect runs, with a mounted guard per run and a log of
    realtime channels opened and removed;
  - `useUserLocation` performs the upsert-then-profile write and the single-row fetch.

Shared modules:

- `Wrappers` holds `Option`.
- `Text` holds the JavaScript string operations used here: ASCII `toLowerCase`, `includes`,
  `trim` blankness, `split`/`pop`, `||` on strings, and decimal rendering.
- `Seqs` holds filter, de-duplication, `find`, and a stable insertion sort over a rank with an
  "unknown" value that sorts last.
- `Remote` holds the hosted tables' row shapes and the semantics of the queries the
  components send:
  - patch by id;
  - newest-first selection with a limit;
  - the two readings of the location upsert;
  - `.single()`.

How the remote store is modelled:

- A component object keeps a log of the requests it sends (`seq<Remote.Request>`).
- What the store answers is a method parameter: a table snapshot, an error or a generated id.
- Query semantics are pure functions over a table snapshot, so a completion handler's
  `ensures` can say what the component shows: for example
  `emergencies == SelectAlerts(table, ActiveNewest)`.
- Five handlers are split into a start method and a completion method.
  - `HandleSend`/`ReceiveReply`, `StartUpload`/`FinishUpload`, `BeginSubmit`/`FinishSubmit` and
    the feed's `StartFetch`/`FinishFetch` are split at an `await`.
  - `HandleSOSPress`/`SendSOSAlert` is split at the geolocation callback: `handleSOSPress` has
    no `await` and calls `sendSOSAlert` from that callback.
  - `HandleSOSPress` records the user and type of its render, which `sendSOSAlert` reads from
    the same closure.
- The other handlers with an `await` are single methods. The store's answers are their
  parameters, and their whole effect is applied at once. These are:
  - `ChatWindow.SendMessage`;
  - `SOSButton.SendSOSAlert`, which covers both its insert and its RPC;
  - `ActiveEmergencies.HandleAcceptMission`, which covers both its writes;
  - `MyMissions.HandleCompleteMission`;
  - `Dashboard.AcceptMission`;
  - `LocationHook.UpdateUserLocation`, which covers both its writes;
  - `Dashboard.FetchActiveAlerts`, which covers both its queries.
- The remaining fetches (`FetchDone`, `FetchLocationDone`) are completions only. The request
  that starts each is recorded in `requests` by the constructor or event handler that sends it.

  "## Left out" lists what this loses.

## Where the model follows the code rather than the description

- **Toggling a skill twice does not always restore the list.** It does when the skill was
  absent. A present skill is removed, then re-appended at the end, so
  `["medical","rescue"]` becomes `["rescue","medical"]` (`ToggleTwiceCanReorder`). The
  multiset is restored on duplicate-free lists, and the toggled skill comes last.
- **Accepting from the dashboard uses a different status.** The dashboard's accept writes
  status `'assigned'`. No list in the application selects that value, and the `AlertStatus` type of
  `src/integrations/supabase/types.ts` does not name it. The
  active-list accept writes `'in_progress'`. So an alert accepted from the dashboard never
  appears among the volunteer's missions (`AcceptedFromDashboardIsNotMission`).
- **An accept can move a status backwards.** The accept patch is applied by id alone, so a
  completed alert becomes `'assigned'` again (`AcceptCanMoveStatusBackwards`).
- **`useChat` never sets `loading` back to true on a refetch.** Its `error` is never cleared.
- **`sendSOSAlert`'s own user check cannot fail.** It closes over the same `user` that
  `handleSOSPress` has already checked, so its early return before the `try` is unreachable.
  Every send ends submitting (`PressThenSend`).

## Model

| member | source | states |
|---|---|---|
| DisasterAlerts.GetDisasterIcon | src/components/DisasterAlerts.tsx:51-66 | total on a missing type; never the fallback-only plug icon |
| DisasterAlerts.GetDisasterIconIsFirstMatch | src/components/DisasterAlerts.tsx:52-65 | the icon is the first rule, in source order, with a keyword contained in the lower-cased type, else the warning icon |
| DisasterAlerts.FirstMatchWins | src/components/DisasterAlerts.tsx:53-64 | a matching rule preceded only by non-matching rules decides the icon |
| DisasterAlerts.NoMatchIsWarning | src/components/DisasterAlerts.tsx:65 | no rule matching gives the generic warning icon |
| DisasterAlerts.MissingTypeIsWarning | src/components/DisasterAlerts.tsx:52 | a null or undefined type gives the warning icon |
| DisasterAlerts.IconIgnoresCase | src/components/DisasterAlerts.tsx:52 | the icon of a type equals the icon of its lower-cased form |
| DisasterAlerts.EarthquakeBeatsAll | src/components/DisasterAlerts.tsx:53 | any type containing "earthquake" in any case gives the earthquake icon |
| DisasterAlerts.FloodBeatsRain | src/components/DisasterAlerts.tsx:54-64 | a type containing both "flood" and "rain" gives the flood icon |
| DisasterAlerts.GetSeverity | src/components/DisasterAlerts.tsx:69-75 | red/orange/yellow give high/medium/low and take precedence; otherwise medium iff the level contains "likely" case-insensitively; high only from red |
| DisasterAlerts.FormatDate | src/components/DisasterAlerts.tsx:78-94 | empty input gives 'Unknown time'; floored hours < 1 give 'Just now', < 24 give "h hour(s) ago", days < 7 give "d day(s) ago", else the locale date; an unparsable date gives the locale text |
| DisasterAlerts.CountedAgoReadBack | src/components/DisasterAlerts.tsx:88-89 | the label starts with the count, which reads back as the number, then the unit; it carries 's' iff the count exceeds 1 |
| DisasterAlerts.CentroidParts | src/components/DisasterAlerts.tsx:118 | the destructured pair is the first comma piece and, when a comma exists, the second |
| DisasterAlerts.CentroidIsLongitudeFirst | src/components/DisasterAlerts.tsx:117-120 | "lng,lat" yields latitude from the second part and longitude from the first |
| DisasterAlerts.Transform | src/components/DisasterAlerts.tsx:111-143 | distance is present iff a user location exists and both coordinates parse, and then it is the distance to the centroid; the id is the identifier or else the record's random id; the timestamp is `formatDate` of the start time; the type, location, description chain, 'Not specified' affected and source defaults; severity colour and level passed through; coordinates parsed from a centroid, both null without one; icon and severity from the classifiers |
| DisasterAlerts.TransformAll | src/components/DisasterAlerts.tsx:111 | one transformed record per raw record, in order |
| DisasterAlerts.FilterByRadius | src/components/DisasterAlerts.tsx:146-148 | without a location every alert is kept; with one, exactly the alerts with a known distance of at most 200, each as often as it occurs in the input |
| DisasterAlerts.SortByDistance | src/components/DisasterAlerts.tsx:151-155 | a permutation in which known distances are non-decreasing and precede unknown ones |
| DisasterAlerts.PipelineWithLocation | src/components/DisasterAlerts.tsx:146-155 | with a location, the feed holds only nearby alerts, every nearby alert, each as often as it was transformed, in increasing distance |
| DisasterAlerts.PipelineWithoutLocation | src/components/DisasterAlerts.tsx:146-155 | without a location, the feed is the transformed records in API order |
| DisasterAlerts.AlertFeed.constructor | src/components/DisasterAlerts.tsx:7-10 | no alerts, loading, no error, no timestamp |
| DisasterAlerts.AlertFeed.StartFetch | src/components/DisasterAlerts.tsx:97-99 | loading starts and the error is cleared, so Refresh is disabled; the alerts and update time stay, and the loading screen shows only when there are no alerts |
| DisasterAlerts.AlertFeed.FinishFetch | src/components/DisasterAlerts.tsx:100-179 | success shows the pipeline and records the time; an HTTP status or a throw shows exactly the fallback entry and records the message; loading ends on every path, re-enabling Refresh |
| DisasterAlerts.RefreshSucceeds | src/components/DisasterAlerts.tsx:97-179 | a started fetch that gets records shows the pipeline's alerts, no error and the new time |
| DisasterAlerts.FallbackNeverLive | src/components/DisasterAlerts.tsx:111-175 | no successful fetch shows the connection-error entry: no transformed alert carries its plug icon |
| DashboardTab.GetTimeAgo | src/components/volunteer/tabs/DashboardTab.tsx:153-166 | floored minutes < 1, including the future, give 'Just now'; then "m mins ago", "h hours ago" and "d days ago" by floored buckets |
| DashboardTab.GetTimeAgoReadBack | src/components/volunteer/tabs/DashboardTab.tsx:159-165 | the label starts with its bucket count, which reads back exactly, followed by a space |
| DashboardTab.GetTimeAgoNeverSingular | src/components/volunteer/tabs/DashboardTab.tsx:159-165 | a count of one still reads "1 mins ago", "1 hours ago" and "1 days ago" |
| DashboardTab.GetPriorityColor | src/components/volunteer/tabs/DashboardTab.tsx:168-176 | each colour iff the lower-cased type is its category; gray iff it is none of the four |
| DashboardTab.UserIds | src/components/volunteer/tabs/DashboardTab.tsx:91 | duplicate-free, and holds exactly the alerts' user ids |
| DashboardTab.JoinProfiles | src/components/volunteer/tabs/DashboardTab.tsx:104-108 | order and count kept; a found profile has the alert's user id; none found means no profile matches; all none when the profile query failed |
| DashboardTab.JoinPicksFirstProfile | src/components/volunteer/tabs/DashboardTab.tsx:107 | the profile joined is the first one with the alert's user id |
| DashboardTab.Dashboard.constructor | src/components/volunteer/tabs/DashboardTab.tsx:37-38 | empty list, loading, one open-alert query sent |
| DashboardTab.Dashboard.OnAlertInserted | src/components/volunteer/tabs/DashboardTab.tsx:43-55 | an insert event sends a refetch and changes nothing else |
| DashboardTab.Dashboard.FetchActiveAlerts | src/components/volunteer/tabs/DashboardTab.tsx:62-116 | a query error keeps the list; an empty result empties it; otherwise the de-duplicated ids are queried and the list is the join; loading ends on every path |
| DashboardTab.Dashboard.AcceptMission | src/components/volunteer/tabs/DashboardTab.tsx:118-151 | nothing without a user; the update is sent; the list is refetched only on success |
| DashboardTab.AcceptChangesOnlyThatAlert | src/components/volunteer/tabs/DashboardTab.tsx:122-129 | only the alert with that id changes: status 'assigned', volunteer and update time |
| DashboardTab.AcceptCanMoveStatusBackwards | src/components/volunteer/tabs/DashboardTab.tsx:122-129 | a completed alert becomes 'assigned' again |
| MapComponent.SeverityColor | src/components/MapComponent.tsx:205-211 | red iff medical or older than 2 h; orange iff not red and fire or older than 1 h; yellow otherwise |
| MapComponent.AlertMarker | src/components/MapComponent.tsx:202-246 | no marker iff no location; radius 8 when a volunteer is assigned, else 12; colour by severity; opacity 0.8; popup bound |
| MapComponent.UserMarker | src/components/MapComponent.tsx:251-280 | the current user: purple, radius 10, opacity 1, no popup; others: green for volunteers else blue, radius 6, opacity 0.7, popup iff a profile exists |
| MapComponent.LocatedAlertIsDrawn | src/components/MapComponent.tsx:202-248 | every alert with a location has its marker drawn |
| MapComponent.AlertMarkerHasAlert | src/components/MapComponent.tsx:202-248 | every drawn alert marker is the marker of some alert |
| MapComponent.WithCurrentUser | src/components/MapComponent.tsx:170-182 | the generated list is kept, and the current user is appended last as 'current-user' named 'You' |
| MapComponent.CurrentUserDrawnPurple | src/components/MapComponent.tsx:170-182 | after the append, the user markers end with the purple current-user marker |
| MapComponent.AssignVolunteer | src/components/MapComponent.tsx:292-302 | same length; only the alert with that id changes: volunteer, 'in_progress' and update time |
| MapComponent.AssignedAlertMarkerShrinks | src/components/MapComponent.tsx:216 | once assigned, an alert's marker has radius 8, at the same place and colour |
| MapComponent.MapView.constructor | src/components/MapComponent.tsx:47-48 | no alerts, no user locations, no markers |
| MapComponent.MapView.LoadData | src/components/MapComponent.tsx:167-184 | alerts are the generated ones; locations are the generated ones plus the current user |
| MapComponent.MapView.UpdateMarkers | src/components/MapComponent.tsx:189-285 | before the map loads nothing changes; afterwards the markers are exactly the alert markers then the user markers |
| MapComponent.MapView.HandleAssignVolunteer | src/components/MapComponent.tsx:288-305 | a no-op unless the user is a volunteer; otherwise the list is the assigned one |
| VolunteerRegistration.RemoveAll | src/components/VolunteerRegistration.tsx:36 | the skill is gone and every other skill's membership is kept |
| VolunteerRegistration.ToggleSkill | src/components/VolunteerRegistration.tsx:32-39 | an absent skill is appended; a present one is removed everywhere and nothing else's membership changes |
| VolunteerRegistration.RemoveAllCounts | src/components/VolunteerRegistration.tsx:36 | removal keeps every other skill's count and zeroes that skill's |
| VolunteerRegistration.ToggleKeepsNoDup | src/components/VolunteerRegistration.tsx:35-37 | a duplicate-free list stays duplicate-free |
| VolunteerRegistration.ToggleTwiceAbsentRestores | src/components/VolunteerRegistration.tsx:35-37 | toggling an absent skill twice restores the list |
| VolunteerRegistration.ToggleTwicePresentRestoresSkills | src/components/VolunteerRegistration.tsx:35-37 | toggling a present skill twice restores the multiset and puts the skill last |
| VolunteerRegistration.ToggleTwiceCanReorder | src/components/VolunteerRegistration.tsx:35-37 | toggling "medical" twice in ["medical","rescue"] gives ["rescue","medical"] |
| VolunteerRegistration.RegistrationForm.constructor | src/components/VolunteerRegistration.tsx:16-22 | empty fields, no skills, not submitting |
| VolunteerRegistration.RegistrationForm.HandleSkillToggle | src/components/VolunteerRegistration.tsx:32-39 | skills become the toggled list; name, phone and location are unchanged |
| VolunteerRegistration.RegistrationForm.BeginSubmit | src/components/VolunteerRegistration.tsx:41-43 | submitting becomes true and nothing else changes |
| VolunteerRegistration.RegistrationForm.FinishSubmit | src/components/VolunteerRegistration.tsx:53-54 | submitting becomes false and the form is closed once |
| ChatBot.MockIndex | src/components/chat/ChatBot.tsx:31 | the floored index of a draw in [0,1) is in [0,6) |
| ChatBot.GetMockResponse | src/components/chat/ChatBot.tsx:21-32 | the reply is one of the six fixed responses |
| ChatBot.EveryResponseReachable | src/components/chat/ChatBot.tsx:21-32 | each of the six responses is chosen by some draw |
| ChatBot.ReplyContent | src/components/chat/ChatBot.tsx:66-77 | the apology iff the reply threw; otherwise a fixed response |
| ChatBot.ChatBot.constructor | src/components/chat/ChatBot.tsx:11-18 | exactly one assistant greeting, empty input, not loading |
| ChatBot.ChatBot.SetInput | src/components/chat/ChatBot.tsx:155-157 | the input is the text and the transcript is unchanged |
| ChatBot.ChatBot.HandleSend | src/components/chat/ChatBot.tsx:34-65 | blank input changes nothing; otherwise the user message is appended, the input cleared and loading set; the transcript invariant is kept |
| ChatBot.ChatBot.ReceiveReply | src/components/chat/ChatBot.tsx:66-80 | exactly one assistant message, the reply or the apology, is appended and loading ends |
| ChatBot.ChatBot.HandleKeyPress | src/components/chat/ChatBot.tsx:83-88 | Enter without Shift sends; on blank input that send changes nothing; any other key changes nothing |
| ChatBot.SendThenReply | src/components/chat/ChatBot.tsx:34-81 | a send appends exactly the user message then the assistant reply, and ends not loading |
| ChatWindow.OldestFirst | src/components/ChatWindow.tsx:50 | a permutation in ascending creation time |
| ChatWindow.ThreadOf | src/components/ChatWindow.tsx:45-56 | exactly the alert's messages, each as often as in the table, oldest first |
| ChatWindow.Extension | src/components/ChatWindow.tsx:79 | a dot-free suffix of the name, and the whole name when there is no dot |
| ChatWindow.ExtensionIsAfterLastDot | src/components/ChatWindow.tsx:79 | with a dot, the extension follows a dot at the end of the name, and it is the only dot-free text that does: the text after the last '.' |
| ChatWindow.UploadPath | src/components/ChatWindow.tsx:80-81 | starts with "chat-media/alertId/" and ends with "." and the extension |
| ChatWindow.UploadKeepsExtension | src/components/ChatWindow.tsx:79-81 | the extension read back from the path is the file's extension |
| ChatWindow.MediaLabel | src/components/ChatWindow.tsx:94 | the image label iff the MIME type starts with "image/", else the file label |
| ChatWindow.AlignmentOf | src/components/ChatWindow.tsx:116 | right-aligned iff the sender is the user |
| ChatWindow.MediaOf | src/components/ChatWindow.tsx:126-143 | no media iff no URL; inline iff the URL has an image extension; otherwise a link to the URL |
| ChatWindow.ImageExtensionIgnoresCase | src/components/ChatWindow.tsx:128 | the image test gives the same answer on the lower-cased URL |
| ChatWindow.ChatWindow.constructor | src/components/ChatWindow.tsx:16-39 | empty state and one thread query sent; uploading exactly while an upload is pending |
| ChatWindow.ChatWindow.OnInsertPush | src/components/ChatWindow.tsx:31-33 | the pushed row is appended at the end |
| ChatWindow.ChatWindow.FetchDone | src/components/ChatWindow.tsx:45-56 | returned data replaces the list with the thread; no data leaves it |
| ChatWindow.ChatWindow.SetNewMessage | src/components/ChatWindow.tsx:155-159 | the draft is the text and nothing else changes |
| ChatWindow.ChatWindow.SendMessage | src/components/ChatWindow.tsx:58-72 | blank input sends nothing; otherwise one insert is sent and the draft is cleared only on success; the list is untouched |
| ChatWindow.ChatWindow.StartUpload | src/components/ChatWindow.tsx:74-84 | no file changes nothing; otherwise uploading starts with the derived path, which is then the pending upload |
| ChatWindow.ChatWindow.FinishUpload | src/components/ChatWindow.tsx:85-101 | only while uploading; the labelled media message is inserted only on success; uploading ends and nothing is pending on every path |
| VictimChatList.SenderDisplay | src/components/VictimChatList.tsx:46-50 | an object shows its full_name, a string shows itself, anything else shows 'Unknown' |
| VictimChatList.SenderAsFetched | src/components/VictimChatList.tsx:46 | the `sender` field the code reads is always absent on fetched rows |
| VictimChatList.SenderAlwaysUnknown | src/components/VictimChatList.tsx:46-50 | as written, every chat shows 'Unknown' |
| VictimChatList.SenderOf | src/hooks/useChat.tsx:18-24 | the sender value is the joined sender profile when there is one, else null |
| VictimChatList.SenderShowsProfileName | src/components/VictimChatList.tsx:46-50 | with the joined profile, the list shows the sender's full name |
| VictimChatList.ViewOf | src/components/VictimChatList.tsx:15-50 | error before loading before "no conversations"; the empty check uses the unfiltered list; otherwise exactly this alert's chats, in order, each with the sender read by the given reading. The component as written renders it with `SenderAsFetched` |
| VictimChatList.ListShowsExactlyThisAlert | src/components/VictimChatList.tsx:37-39 | every chat of this alert is listed, and every listed item comes from a chat of this alert |
| VictimChatList.ListedSendersUnknown | src/components/VictimChatList.tsx:37-50 | as written, every listed chat shows 'Unknown' as its sender |
| VictimChatList.ListedSenderNamed | src/components/VictimChatList.tsx:37-50 | read from the joined profile, a chat of the alert is listed under its sender's full name |
| VictimChatList.OtherAlertsGiveEmptyList | src/components/VictimChatList.tsx:31-39 | chats only for other alerts give an empty list, not the "no conversations" view |
| SOSButton.AlertLocation | src/components/SOSButton.tsx:65 | a location iff both coordinates are present and non-zero |
| SOSButton.AlertDescription | src/components/SOSButton.tsx:72 | the typed text, or "<type> emergency alert" when empty |
| SOSButton.SOSRow | src/components/SOSButton.tsx:67-75 | user, type, status 'active', default description and truthy-guarded location |
| SOSButton.EquatorDropsLocation | src/components/SOSButton.tsx:65 | latitude 0 drops the location |
| SOSButton.SOSButton.constructor | src/components/SOSButton.tsx:14-19 | inactive, countdown 0, no chat, not submitting |
| SOSButton.SOSButton.SetDescription | src/components/SOSButton.tsx:136-138 | the description is the text and nothing else changes |
| SOSButton.SOSButton.HandleSOSPress | src/components/SOSButton.tsx:23-57 | no user, then no type, abort before submitting; otherwise submitting starts for that user and type |
| SOSButton.SOSButton.SendSOSAlert | src/components/SOSButton.tsx:59-126 | the pressing user's row is inserted; success activates with the new id, opens the chat and starts the countdown at 5, with the RPC only for a non-empty id; failure deactivates and re-enables the button; submitting always ends |
| SOSButton.PressThenSend | src/components/SOSButton.tsx:21-126 | a press and its send never leave the button submitting; it stays disabled exactly when an alert was inserted |
| SOSButton.SOSButton.Tick | src/components/SOSButton.tsx:99-113 | the countdown drops by one and nothing else changes |
| SOSButton.SOSButton.Cancel | src/components/SOSButton.tsx:183-200 | offered once activated with the countdown at 0; afterwards inactive, countdown 0, chat closed, button enabled |
| SOSButton.CountdownToCancel | src/components/SOSButton.tsx:99-113 | five ticks from 5 reach 0, and then cancel re-enables the button |
| ActiveEmergencies.AcceptPatch | src/components/volunteer/tabs/ActiveEmergencies.tsx:62-68 | the patch sets only status 'in_progress' and the volunteer |
| ActiveEmergencies.AssignmentFor | src/components/volunteer/tabs/ActiveEmergencies.tsx:73-79 | the assignment row has the alert, the volunteer and 'in_progress' |
| ActiveEmergencies.ActiveEmergencies.constructor | src/components/volunteer/tabs/ActiveEmergencies.tsx:19-26 | empty list and one active-list query sent |
| ActiveEmergencies.ActiveEmergencies.FetchDone | src/components/volunteer/tabs/ActiveEmergencies.tsx:28-36 | returned data replaces the list with the active alerts, newest first; no data keeps it |
| ActiveEmergencies.ActiveEmergencies.OnChange | src/components/volunteer/tabs/ActiveEmergencies.tsx:41-49 | any change event sends a refetch |
| ActiveEmergencies.ActiveEmergencies.HandleAcceptMission | src/components/volunteer/tabs/ActiveEmergencies.tsx:58-99 | nothing without a user; a failed update sends no assignment; the refetch only after both writes succeed |
| ActiveEmergencies.AcceptedLeavesActiveList | src/components/volunteer/tabs/ActiveEmergencies.tsx:29-35 | after the accept patch, the alert is no longer in the active list |
| MyMissionsTab.MyMissions.constructor | src/components/volunteer/tabs/MyMissionsTab.tsx:19-29 | nothing is fetched without a user; otherwise one missions query |
| MyMissionsTab.MyMissions.FetchDone | src/components/volunteer/tabs/MyMissionsTab.tsx:31-42 | returned data replaces the list with the user's in-progress alerts, newest first |
| MyMissionsTab.MyMissions.OnChange | src/components/volunteer/tabs/MyMissionsTab.tsx:44-63 | a change event refetches only with a user |
| MyMissionsTab.MyMissions.HandleCompleteMission | src/components/volunteer/tabs/MyMissionsTab.tsx:65-87 | the complete patch is sent; the refetch only on success |
| MyMissionsTab.MyMissions.OpenChat | src/components/volunteer/tabs/MyMissionsTab.tsx:118 | the selected chat is the mission |
| MyMissionsTab.MyMissions.CloseChat | src/components/volunteer/tabs/MyMissionsTab.tsx:141-149 | no chat is selected |
| MyMissionsTab.CompletedLeavesMissions | src/components/volunteer/tabs/MyMissionsTab.tsx:67-70 | a completed alert is no longer a mission |
| MyMissionsTab.AcceptedFromActiveListIsMission | src/components/volunteer/tabs/ActiveEmergencies.tsx:62-68 | an alert accepted from the active list becomes the volunteer's mission |
| MyMissionsTab.AcceptedFromDashboardIsNotMission | src/components/volunteer/tabs/DashboardTab.tsx:124-128 | an alert accepted from the dashboard never shows among missions |
| Remote.ApplyPatch | src/components/volunteer/tabs/ActiveEmergencies.tsx:62-68 | each field in the patch takes the patch's value; every other field is unchanged |
| Remote.UpdateById | src/components/volunteer/tabs/MyMissionsTab.tsx:67-70 | only rows with that id are patched; length kept |
| Remote.NewestFirst | src/components/volunteer/tabs/ActiveEmergencies.tsx:33 | a permutation in descending creation time |
| Remote.SelectAlerts | src/components/volunteer/tabs/DashboardTab.tsx:65-78 | only matching rows, newest first; all of them unless limited; at most the limit, and all of them when fewer; a sub-multiset of the table |
| Remote.MatchingRows | src/components/volunteer/tabs/DashboardTab.tsx:65-76 | exactly the table's rows that match the filter, and no extra copies |
| Remote.SelectAlertsKeepsNewest | src/components/volunteer/tabs/DashboardTab.tsx:65-78 | when the limit cuts, every matching row left out is no newer than the last row kept |
| Remote.TakeKeepsNewest | src/components/volunteer/tabs/DashboardTab.tsx:77-78 | a limit on a newest-first list leaves out only rows no newer than the last one kept |
| Remote.ErrorText | src/hooks/updateUserLocation.tsx:42-44 | an Error's message, else the fallback text |
| Remote.UpsertOnPrimaryKey | src/hooks/updateUserLocation.tsx:25-29 | without a conflict column the record is appended, one more row for the user |
| Remote.RepeatedUpsertDuplicates | src/hooks/updateUserLocation.tsx:25-29 | two updates leave two rows for the user |
| Remote.UpsertOnUserId | src/hooks/updateUserLocation.tsx:25-29 | on user id: the user's rows get the record, others unchanged, appended when absent |
| Remote.UpsertKeepsOneRowPerUser | src/hooks/updateUserLocation.tsx:25-29 | one row per user is preserved and the record is stored |
| Remote.SelectSingleLocation | src/hooks/updateUserLocation.tsx:51-55 | a single row iff the user has exactly one |
| Remote.OneRowPerUserCount | src/hooks/updateUserLocation.tsx:51-55 | with one row per user, a present user has exactly one |
| Remote.SetProfileLocation | src/hooks/updateUserLocation.tsx:35-38 | only the location of the row with that id changes |
| UseChat.NewestChatsFirst | src/hooks/useChat.tsx:32 | a permutation in descending creation time |
| UseChat.ChatsOf | src/hooks/useChat.tsx:14-32 | exactly the chats the user sent or received, each as often as in the table, newest first |
| UseChat.OpenSetAppend | src/hooks/useChat.tsx:44-51 | an open adds its channel and a remove drops it |
| UseChat.ChatHook.constructor | src/hooks/useChat.tsx:6-12 | no chats, loading, no error, one channel open, one fetch sent |
| UseChat.ChatHook.FetchDone | src/hooks/useChat.tsx:34-41 | a stale or unmounted run changes nothing; data replaces chats, null gives [], an error is recorded with chats kept; loading ends; an error is never cleared |
| UseChat.ChatHook.OnPush | src/hooks/useChat.tsx:56-61 | a refetch only while mounted and only for the user's received messages |
| UseChat.ChatHook.Unmount | src/hooks/useChat.tsx:67-72 | no channel is left open and nothing else changes |
| UseChat.ChatHook.ChangeUser | src/hooks/useChat.tsx:44-72 | the old channel is removed before the new one opens; the new user's chats are fetched |
| UseChat.AtMostOneChannel | src/hooks/useChat.tsx:44-51 | at most one channel is ever open |
| UserLocation.LocationRecordFor | src/hooks/updateUserLocation.tsx:17-23 | user, type, coordinates, time and active |
| UserLocation.LocationOf | src/hooks/updateUserLocation.tsx:57-61 | a row iff the single-row query found one |
| UserLocation.LocationHook.constructor | src/hooks/updateUserLocation.tsx:11-13 | no location, loading, no error, one fetch sent |
| UserLocation.LocationHook.FetchLocationDone | src/hooks/updateUserLocation.tsx:49-67 | the no-row code gives no location and no error; another error is recorded; loading ends |
| UserLocation.LocationHook.UpdateUserLocation | src/hooks/updateUserLocation.tsx:15-45 | a failed upsert keeps the location, sends no profile write and sets the error; otherwise the location is the stored row before the profile write, whose failure only sets the error |
| UserLocation.RepeatedUpdateHidesLocation | src/hooks/updateUserLocation.tsx:25-59 | as written, a second update makes the fetch find no single row |
| UserLocation.UpdateThenFetchFindsRecord | src/hooks/updateUserLocation.tsx:25-59 | upserting on user id, the fetch finds exactly the stored record |
| Text.Lower | src/components/volunteer/tabs/DashboardTab.tsx:169 | same length, each character ASCII-folded |
| Text.LastPiece | src/components/ChatWindow.tsx:79 | the last piece holds no separator |

## Left out

- The haversine distance (`calculateDistance`) is floating-point trigonometry. It is a function parameter returning whole kilometres.
- `parseFloat` is a function parameter. `Date` parsing and arithmetic and `toLocaleDateString`/`toLocaleTimeString` are elapsed-millisecond integers and text parameters.
- An unparsable date is modelled as the locale text.
- `Math.random` is a parameter: the chatbot draw and the upload file name.
- The HTTP fetch, JSON decoding, and the hosted database's query, insert, update, upsert, RPC, realtime and storage calls are not modelled as services. The model records each request sent, and answers, rows, errors and events are method parameters.
- When an operation starts before an earlier one's answer arrives, only the order in which completions are applied is modelled. Store-side ordering among rows with equal timestamps is not.
- Timers are not modelled: the feed's refresh interval, the countdown interval (each tick is a step) and the simulated delays.
- Browser geolocation and its watchers are not modelled: the DisasterAlerts user location, the map's own location, the SOS position lookup, and `LocationTracker`.
- Leaflet map set-up, layers, zoom, centring and popup HTML are left out. Only each marker's place, radius, colour, opacity and whether it has a popup are modelled.
- The mock-data generators in `MapComponent` are left out. Their output is a parameter of `LoadData`.
- The realtime subscriptions of `ActiveEmergencies` and `MyMissionsTab` are left out. Their cleanup is discarded by the effect, so channels are never removed. Only a change event's refetch is modelled.
- The `ChatWindow` channel lifecycle is not modelled. Its insert event's append is.
- JSX, toasts, `alert()` and icons other than the feed's are left out.
- The chatbot's open/closed state and the form's text inputs are left out. The latter are carried unchanged.
- A user id change in the location hook is not modelled.
- `MyMissionsTab.MyMissions.user` is a constant. The effect re-fetches when the signed-in user changes (src/components/volunteer/tabs/MyMissionsTab.tsx:24-29), and that re-run is not modelled.
- `Text.Lower` folds only ASCII letters. JavaScript's full Unicode case mapping is not modelled.
- Emoji are modelled as a tag (`DisasterAlerts.Icon`) rather than as text.
- The SOS flow is modelled one completion at a time. A cancel that arrives during the volunteer RPC, before the countdown starts, is not modelled.
- `SOSButton.SOSButton.SendSOSAlert` is one step. In the code, `isActivated` becomes true before the insert is awaited (src/components/SOSButton.tsx:63-67). While the countdown is still 0, the "Volunteer Assigned" panel and its Cancel button (src/components/SOSButton.tsx:183-205) are shown during the insert. That window is not modelled.
- `ChatWindow.ChatWindow.SendMessage` is one step. In the code, send is disabled only during uploads (src/components/ChatWindow.tsx:158-182), so a second Enter during the insert sends the same text again. When the insert succeeds, `setNewMessage('')` (src/components/ChatWindow.tsx:69-71) also erases text typed while it was pending. Neither the duplicate insert nor the erased draft is modelled.
- `ActiveEmergencies.ActiveEmergencies.HandleAcceptMission`, `MyMissionsTab.MyMissions.HandleCompleteMission`, `DashboardTab.Dashboard.AcceptMission` and `UserLocation.LocationHook.UpdateUserLocation` are one step each. Events that arrive between their awaits are not modelled.
- `DashboardTab.Dashboard.FetchActiveAlerts` is one step over both its queries (src/components/volunteer/tabs/DashboardTab.tsx:65-97). It sets no state between them, so nothing is shown in between. A realtime insert that triggers a second fetch while one is pending is not modelled, and neither is which of the two answers lands last.
- `DashboardTab.GetTimeAgo` takes elapsed milliseconds as an integer. An unparsable `created_at` would make JavaScript print "NaN days ago"; the column is a database timestamp, so that case is not modelled.
- `VolunteerChatList.tsx` duplicates `VictimChatList`'s precedence logic and is not part of this model.
- Static tabs, pages and type-only files are not part of this model.

## Findings

| source | as written | input that shows it | evidently intended | confidence | as-written member | corrected member |
|---|---|---|---|---|---|---|
| src/hooks/updateUserLocation.tsx:25-29 | `upsert` without `onConflict` targets the primary key; the record has no `id`, so every update inserts a new row | two location updates for one user, then `fetchLocation`: `.single()` sees two rows, returns PGRST116, and the location is shown as null | one row per user, upserted on `user_id`, so the fetch finds the latest record | medium, not executed | Remote.UpsertOnPrimaryKey, Remote.RepeatedUpsertDuplicates, UserLocation.RepeatedUpdateHidesLocation | Remote.UpsertOnUserId, Remote.UpsertKeepsOneRowPerUser, UserLocation.UpdateThenFetchFindsRecord |
| src/components/VictimChatList.tsx:46-50 | reads `chat.sender`, but the hook's query names the joined profile `sender_profile` (src/hooks/useChat.tsx:18-24) and `chat_messages` has no `sender` column (src/integrations/supabase/types.ts:12-21), so the optional `sender` declared at src/integrations/supabase/types.ts:352-355 is never filled | any chat whose sender has a profile with a full name is shown as 'Unknown' | show the joined sender profile's full name | medium, not executed | VictimChatList.SenderAsFetched, VictimChatList.SenderAlwaysUnknown, VictimChatList.ListedSendersUnknown | VictimChatList.SenderOf, VictimChatList.SenderShowsProfileName, VictimChatList.ListedSenderNamed |
