/**
 * The disaster-alert feed: classification of a public alert into an icon and a severity
 * tier, relative-time labels, the transform of raw API records, the 200 km radius filter,
 * the distance sort, and the feed state that a fetch replaces (or, on failure, swaps for a
 * single synthetic entry).
 *
 * Distances are whole kilometres computed by a great-circle formula that is not part of
 * this model; it enters as the function `distance` of an `Environment`, as do number
 * parsing, the clock and locale date formatting.
 */
module DisasterAlerts {
  import opened Wrappers
  import opened Text
  import opened Seqs
  import Remote

  /** The icon shown beside an alert (the source uses one emoji per tag). */
  datatype Icon = Earthquake | Flood | FireHeat | Storm | Volcano | Drought | Landslide | Tornado | Snow | Rain | Warning | Plug

  /** The text the icon rules look at: the lower-cased type, or `''` when the type is absent. */
  function FoldedType(disasterType: Option<string>): string {
    if disasterType.Some? then Lower(disasterType.value) else ""
  }

  /** `getDisasterIcon`: ordered substring rules over the lower-cased type; the first that matches decides. */
  function GetDisasterIcon(disasterType: Option<string>): (icon: Icon)
    ensures icon != Plug
  {
    var t := FoldedType(disasterType);
    if Contains(t, "earthquake") then Earthquake
    else if Contains(t, "flood") then Flood
    else if Contains(t, "fire") || Contains(t, "heat") then FireHeat
    else if Contains(t, "storm") || Contains(t, "cyclone") || Contains(t, "wind") || Contains(t, "thunder") then Storm
    else if Contains(t, "volcano") then Volcano
    else if Contains(t, "drought") then Drought
    else if Contains(t, "landslide") then Landslide
    else if Contains(t, "tornado") then Tornado
    else if Contains(t, "snow") || Contains(t, "avalanche") || Contains(t, "cold") then Snow
    else if Contains(t, "rain") then Rain
    else Warning
  }

  /** The icon rules as a table: keywords and the icon they select, in priority order. */
  const IconRules: seq<(seq<string>, Icon)> := [
    (["earthquake"], Earthquake),
    (["flood"], Flood),
    (["fire", "heat"], FireHeat),
    (["storm", "cyclone", "wind", "thunder"], Storm),
    (["volcano"], Volcano),
    (["drought"], Drought),
    (["landslide"], Landslide),
    (["tornado"], Tornado),
    (["snow", "avalanche", "cold"], Snow),
    (["rain"], Rain)
  ]

  predicate AnyKeyword(keys: seq<string>, text: string) {
    keys != [] && (Contains(text, keys[0]) || AnyKeyword(keys[1..], text))
  }

  /** Reference reading of the rule table: the icon of the first rule from index `i` on with a keyword in `text`. */
  function FirstMatchFrom(rules: seq<(seq<string>, Icon)>, i: nat, text: string): Icon
    decreases |rules| - i
  {
    if i >= |rules| then Warning
    else if AnyKeyword(rules[i].0, text) then rules[i].1
    else FirstMatchFrom(rules, i + 1, text)
  }

  /** First rule wins: when rule `i` matches and no earlier rule does, rule `i` decides. */
  lemma {:induction false} FirstMatchWins(rules: seq<(seq<string>, Icon)>, from: nat, i: nat, text: string)
    requires from <= i < |rules| && AnyKeyword(rules[i].0, text)
    requires forall j :: from <= j < i ==> !AnyKeyword(rules[j].0, text)
    ensures FirstMatchFrom(rules, from, text) == rules[i].1
    decreases i - from
  {
    if from < i {
      FirstMatchWins(rules, from + 1, i, text);
    }
  }

  /** A text no rule matches gets the generic warning icon. */
  lemma {:induction false} NoMatchIsWarning(rules: seq<(seq<string>, Icon)>, from: nat, text: string)
    requires forall j :: from <= j < |rules| ==> !AnyKeyword(rules[j].0, text)
    ensures FirstMatchFrom(rules, from, text) == Warning
    decreases |rules| - from
  {
    if from < |rules| {
      NoMatchIsWarning(rules, from + 1, text);
    }
  }

  /** One step of the reference reading: rule `i` decides if it matches, otherwise the rules after it. */
  lemma FirstMatchStep(i: nat, t: string)
    requires i < |IconRules|
    ensures FirstMatchFrom(IconRules, i, t) ==
      if AnyKeyword(IconRules[i].0, t) then IconRules[i].1 else FirstMatchFrom(IconRules, i + 1, t)
  {
  }

  lemma AnyOfOne(a: string, t: string)
    ensures AnyKeyword([a], t) == Contains(t, a)
  {
    assert [a][1..] == [];
  }

  lemma AnyOfTwo(a: string, b: string, t: string)
    ensures AnyKeyword([a, b], t) == (Contains(t, a) || Contains(t, b))
  {
    assert [a, b][1..] == [b];
    AnyOfOne(b, t);
  }

  lemma AnyOfThree(a: string, b: string, c: string, t: string)
    ensures AnyKeyword([a, b, c], t) == (Contains(t, a) || Contains(t, b) || Contains(t, c))
  {
    assert [a, b, c][1..] == [b, c];
    AnyOfTwo(b, c, t);
  }

  /** The if-chain of `getDisasterIcon` is exactly the first matching rule of the table. */
  lemma GetDisasterIconIsFirstMatch(disasterType: Option<string>)
    ensures GetDisasterIcon(disasterType) == FirstMatchFrom(IconRules, 0, FoldedType(disasterType))
  {
    var t := FoldedType(disasterType);
    assert FirstMatchFrom(IconRules, 10, t) == Warning;
    FirstMatchStep(9, t); AnyOfOne("rain", t);
    FirstMatchStep(8, t); AnyOfThree("snow", "avalanche", "cold", t);
    FirstMatchStep(7, t); AnyOfOne("tornado", t);
    FirstMatchStep(6, t); AnyOfOne("landslide", t);
    FirstMatchStep(5, t); AnyOfOne("drought", t);
    FirstMatchStep(4, t); AnyOfOne("volcano", t);
    FirstMatchStep(3, t); AnyOfOne("storm", t);
    assert ["storm", "cyclone", "wind", "thunder"][1..] == ["cyclone", "wind", "thunder"];
    AnyOfThree("cyclone", "wind", "thunder", t);
    FirstMatchStep(2, t); AnyOfTwo("fire", "heat", t);
    FirstMatchStep(1, t); AnyOfOne("flood", t);
    FirstMatchStep(0, t); AnyOfOne("earthquake", t);
  }

  /** Absent type: the text is `''`, which no rule matches. */
  lemma MissingTypeIsWarning()
    ensures GetDisasterIcon(None) == Warning
  {
  }

  /** Matching ignores letter case: a type and its lower-cased form get the same icon. */
  lemma IconIgnoresCase(s: string)
    ensures GetDisasterIcon(Some(s)) == GetDisasterIcon(Some(Lower(s)))
  {
    LowerIdempotent(s);
  }

  /** "earthquake" anywhere in the type beats every later rule. */
  lemma EarthquakeBeatsAll(s: string)
    requires Contains(Lower(s), "earthquake")
    ensures GetDisasterIcon(Some(s)) == Earthquake
  {
  }

  /** A type mentioning both "flood" and "rain" (and no earthquake) gets the flood icon. */
  lemma FloodBeatsRain(s: string)
    requires Contains(Lower(s), "flood") && Contains(Lower(s), "rain") && !Contains(Lower(s), "earthquake")
    ensures GetDisasterIcon(Some(s)) == Flood
  {
  }

  datatype Severity = High | Medium | Low

  /**
   * `getSeverity`: the colour tag decides when it is red, orange or yellow; otherwise a level
   * text containing "likely" (in any case) gives medium and everything else low.
   */
  function GetSeverity(severityLevel: Option<string>, severityColor: Option<string>): (r: Severity)
    ensures severityColor == Some("red") ==> r == High
    ensures severityColor == Some("orange") ==> r == Medium
    ensures severityColor == Some("yellow") ==> r == Low
    ensures r == High ==> severityColor == Some("red")
    ensures severityColor !in {Some("red"), Some("orange"), Some("yellow")} ==>
      (r == Medium <==> severityLevel.Some? && Contains(Lower(severityLevel.value), "likely"))
  {
    if severityColor == Some("red") then High
    else if severityColor == Some("orange") then Medium
    else if severityColor == Some("yellow") then Low
    else if severityLevel.Some? && Contains(Lower(severityLevel.value), "likely") then Medium
    else Low
  }

  /** "<n> <unit> ago", with the plural `s` only when `n` is more than one. */
  function CountedAgo(n: nat, unit: string): string {
    NatToString(n) + " " + unit + (if n > 1 then "s" else "") + " ago"
  }

  const HourMs: int := 60 * 60 * 1000

  /**
   * `formatDate`. `elapsedMs` is the time since the alert's start in whole milliseconds, or
   * `None` when the start time does not parse; `localeDate` is what `toLocaleDateString`
   * prints for it. Elapsed hours are floored (a future start gives negative hours).
   */
  function FormatDate(start: Option<string>, elapsedMs: Option<int>, localeDate: string): (r: string)
    ensures !Truthy(start) ==> r == "Unknown time"
    ensures Truthy(start) && elapsedMs.None? ==> r == localeDate
    ensures Truthy(start) && elapsedMs.Some? ==>
      var h := elapsedMs.value / HourMs;
      && (h < 1 ==> r == "Just now")
      && (1 <= h < 24 ==> r == CountedAgo(h, "hour"))
      && (24 <= h && h / 24 < 7 ==> r == CountedAgo(h / 24, "day"))
      && (h / 24 >= 7 ==> r == localeDate)
  {
    if !Truthy(start) then "Unknown time"
    else if elapsedMs.None? then localeDate
    else
      var hours := elapsedMs.value / HourMs;
      var days := hours / 24;
      if hours < 1 then "Just now"
      else if hours < 24 then CountedAgo(hours, "hour")
      else if days < 7 then CountedAgo(days, "day")
      else localeDate
  }

  /**
   * A relative-time label starts with the count it was built from (which reads back as that
   * count), then names the unit, which is plural exactly when the count exceeds one.
   */
  lemma CountedAgoReadBack(n: nat, unit: string)
    ensures var r := CountedAgo(n, unit);
            var k := |NatToString(n)|;
            && StartsWith(r, NatToString(n)) && ParseDigits(NatToString(n)) == n
            && r[k + 1..k + 1 + |unit|] == unit
            && k + 1 + |unit| < |r| && (r[k + 1 + |unit|] == 's' <==> n > 1)
  {
    NatToStringRoundTrip(n);
    var d := NatToString(n);
    var r := CountedAgo(n, unit);
    var tail := (if n > 1 then "s" else "") + " ago";
    assert r == d + (" " + unit + tail);
    assert r[..|d|] == d;
    assert r[|d| + 1..|d| + 1 + |unit|] == unit;
    assert r[|d| + 1 + |unit|] == tail[0];
  }

  /** The raw record of the public alert API; every field may be missing. */
  datatype RawAlert = RawAlert(
    identifier: Option<string>,
    disasterType: Option<string>,
    severityLevel: Option<string>,
    severityColor: Option<string>,
    areaDescription: Option<string>,
    warningMessage: Option<string>,
    effectiveStartTime: Option<string>,
    affectedPopulation: Option<string>,
    alertSource: Option<string>,
    centroid: Option<string>)

  /** A parsed coordinate part: `None` stands for `null` (no centroid) or `NaN` (no number). */
  datatype Coordinates = Coordinates(lat: Option<real>, lng: Option<real>)

  /** An alert as the feed renders it. Optional fields are the ones the fallback entry leaves undefined. */
  datatype FeedAlert = FeedAlert(
    id: string,
    disasterType: string,
    severity: Severity,
    location: string,
    description: string,
    timestamp: string,
    affected: string,
    icon: Icon,
    severityColor: Option<string>,
    severityLevel: Option<string>,
    source: string,
    coordinates: Option<Coordinates>,
    distance: Option<nat>)

  /**
   * What the transform needs from outside: the caller's position, `parseFloat`, the rounded
   * great-circle distance in km, the elapsed time since a start-time string (None when
   * `Date` cannot parse it), locale date formatting, and the random id of the i-th record.
   */
  datatype Environment = Environment(
    userLocation: Option<Remote.Coord>,
    parseNumber: string -> Option<real>,
    distance: (Remote.Coord, Remote.Coord) -> nat,
    elapsedSince: string -> Option<int>,
    localeDate: string -> string,
    randomId: nat -> string)

  /** The longitude piece (before the first comma) and latitude piece (after it) of a centroid. */
  function CentroidParts(centroid: string): (r: (string, Option<string>))
    ensures r.0 == Split(centroid, ',')[0]
    ensures r.1.Some? <==> ',' in centroid
  {
    var pieces := Split(centroid, ',');
    SplitJoin(centroid, ',');
    (pieces[0], if |pieces| > 1 then Some(pieces[1]) else None)
  }

  /** Parsed centroid coordinates; absent when the record has no (or an empty) centroid. */
  function ParseCentroid(raw: RawAlert, env: Environment): Option<Coordinates> {
    if !Truthy(raw.centroid) then None
    else
      var parts := CentroidParts(raw.centroid.value);
      var lat := if parts.1.Some? then env.parseNumber(parts.1.value) else None;
      Some(Coordinates(lat, env.parseNumber(parts.0)))
  }

  /** The transform of one API record (`data.map(alert => ...)`), record `index` in the response. */
  function Transform(raw: RawAlert, index: nat, env: Environment): (a: FeedAlert)
    ensures a.distance.Some? <==>
      env.userLocation.Some? && Truthy(raw.centroid)
      && ParseCentroid(raw, env).value.lat.Some? && ParseCentroid(raw, env).value.lng.Some?
    ensures a.distance.Some? ==>
      var c := ParseCentroid(raw, env).value;
      a.distance.value == env.distance(env.userLocation.value, Remote.Coord(c.lat.value, c.lng.value))
    ensures a.disasterType == OrElse(raw.disasterType, "Unknown Disaster")
    ensures a.location == OrElse(raw.areaDescription, "Location not specified")
    ensures a.description == OrElse(raw.warningMessage, OrElse(raw.disasterType, "No description available"))
    ensures a.source == OrElse(raw.alertSource, "NDMA")
    ensures a.icon == GetDisasterIcon(raw.disasterType) && a.severity == GetSeverity(raw.severityLevel, raw.severityColor)
    ensures a.id == OrElse(raw.identifier, env.randomId(index))
    ensures a.timestamp == FormatDate(raw.effectiveStartTime,
      if Truthy(raw.effectiveStartTime) then env.elapsedSince(raw.effectiveStartTime.value) else None,
      if Truthy(raw.effectiveStartTime) then env.localeDate(raw.effectiveStartTime.value) else "")
    ensures a.affected == OrElse(raw.affectedPopulation, "Not specified")
    ensures a.severityColor == raw.severityColor && a.severityLevel == raw.severityLevel
    ensures a.coordinates.Some?
    ensures Truthy(raw.centroid) ==> a.coordinates == ParseCentroid(raw, env)
    ensures !Truthy(raw.centroid) ==> a.coordinates == Some(Coordinates(None, None))
  {
    var coords := ParseCentroid(raw, env);
    var distance :=
      if env.userLocation.Some? && coords.Some? && coords.value.lat.Some? && coords.value.lng.Some? then
        Some(env.distance(env.userLocation.value, Remote.Coord(coords.value.lat.value, coords.value.lng.value)))
      else None;
    var start := raw.effectiveStartTime;
    FeedAlert(
      OrElse(raw.identifier, env.randomId(index)),
      OrElse(raw.disasterType, "Unknown Disaster"),
      GetSeverity(raw.severityLevel, raw.severityColor),
      OrElse(raw.areaDescription, "Location not specified"),
      OrElse(raw.warningMessage, OrElse(raw.disasterType, "No description available")),
      FormatDate(start, if Truthy(start) then env.elapsedSince(start.value) else None,
                 if Truthy(start) then env.localeDate(start.value) else ""),
      OrElse(raw.affectedPopulation, "Not specified"),
      GetDisasterIcon(raw.disasterType),
      raw.severityColor,
      raw.severityLevel,
      OrElse(raw.alertSource, "NDMA"),
      Some(coords.GetOr(Coordinates(None, None))),
      distance)
  }

  /** The centroid is read longitude first: "88.36,22.57" is latitude 22.57, longitude 88.36. */
  lemma CentroidIsLongitudeFirst(lngText: string, latText: string, raw: RawAlert, env: Environment)
    requires ',' !in lngText && ',' !in latText
    requires raw.centroid == Some(lngText + "," + latText)
    ensures ParseCentroid(raw, env) == Some(Coordinates(env.parseNumber(latText), env.parseNumber(lngText)))
  {
    var c := lngText + "," + latText;
    var pieces := Split(c, ',');
    SplitJoin(c, ',');
    SplitOfPair(lngText, latText);
  }

  /** Splitting "a,b" on ',' gives ["a", "b"] when neither part holds a comma. */
  lemma {:induction false} SplitOfPair(a: string, b: string)
    requires ',' !in a && ',' !in b
    ensures Split(a + "," + b, ',') == [a, b]
    decreases |a|
  {
    var s := a + "," + b;
    if a == [] {
      assert s[0] == ',' && s[1..] == b;
      SplitWithoutSeparator(b, ',');
    } else {
      SplitOfPair(a[1..], b);
      assert s[0] == a[0] && s[1..] == a[1..] + "," + b;
      assert a == [a[0]] + a[1..];
    }
  }

  lemma {:induction false} SplitWithoutSeparator(s: string, sep: char)
    requires sep !in s
    ensures Split(s, sep) == [s]
  {
    if s != [] {
      assert sep !in s[1..] && s[0] != sep;
      SplitWithoutSeparator(s[1..], sep);
      assert s == [s[0]] + s[1..];
    }
  }

  function TransformAll(raws: seq<RawAlert>, env: Environment): (r: seq<FeedAlert>)
    ensures |r| == |raws|
    ensures forall i :: 0 <= i < |raws| ==> r[i] == Transform(raws[i], i, env)
  {
    seq(|raws|, i requires 0 <= i < |raws| => Transform(raws[i], i, env))
  }

  const RadiusKm: nat := 200

  predicate Nearby(a: FeedAlert) {
    a.distance.Some? && a.distance.value <= RadiusKm
  }

  /** The radius filter: with a user location keep the alerts known to be within 200 km; without one keep all. */
  function FilterByRadius(alerts: seq<FeedAlert>, userLocation: Option<Remote.Coord>): (r: seq<FeedAlert>)
    ensures userLocation.None? ==> r == alerts
    ensures userLocation.Some? ==> forall i :: 0 <= i < |r| ==> r[i] in alerts && Nearby(r[i])
    ensures userLocation.Some? ==> forall i :: 0 <= i < |alerts| && Nearby(alerts[i]) ==> alerts[i] in r
    ensures userLocation.Some? ==> forall a :: multiset(r)[a] == if Nearby(a) then multiset(alerts)[a] else 0
  {
    FilterCounts(alerts, Nearby);
    if userLocation.Some? then Filter(alerts, Nearby) else alerts
  }

  function DistanceRank(a: FeedAlert): Rank {
    if a.distance.Some? then Known(a.distance.value) else Unknown
  }

  /** Closest first; alerts without a distance go last. */
  function SortByDistance(alerts: seq<FeedAlert>): (r: seq<FeedAlert>)
    ensures multiset(r) == multiset(alerts)
    ensures forall i, j :: 0 <= i < j < |r| && r[j].distance.Some? ==> r[i].distance.Some? && r[i].distance.value <= r[j].distance.value
  {
    var s := SortBy(alerts, DistanceRank);
    assert forall i, j :: 0 <= i < j < |s| ==> RankLe(DistanceRank(s[i]), DistanceRank(s[j]));
    s
  }

  /** The whole pipeline applied to a successful response. */
  function Pipeline(raws: seq<RawAlert>, env: Environment): seq<FeedAlert> {
    SortByDistance(FilterByRadius(TransformAll(raws, env), env.userLocation))
  }

  /** With a location: every shown alert is within 200 km, every such alert is shown, nearest first. */
  lemma PipelineWithLocation(raws: seq<RawAlert>, env: Environment)
    requires env.userLocation.Some?
    ensures var r := Pipeline(raws, env);
      && (forall i :: 0 <= i < |r| ==> Nearby(r[i]))
      && (forall i :: 0 <= i < |raws| && Nearby(Transform(raws[i], i, env)) ==> Transform(raws[i], i, env) in r)
      && (forall i, j :: 0 <= i < j < |r| ==> r[i].distance.value <= r[j].distance.value)
      && (forall a :: multiset(r)[a] == if Nearby(a) then multiset(TransformAll(raws, env))[a] else 0)
  {
    var all := TransformAll(raws, env);
    var kept := FilterByRadius(all, env.userLocation);
    var r := SortByDistance(kept);
    assert multiset(r) == multiset(kept);
    forall i | 0 <= i < |r| ensures Nearby(r[i]) {
      assert r[i] in multiset(kept);
    }
    forall i | 0 <= i < |raws| && Nearby(Transform(raws[i], i, env)) ensures Transform(raws[i], i, env) in r {
      assert all[i] in kept;
      assert all[i] in multiset(r);
    }
  }

  /** Without a location no alert has a distance, so the response is shown whole, in response order. */
  lemma PipelineWithoutLocation(raws: seq<RawAlert>, env: Environment)
    requires env.userLocation.None?
    ensures Pipeline(raws, env) == TransformAll(raws, env)
  {
    var all := TransformAll(raws, env);
    assert forall i :: 0 <= i < |all| ==> DistanceRank(all[i]) == Unknown;
    SortByTiedIsIdentity(all, DistanceRank);
  }

  /** The synthetic entry shown when the feed cannot be fetched. */
  const Fallback: FeedAlert := FeedAlert(
    "fallback-1", "API Connection Error", Medium, "System Status",
    "Unable to fetch live disaster data. Please check your connection or try again later.",
    "Just now", "N/A", Plug, None, None, "System", None, None)

  /** How the request for the feed ended. */
  datatype Response =
    | Records(records: seq<RawAlert>)    // HTTP ok and a JSON array
    | HttpStatus(status: nat)            // a response whose `ok` is false
    | Thrown(message: string)            // the fetch or the JSON decoding threw

  /** The component's state for the feed. */
  class AlertFeed {
    var alerts: seq<FeedAlert>
    var loading: bool
    var error: Option<string>
    var lastUpdated: Option<string>

    constructor ()
      ensures alerts == [] && loading && error.None? && lastUpdated.None?
    {
      alerts, loading, error, lastUpdated := [], true, None, None;
    }

    /** The Refresh button is disabled, and its icon spins, while a fetch is loading. */
    predicate RefreshDisabled()
      reads this
    {
      loading
    }

    /** The full-page loading view replaces the feed only while loading with nothing to show. */
    predicate ShowsLoadingScreen()
      reads this
    {
      loading && alerts == []
    }

    /**
     * `fetchDisasterData` up to its request: loading starts and the error is cleared; the
     * alerts shown and the update time stay until the answer arrives.
     */
    method StartFetch()
      modifies this
      ensures loading && error.None? && RefreshDisabled()
      ensures alerts == old(alerts) && lastUpdated == old(lastUpdated)
      ensures ShowsLoadingScreen() <==> old(alerts) == []
    {
      loading := true;
      error := None;
    }

    /**
     * `fetchDisasterData` once the response is in: on records, the transformed, filtered and
     * sorted list and a new update time; on any failure, exactly the fallback entry and the
     * error message. Loading is off afterwards either way, so Refresh is enabled again.
     */
    method FinishFetch(response: Response, env: Environment, clockText: string)
      modifies this
      ensures !loading && !RefreshDisabled()
      ensures response.Records? ==>
        alerts == Pipeline(response.records, env) && error == old(error) && lastUpdated == Some(clockText)
      ensures response.HttpStatus? ==>
        alerts == [Fallback] && error == Some("HTTP error! status: " + NatToString(response.status))
        && lastUpdated == old(lastUpdated)
      ensures response.Thrown? ==>
        alerts == [Fallback] && error == Some(response.message) && lastUpdated == old(lastUpdated)
    {
      match response {
        case Records(records) =>
          alerts := Pipeline(records, env);
          lastUpdated := Some(clockText);
        case HttpStatus(status) =>
          error := Some("HTTP error! status: " + NatToString(status));
          alerts := [Fallback];
        case Thrown(message) =>
          error := Some(message);
          alerts := [Fallback];
      }
      loading := false;
    }
  }

  /** A fetch that succeeds after starting: no error shown, and the pipeline's alerts. */
  method RefreshSucceeds(feed: AlertFeed, records: seq<RawAlert>, env: Environment, clockText: string)
    modifies feed
    ensures feed.error.None? && !feed.loading
    ensures feed.alerts == Pipeline(records, env) && feed.lastUpdated == Some(clockText)
  {
    feed.StartFetch();
    feed.FinishFetch(Records(records), env, clockText);
  }

  /**
   * The connection-error entry can never come out of a successful fetch: no transformed
   * alert carries its plug icon, so a feed holding it is always a failed one.
   */
  lemma FallbackNeverLive(raws: seq<RawAlert>, env: Environment)
    ensures Fallback !in Pipeline(raws, env)
    ensures forall a :: a in Pipeline(raws, env) ==> a.icon != Plug
  {
    forall a | a in Pipeline(raws, env) ensures a.icon != Plug {
      var i := ShownIsTransformed(raws, env, a);
    }
  }

  /** Every alert the pipeline shows is the transform of one record of the response. */
  lemma ShownIsTransformed(raws: seq<RawAlert>, env: Environment, a: FeedAlert) returns (i: nat)
    requires a in Pipeline(raws, env)
    ensures i < |raws| && a == Transform(raws[i], i, env)
  {
    var all := TransformAll(raws, env);
    var kept := FilterByRadius(all, env.userLocation);
    assert Pipeline(raws, env) == SortByDistance(kept);
    assert a in multiset(kept);
    var k :| 0 <= k < |kept| && kept[k] == a;
    assert a in all;
    i :| 0 <= i < |all| && all[i] == a;
  }
}
