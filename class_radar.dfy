/**
 * The misconception heat map of frontend/components/enhanced-class-radar.tsx:
 * the component state the radar fetch updates, the two-selector filter, the
 * topic list of the topic selector and the colour classes of a card.
 */
module EnhancedClassRadar {
  import opened Wrappers
  import opened Strings
  import opened Seqs

  /** One misconception cell; the score range is present only when the server sends it. */
  datatype RadarItem = RadarItem(
    topic: string,
    concept: string,
    uncertainty: string,
    students: int,
    avgScore: real,
    minScore: Option<real>,
    maxScore: Option<real>)

  /** The value of both selectors that lets everything through. */
  const All := "all"

  // ---------------------------------------------------------------------
  // Filtering and the topic selector

  predicate TopicMatch(item: RadarItem, filterTopic: string) {
    filterTopic == All || item.topic == filterTopic
  }

  predicate UncertaintyMatch(item: RadarItem, filterUncertainty: string) {
    filterUncertainty == All || item.uncertainty == filterUncertainty
  }

  /** `filteredData`: the items matching both selectors, in their original order. */
  function FilteredData(items: seq<RadarItem>, filterTopic: string, filterUncertainty: string): (r: seq<RadarItem>)
    ensures IsSubsequence(r, items)
    ensures forall i :: 0 <= i < |r| ==> r[i] in items && TopicMatch(r[i], filterTopic) && UncertaintyMatch(r[i], filterUncertainty)
    ensures forall i :: 0 <= i < |items| && TopicMatch(items[i], filterTopic) && UncertaintyMatch(items[i], filterUncertainty) ==> items[i] in r
    ensures forall item :: multiset(r)[item] == if TopicMatch(item, filterTopic) && UncertaintyMatch(item, filterUncertainty) then multiset(items)[item] else 0
  {
    var p := (item: RadarItem) => TopicMatch(item, filterTopic) && UncertaintyMatch(item, filterUncertainty);
    FilterIsSubsequence(items, p);
    FilterMultiplicity(items, p);
    Filter(items, p)
  }

  /** With both selectors on "all" every item is shown. */
  lemma NoFilterShowsAll(items: seq<RadarItem>)
    ensures FilteredData(items, All, All) == items
  {
    FilterKeepsAll(items, (item: RadarItem) => TopicMatch(item, All) && UncertaintyMatch(item, All));
  }

  /** Choosing a topic shows a subsequence of what "all" topics shows, for the same uncertainty. */
  lemma TopicFilterNarrows(items: seq<RadarItem>, filterTopic: string, filterUncertainty: string)
    ensures IsSubsequence(FilteredData(items, filterTopic, filterUncertainty), FilteredData(items, All, filterUncertainty))
  {
    FilterMonotone(items,
      (item: RadarItem) => TopicMatch(item, filterTopic) && UncertaintyMatch(item, filterUncertainty),
      (item: RadarItem) => TopicMatch(item, All) && UncertaintyMatch(item, filterUncertainty));
  }

  /** `radarData.map(item => item.topic)`. */
  function Topics(items: seq<RadarItem>): (r: seq<string>)
    ensures |r| == |items|
    ensures forall i :: 0 <= i < |items| ==> r[i] == items[i].topic
  {
    seq(|items|, i requires 0 <= i < |items| => items[i].topic)
  }

  /** `uniqueTopics`: every topic of the data exactly once, and nothing else. */
  function UniqueTopics(items: seq<RadarItem>): (r: seq<string>)
    ensures Distinct(r)
    ensures forall i :: 0 <= i < |items| ==> items[i].topic in r
    ensures forall k :: 0 <= k < |r| ==> exists i :: 0 <= i < |items| && items[i].topic == r[k]
  {
    var ts := Topics(items);
    var r := Dedup(ts);
    assert forall k :: 0 <= k < |r| ==> r[k] in ts;
    r
  }

  /** The topics are listed in the order in which they first occur in the data. */
  lemma UniqueTopicsInFirstOccurrenceOrder(items: seq<RadarItem>, i: nat, j: nat)
    requires i < j < |UniqueTopics(items)|
    ensures FirstIndex(Topics(items), UniqueTopics(items)[i]) < FirstIndex(Topics(items), UniqueTopics(items)[j])
  {
    DedupFirstOccurrenceOrder(Topics(items), i, j);
  }

  /** Every topic the selector offers shows at least one card when the uncertainty selector is on "all". */
  lemma OfferedTopicsAreNonEmpty(items: seq<RadarItem>, topic: string)
    requires topic in UniqueTopics(items)
    ensures FilteredData(items, topic, All) != []
  {
    var r := UniqueTopics(items);
    var k :| 0 <= k < |r| && r[k] == topic;
    var i :| 0 <= i < |items| && items[i].topic == topic;
    assert items[i] in FilteredData(items, topic, All);
  }

  // ---------------------------------------------------------------------
  // Colour classes

  const GreenText := "text-green-600"
  const YellowText := "text-yellow-600"
  const RedText := "text-red-600"

  /** `getScoreColor`: green from 80 up, yellow from 60 up to 80, red below 60. */
  function ScoreColor(score: real): (r: string)
    ensures r == GreenText <==> score >= 80.0
    ensures r == YellowText <==> 60.0 <= score < 80.0
    ensures r == RedText <==> score < 60.0
  {
    if score >= 80.0 then GreenText
    else if score >= 60.0 then YellowText
    else RedText
  }

  /** The colour of the average-score progress bar. */
  function ProgressBarColor(score: real): (r: string)
    ensures r in {"bg-green-500", "bg-yellow-500", "bg-red-500"}
  {
    if score >= 80.0 then "bg-green-500" else if score >= 60.0 then "bg-yellow-500" else "bg-red-500"
  }

  /** The progress bar and the score text are banded at the same thresholds. */
  lemma BarMatchesScoreColor(score: real)
    ensures ProgressBarColor(score) == "bg-green-500" <==> ScoreColor(score) == GreenText
    ensures ProgressBarColor(score) == "bg-yellow-500" <==> ScoreColor(score) == YellowText
    ensures ProgressBarColor(score) == "bg-red-500" <==> ScoreColor(score) == RedText
  {
  }

  /** A higher score never gets a worse colour. */
  lemma ScoreColorMonotone(lower: real, higher: real)
    requires lower <= higher
    ensures ScoreColor(lower) == GreenText ==> ScoreColor(higher) == GreenText
    ensures ScoreColor(lower) == YellowText ==> ScoreColor(higher) != RedText
  {
  }

  /** A card halo in one colour: its border, shadow and background classes (so `HaloClasses("red")` is `border-red-500 shadow-red-200 bg-red-50`). */
  function HaloClasses(colour: string): (r: string)
    ensures |r| == 3 * |colour| + 30
  {
    "border-" + colour + "-500 shadow-" + colour + "-200 bg-" + colour + "-50"
  }

  /** `getUncertaintyClass`: the halo of each of the three levels; any other value gets no class. */
  function UncertaintyClass(uncertainty: string): (r: string)
    ensures r != "" <==> uncertainty in {"high", "medium", "low"}
  {
    match uncertainty
    case "high" => HaloClasses("red")
    case "medium" => HaloClasses("yellow")
    case "low" => HaloClasses("green")
    case _ => ""
  }

  /** The colour of each level's swatch in the legend: red for high, yellow for medium, green for low. */
  function LegendColour(level: string): (r: Option<string>)
    ensures r.Some? <==> level in {"high", "medium", "low"}
  {
    match level
    case "high" => Some("red")
    case "medium" => Some("yellow")
    case "low" => Some("green")
    case _ => None
  }

  /** Each level's halo is drawn in the colour the legend gives that level; a level the legend does not list gets no halo. */
  lemma UncertaintyClassFollowsLegend(level: string)
    ensures LegendColour(level).Some? ==> UncertaintyClass(level) == HaloClasses(LegendColour(level).value)
    ensures LegendColour(level).None? ==> UncertaintyClass(level) == ""
  {
  }

  /** Distinct levels get distinct halos. */
  lemma UncertaintyClassInjective(u: string, v: string)
    requires UncertaintyClass(u) != ""
    ensures UncertaintyClass(u) == UncertaintyClass(v) <==> u == v
  {
  }

  // ---------------------------------------------------------------------
  // Fetching

  /** The demonstration data shown when the fetch fails. */
  const FallbackData: seq<RadarItem> := [
    RadarItem("Algebra", "Solving Linear Equations", "high", 15, 65.2, None, None),
    RadarItem("Geometry", "Area of Triangles", "medium", 8, 78.5, None, None),
    RadarItem("Calculus", "Derivatives", "low", 3, 92.1, None, None),
    RadarItem("Algebra", "Factoring Quadratics", "high", 12, 58.7, None, None),
    RadarItem("Statistics", "Probability", "medium", 7, 71.3, None, None),
    RadarItem("Geometry", "Pythagorean Theorem", "low", 2, 89.0, None, None)
  ]

  /** The role shown with the fallback data. */
  const FallbackRole := "teacher"

  /** The token the component sends; it never changes. */
  const ComponentToken := "teacher_123"

  /** A value a `catch` clause receives: an `Error` with its message, or anything else. */
  datatype Thrown = ErrorObject(message: string) | NonErrorValue

  /** What `response.json()` yields: the decoded body, or the value it rejects with. */
  datatype Body = Parsed(data: seq<RadarItem>, userRole: string) | Unparsable(reason: Thrown)

  datatype Response = Response(status: nat, statusText: string, body: Body)

  /** How the request ended: with a response, or with a rejection before any response. */
  datatype FetchOutcome = Responded(response: Response) | Rejected(reason: Thrown)

  /** `response.ok`: the status is in the range 200-299. */
  predicate Ok(status: nat) {
    200 <= status <= 299
  }

  /** The message of the error thrown for a response that is not ok: "HTTP", the status, a colon and the status text. */
  function HttpErrorMessage(status: nat, statusText: string): (m: string)
    ensures |m| >= 8 + |statusText| && m[..5] == "HTTP "
    ensures var digits := m[5..|m| - |statusText| - 2];
      |digits| > 0 && AllDigits(digits) && DigitsValue(digits) == status && (digits[0] == '0' ==> digits == "0")
    ensures m[|m| - |statusText| - 2..] == ": " + statusText
  {
    var code := NatToString(status);
    var m := "HTTP " + code + ": " + statusText;
    assert m[5..|m| - |statusText| - 2] == code;
    m
  }

  /** What the `catch` clause shows: the message of an `Error`, otherwise a fixed text. */
  function CaughtMessage(t: Thrown): (m: string)
    ensures t.ErrorObject? ==> m == t.message
    ensures t.NonErrorValue? ==> m == "Failed to fetch data"
  {
    match t
    case ErrorObject(message) => message
    case NonErrorValue => "Failed to fetch data"
  }

  /** The value, if any, that reaches the `catch` clause for a given outcome. */
  function CaughtValue(outcome: FetchOutcome): (t: Option<Thrown>)
    ensures t == None <==> outcome.Responded? && Ok(outcome.response.status) && outcome.response.body.Parsed?
    ensures outcome.Rejected? ==> t == Some(outcome.reason)
    ensures outcome.Responded? && !Ok(outcome.response.status) ==>
      t == Some(ErrorObject(HttpErrorMessage(outcome.response.status, outcome.response.statusText)))
    ensures outcome.Responded? && Ok(outcome.response.status) && outcome.response.body.Unparsable? ==>
      t == Some(outcome.response.body.reason)
  {
    match outcome
    case Rejected(reason) => Some(reason)
    case Responded(response) =>
      if !Ok(response.status) then Some(ErrorObject(HttpErrorMessage(response.status, response.statusText)))
      else if response.body.Unparsable? then Some(response.body.reason)
      else None
  }

  /** The state of one radar component. */
  class RadarState {
    var radarData: seq<RadarItem>
    var loading: bool
    var error: Option<string>
    var userRole: string
    var filterTopic: string
    var filterUncertainty: string
    const authToken: string

    /** The state before the first fetch completes. */
    constructor ()
      ensures radarData == [] && loading && error == None && userRole == ""
      ensures filterTopic == All && filterUncertainty == All
      ensures authToken == ComponentToken
    {
      radarData := [];
      loading := true;
      error := None;
      userRole := "";
      filterTopic := All;
      filterUncertainty := All;
      authToken := ComponentToken;
    }

    method SetFilterTopic(topic: string)
      modifies this
      ensures filterTopic == topic
      ensures radarData == old(radarData) && loading == old(loading) && error == old(error)
      ensures userRole == old(userRole) && filterUncertainty == old(filterUncertainty)
    {
      filterTopic := topic;
    }

    method SetFilterUncertainty(uncertainty: string)
      modifies this
      ensures filterUncertainty == uncertainty
      ensures radarData == old(radarData) && loading == old(loading) && error == old(error)
      ensures userRole == old(userRole) && filterTopic == old(filterTopic)
    {
      filterUncertainty := uncertainty;
    }

    /**
     * `fetchRadarData`, given how the request ends. On success the data and
     * role are the server's and no error is shown; on any failure the error
     * message is shown beside the fallback data and role. Loading ends on
     * both paths and the selectors keep their values.
     */
    method FetchRadarData(outcome: FetchOutcome)
      modifies this
      ensures !loading
      ensures CaughtValue(outcome) == None ==>
        radarData == outcome.response.body.data && userRole == outcome.response.body.userRole && error == None
      ensures CaughtValue(outcome).Some? ==>
        radarData == FallbackData && userRole == FallbackRole && error == Some(CaughtMessage(CaughtValue(outcome).value))
      ensures filterTopic == old(filterTopic) && filterUncertainty == old(filterUncertainty)
    {
      loading := true;
      error := None;
      var thrown: Option<Thrown> := None;
      match outcome {
        case Rejected(reason) =>
          thrown := Some(reason);
        case Responded(response) =>
          if !Ok(response.status) {
            thrown := Some(ErrorObject(HttpErrorMessage(response.status, response.statusText)));
          } else {
            match response.body {
              case Unparsable(reason) =>
                thrown := Some(reason);
              case Parsed(data, role) =>
                radarData := data;
                userRole := role;
            }
          }
      }
      if thrown.Some? {
        error := Some(CaughtMessage(thrown.value));
        radarData := FallbackData;
        userRole := FallbackRole;
      }
      loading := false;
    }

    /** The cards on screen: none while loading (only the spinner is drawn), otherwise the filtered data. */
    function Visible(): (r: seq<RadarItem>)
      reads this
      ensures IsSubsequence(r, radarData)
      ensures loading ==> r == []
    {
      if loading then [] else FilteredData(radarData, filterTopic, filterUncertainty)
    }
  }

  /** The first four fallback topics de-duplicate to the first three. */
  lemma DedupFallbackPrefix<T>(a: T, g: T, c: T)
    requires a != g && a != c && g != c
    ensures Dedup([a, g, c, a]) == [a, g, c]
  {
    var p := [a, g, c];
    DedupOfDistinct(p);
    assert p + [a] == [a, g, c, a];
    DedupSnoc(p, a);
  }

  /** The first five fallback topics de-duplicate to four. */
  lemma DedupFallbackPrefix5<T>(a: T, g: T, c: T, t: T)
    requires a != g && a != c && a != t && g != c && g != t && c != t
    ensures Dedup([a, g, c, a, t]) == [a, g, c, t]
  {
    DedupFallbackPrefix(a, g, c);
    var q := [a, g, c, a];
    assert q + [t] == [a, g, c, a, t];
    DedupSnoc(q, t);
  }

  /** The de-duplication of the fallback data's topic pattern, for any four distinct topics. */
  lemma DedupFallbackPattern<T>(a: T, g: T, c: T, t: T)
    requires a != g && a != c && a != t && g != c && g != t && c != t
    ensures Dedup([a, g, c, a, t, g]) == [a, g, c, t]
  {
    DedupFallbackPrefix5(a, g, c, t);
    var r := [a, g, c, a, t];
    assert r + [g] == [a, g, c, a, t, g];
    DedupSnoc(r, g);
  }

  /** The topic selector over the fallback data offers four topics, in first-occurrence order. */
  lemma FallbackTopics()
    ensures UniqueTopics(FallbackData) == ["Algebra", "Geometry", "Calculus", "Statistics"]
  {
    var a, g, c, t := "Algebra", "Geometry", "Calculus", "Statistics";
    assert Topics(FallbackData) == [a, g, c, a, t, g];
    assert a[0] == 'A' && g[0] == 'G' && c[0] == 'C' && t[0] == 'S';
    DedupFallbackPattern(a, g, c, t);
  }

  /**
   * A component that mounts while the server is unreachable shows the
   * fallback cards as the "teacher" role, with the rejection's message, and
   * all six cards pass the initial selectors.
   */
  method MountOffline(reason: Thrown) returns (state: RadarState, shown: seq<RadarItem>)
    ensures fresh(state)
    ensures !state.loading && state.userRole == FallbackRole
    ensures state.error == Some(CaughtMessage(reason))
    ensures shown == FallbackData
  {
    state := new RadarState();
    assert CaughtValue(Rejected(reason)) == Some(reason);
    state.FetchRadarData(Rejected(reason));
    NoFilterShowsAll(state.radarData);
    shown := state.Visible();
  }

  /** A later successful refresh replaces the fallback and clears the error. */
  method RefreshAfterFailure(reason: Thrown, data: seq<RadarItem>, role: string)
    returns (first: Option<string>, second: Option<string>, shown: seq<RadarItem>)
    ensures first == Some(CaughtMessage(reason))
    ensures second == None
    ensures shown == data
  {
    var state := new RadarState();
    state.FetchRadarData(Rejected(reason));
    first := state.error;
    state.FetchRadarData(Responded(Response(200, "OK", Parsed(data, role))));
    second := state.error;
    NoFilterShowsAll(state.radarData);
    shown := state.Visible();
  }
}
