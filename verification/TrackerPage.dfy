/** The tracker inside a page: navigations, timers, and the URL last reported. */
module TrackerPage {
  import opened Wrappers
  import P = TrackerProperties

  const MAX_EVENT_NAME_LENGTH: nat := 128

  datatype Config = Config(
    writeKey: string, collectURL: string, autoTrack: bool, trackHistory: bool, respectDoNotTrack: bool, doNotTrack: bool, fetchAvailable: bool)

  predicate ValidEventName(name: string) {
    0 < |name| <= MAX_EVENT_NAME_LENGTH && P.IsAlphanumeric(name[0]) && forall i :: 0 <= i < |name| ==> P.IsKeyChar(name[i])
  }

  predicate TrackingSuppressed(cfg: Config) {
    cfg.respectDoNotTrack && cfg.doNotTrack
  }

  predicate MaySend(cfg: Config, name: string) {
    cfg.writeKey != "" && cfg.collectURL != "" && !TrackingSuppressed(cfg) && ValidEventName(name) && cfg.fetchAvailable
  }

  /** An event handed to fetch; an empty list of properties stands for none. */
  datatype Request = Request(eventName: string, distinctID: string, properties: seq<P.Property>, userProperties: seq<P.Property>)

  /** Where the page is: its full URL, and the facts it shows there. */
  datatype Location = Location(url: string, page: P.Page)

  /** What a call passes along. */
  type Extra = Option<P.Object>

  /** One pageview call: the URL it reports, and whether a route timer made it. */
  datatype View = View(url: string, byTimer: bool)

  /** The event loop. navigations counts the URL changes so far. */
  datatype State = State(
    at: Location, lastPageURL: string, distinctID: string, timers: nat, autoPending: bool,
    requests: seq<Request>, views: seq<View>, navigations: nat)

  datatype Action =
    | Navigate(to: Location)
    | FireRouteTimer
    | FireAutoPageview
    | CallPageview(properties: Extra)
    | CallTrack(eventName: string, properties: Extra)
    | CallIdentify(id: string, userProperties: Extra)

  function Initial(cfg: Config, at: Location, distinctID: string): State {
    State(at, "", distinctID, 0, cfg.autoTrack, [], [], 0)
  }

  predicate Enabled(s: State, a: Action) {
    && (a.FireRouteTimer? ==> s.timers > 0)
    && (a.FireAutoPageview? ==> s.autoPending)
  }

  /** The request built for an event, sent if it may be. */
  ghost function Sent(cfg: Config, s: State, eventName: string, properties: Extra, userProperties: Extra): State {
    if MaySend(cfg, eventName)
    then s.(requests := s.requests + [Request(eventName, s.distinctID, P.SentProperties(s.at.page, properties), P.CallerProperties(userProperties))])
    else s
  }

  ghost function Viewed(cfg: Config, s: State, byTimer: bool, properties: Extra): State {
    Sent(cfg, s.(lastPageURL := s.at.url, views := s.views + [View(s.at.url, byTimer)]), "pageview", properties, None)
  }

  ghost function Step(cfg: Config, s: State, a: Action): State
    requires Enabled(s, a)
  {
    match a
    case Navigate(to) => s.(at := to, timers := if cfg.trackHistory then s.timers + 1 else s.timers, navigations := s.navigations + 1)
    case FireRouteTimer =>
      var t := s.(timers := s.timers - 1);
      if s.at.url != s.lastPageURL then Viewed(cfg, t, true, None) else t
    case FireAutoPageview => Viewed(cfg, s.(autoPending := false), false, None)
    case CallPageview(properties) => Viewed(cfg, s, false, properties)
    case CallTrack(eventName, properties) => Sent(cfg, s, eventName, properties, None)
    case CallIdentify(id, userProperties) => Sent(cfg, if id != "" then s.(distinctID := id) else s, "identify", None, userProperties)
  }

  // ---- The tracker object ----

  class Tracker {
    const cfg: Config
    var at: Location
    var lastPageURL: string
    var distinctID: string
    var timers: nat
    var autoPending: bool
    var requests: seq<Request>
    ghost var views: seq<View>
    ghost var navigations: nat

    constructor (cfg: Config, at: Location, distinctID: string)
      ensures this.cfg == cfg && Abs() == Initial(cfg, at, distinctID)
    {
      this.cfg := cfg;
      this.at, this.lastPageURL, this.distinctID := at, "", distinctID;
      this.timers, this.autoPending, this.requests := 0, cfg.autoTrack, [];
      this.views, this.navigations := [], 0;
    }

    ghost function Abs(): State
      reads this
    {
      State(at, lastPageURL, distinctID, timers, autoPending, requests, views, navigations)
    }

    method BuildRequest(eventName: string, properties: Extra, userProperties: Extra) returns (request: Request)
      ensures request == Request(eventName, distinctID, P.SentProperties(at.page, properties), P.CallerProperties(userProperties))
    {
      var all := P.EventProperties(at.page, properties);
      var user := P.SanitizeProperties(userProperties);
      request := Request(eventName, distinctID, P.OrEmpty(all), P.OrEmpty(user));
    }

    method Send(eventName: string, properties: Extra, userProperties: Extra)
      modifies this`requests
      ensures Abs() == Sent(cfg, old(Abs()), eventName, properties, userProperties)
    {
      if cfg.writeKey == "" || cfg.collectURL == "" {
        return;
      }
      if TrackingSuppressed(cfg) {
        return;
      }
      if !ValidEventName(eventName) {
        return;
      }
      if !cfg.fetchAvailable {
        return;
      }
      var request := BuildRequest(eventName, properties, userProperties);
      requests := requests + [request];
    }

    method Pageview(properties: Extra, ghost byTimer: bool)
      modifies this`lastPageURL, this`views, this`requests
      ensures Abs() == Viewed(cfg, old(Abs()), byTimer, properties)
    {
      lastPageURL := at.url;
      views := views + [View(at.url, byTimer)];
      Send("pageview", properties, None);
    }

    /** pushState, replaceState and popstate: the URL changes, then a route timer is scheduled. */
    method ChangeURL(to: Location)
      modifies this`at, this`timers, this`navigations
      ensures Abs() == Step(cfg, old(Abs()), Navigate(to))
    {
      at := to;
      navigations := navigations + 1;
      if cfg.trackHistory {
        timers := timers + 1;
      }
    }

    method RouteTimer()
      requires timers > 0
      modifies this
      ensures Abs() == Step(cfg, old(Abs()), FireRouteTimer)
      ensures at.url == old(lastPageURL) ==> requests == old(requests)
    {
      timers := timers - 1;
      if at.url != lastPageURL {
        Pageview(None, true);
      }
    }

    method AutoPageview()
      requires autoPending
      modifies this
      ensures Abs() == Step(cfg, old(Abs()), FireAutoPageview)
    {
      autoPending := false;
      Pageview(None, false);
    }

    method Track(eventName: string, properties: Extra)
      modifies this`requests
      ensures Abs() == Step(cfg, old(Abs()), CallTrack(eventName, properties))
    {
      if !ValidEventName(eventName) {
        return;
      }
      Send(eventName, properties, None);
    }

    method Identify(id: string, userProperties: Extra)
      modifies this`distinctID, this`requests
      ensures Abs() == Step(cfg, old(Abs()), CallIdentify(id, userProperties))
      ensures distinctID == if id != "" then id else old(distinctID)
    {
      if id != "" {
        distinctID := id;
      }
      Send("identify", None, userProperties);
    }
  }

  // ---- Runs ----

  ghost predicate Steps(cfg: Config, s: State, t: State) {
    exists a :: Enabled(s, a) && t == Step(cfg, s, a)
  }

  ghost predicate IsRun(cfg: Config, run: seq<State>) {
    && run != [] && (exists at, distinctID :: run[0] == Initial(cfg, at, distinctID))
    && forall i :: 0 <= i < |run| - 1 ==> Steps(cfg, run[i], run[i + 1])
  }

  function LastURL(views: seq<View>): string {
    if views == [] then "" else views[|views| - 1].url
  }

  function TimerViews(views: seq<View>): nat {
    if views == [] then 0 else TimerViews(views[..|views| - 1]) + if views[|views| - 1].byTimer then 1 else 0
  }

  /** Nothing has reported or changed the URL yet. */
  predicate Untouched(s: State) {
    s.views == [] && s.navigations == 0
  }

  /** Each timer's view is of a URL other than the one reported before it. */
  ghost predicate Changing(views: seq<View>) {
    forall i :: 0 <= i < |views| && views[i].byTimer ==> views[i].url != LastURL(views[..i])
  }

  /** A valid event name, and properties that may leave the browser, those of some page first. */
  ghost predicate BoundedRequest(r: Request) {
    && ValidEventName(r.eventName) && P.Bounded(r.properties) && P.Bounded(r.userProperties)
    && exists page :: P.Sanitized(P.BaseObject(page)) <= r.properties
  }

  ghost predicate Inv(cfg: Config, s: State) {
    && s.lastPageURL == LastURL(s.views)
    && Changing(s.views)
    && TimerViews(s.views) + s.timers <= s.navigations
    && (cfg.trackHistory && s.timers == 0 && !s.autoPending ==> s.lastPageURL == s.at.url || (Untouched(s) && !cfg.autoTrack))
    && forall r <- s.requests :: BoundedRequest(r)
  }

  lemma OneMoreView(views: seq<View>, url: string, byTimer: bool)
    requires Changing(views) && (byTimer ==> url != LastURL(views))
    ensures
      var more := views + [View(url, byTimer)];
      LastURL(more) == url && Changing(more) && TimerViews(more) == TimerViews(views) + if byTimer then 1 else 0
  {
    var more := views + [View(url, byTimer)];
    assert more[..|views|] == views;
    assert forall i :: 0 <= i < |views| ==> more[..i] == views[..i];
  }

  lemma SentKeepsInv(cfg: Config, s: State, eventName: string, properties: Extra, userProperties: Extra)
    requires Inv(cfg, s)
    ensures Inv(cfg, Sent(cfg, s, eventName, properties, userProperties))
  {
    P.SentAreBounded(s.at.page, properties);
    P.SentAreBounded(s.at.page, userProperties);
  }

  /** A pageview brings the reported URL up to date, whatever timers are due. */
  lemma ViewedKeepsInv(cfg: Config, s: State, byTimer: bool, properties: Extra)
    requires s.lastPageURL == LastURL(s.views) && Changing(s.views) && forall r <- s.requests :: BoundedRequest(r)
    requires TimerViews(s.views) + s.timers + (if byTimer then 1 else 0) <= s.navigations
    requires byTimer ==> s.at.url != s.lastPageURL
    ensures Inv(cfg, Viewed(cfg, s, byTimer, properties))
  {
    OneMoreView(s.views, s.at.url, byTimer);
    SentKeepsInv(cfg, s.(lastPageURL := s.at.url, views := s.views + [View(s.at.url, byTimer)]), "pageview", properties, None);
  }

  lemma StepKeepsInv(cfg: Config, s: State, a: Action)
    requires Inv(cfg, s) && Enabled(s, a)
    ensures Inv(cfg, Step(cfg, s, a))
  {
    match a
    case Navigate(_) =>
    case FireRouteTimer =>
      if s.at.url != s.lastPageURL {
        ViewedKeepsInv(cfg, s.(timers := s.timers - 1), true, None);
      }
    case FireAutoPageview => ViewedKeepsInv(cfg, s.(autoPending := false), false, None);
    case CallPageview(properties) => ViewedKeepsInv(cfg, s, false, properties);
    case CallTrack(eventName, properties) => SentKeepsInv(cfg, s, eventName, properties, None);
    case CallIdentify(id, userProperties) =>
      SentKeepsInv(cfg, if id != "" then s.(distinctID := id) else s, "identify", None, userProperties);
  }

  lemma {:induction false} RunKeepsInv(cfg: Config, run: seq<State>)
    requires IsRun(cfg, run)
    ensures Inv(cfg, run[|run| - 1])
  {
    if |run| > 1 {
      var n := |run| - 1;
      assert Steps(cfg, run[n - 1], run[n]);
      RunKeepsInv(cfg, run[..n]);
      var a :| Enabled(run[n - 1], a) && run[n] == Step(cfg, run[n - 1], a);
      StepKeepsInv(cfg, run[n - 1], a);
    }
  }

  /**
   * In every run, once the timers have drained the tracker has reported the current URL, unless nothing has happened
   * on a page that does not track by itself. Here the URL changes only by navigations the tracker listens to.
   */
  lemma DrainedIsCurrent(cfg: Config, run: seq<State>)
    requires IsRun(cfg, run) && cfg.trackHistory
    ensures
      var s := run[|run| - 1];
      s.timers == 0 && !s.autoPending ==> s.lastPageURL == s.at.url || (Untouched(s) && !cfg.autoTrack)
  {
    RunKeepsInv(cfg, run);
  }

  /** Every request of every run has a valid event name and bounded properties that start with a page's own. */
  lemma RequestsAreBounded(cfg: Config, run: seq<State>, r: Request)
    requires IsRun(cfg, run) && r in run[|run| - 1].requests
    ensures BoundedRequest(r)
  {
    RunKeepsInv(cfg, run);
  }

  /** Every pageview by a timer reports a URL other than the one reported before it, and there are no more of them than navigations. */
  lemma TimersReportChangesOnly(cfg: Config, run: seq<State>)
    requires IsRun(cfg, run)
    ensures
      var s := run[|run| - 1];
      TimerViews(s.views) + s.timers <= s.navigations && Changing(s.views)
  {
    RunKeepsInv(cfg, run);
  }

  // ---- What is sent, and under which identity ----

  /** The event may leave the page: configured, not suppressed, fetch there, and a name of 1 to 128 legal characters. */
  lemma MaySendMeaning(cfg: Config, name: string)
    ensures MaySend(cfg, name) <==>
            && cfg.writeKey != "" && cfg.collectURL != "" && cfg.fetchAvailable && !(cfg.respectDoNotTrack && cfg.doNotTrack)
            && P.SupportedKey(name)
    ensures ValidEventName("pageview") && ValidEventName("identify")
  {
    assert forall i :: 0 <= i < |"pageview"| ==> P.IsKeyChar("pageview"[i]);
    assert forall i :: 0 <= i < |"identify"| ==> P.IsKeyChar("identify"[i]);
  }

  /** t has one more request than s when the event may be sent, and the same ones when it may not. */
  ghost predicate Sends(cfg: Config, s: State, t: State, name: string, properties: seq<P.Property>, userProperties: seq<P.Property>) {
    if MaySend(cfg, name) then t.requests == s.requests + [Request(name, t.distinctID, properties, userProperties)]
    else t.requests == s.requests
  }

  /** Which event each call sends, with which properties, and what else it changes. */
  lemma StepMeaning(cfg: Config, s: State, a: Action)
    requires Enabled(s, a)
    ensures
      var t := Step(cfg, s, a);
      match a
      case Navigate(to) => t.at == to && t.requests == s.requests && t.lastPageURL == s.lastPageURL && t.distinctID == s.distinctID
      case FireRouteTimer =>
        && t.timers == s.timers - 1 && t.lastPageURL == s.at.url && t.distinctID == s.distinctID
        && (if s.at.url == s.lastPageURL then t.requests == s.requests else Sends(cfg, s, t, "pageview", P.SentProperties(s.at.page, None), []))
      case FireAutoPageview =>
        && !t.autoPending && t.lastPageURL == s.at.url && t.distinctID == s.distinctID
        && Sends(cfg, s, t, "pageview", P.SentProperties(s.at.page, None), [])
      case CallPageview(properties) =>
        && t.lastPageURL == s.at.url && t.distinctID == s.distinctID
        && Sends(cfg, s, t, "pageview", P.SentProperties(s.at.page, properties), [])
      case CallTrack(name, properties) =>
        && t.lastPageURL == s.lastPageURL && t.distinctID == s.distinctID
        && Sends(cfg, s, t, name, P.SentProperties(s.at.page, properties), [])
      case CallIdentify(id, userProperties) =>
        && t.lastPageURL == s.lastPageURL && t.distinctID == (if id == "" then s.distinctID else id)
        && Sends(cfg, s, t, "identify", P.SentProperties(s.at.page, None), P.CallerProperties(userProperties))
  {
  }

  function ViewRequests(requests: seq<Request>): nat {
    if requests == [] then 0
    else ViewRequests(requests[..|requests| - 1]) + if requests[|requests| - 1].eventName == "pageview" then 1 else 0
  }

  lemma OneMoreRequest(requests: seq<Request>, r: Request)
    ensures ViewRequests(requests + [r]) == ViewRequests(requests) + if r.eventName == "pageview" then 1 else 0
  {
    assert (requests + [r])[..|requests|] == requests;
  }

  /** Every view is a pageview call, and only a tracker that may send a pageview sends it. */
  ghost predicate Accounted(cfg: Config, s: State) {
    if MaySend(cfg, "pageview") then |s.views| <= ViewRequests(s.requests) else s.requests == []
  }

  lemma SentKeepsAccount(cfg: Config, s: State, view: bool, eventName: string, properties: Extra, userProperties: Extra)
    requires if MaySend(cfg, "pageview") then |s.views| <= ViewRequests(s.requests) + (if view then 1 else 0) else s.requests == []
    requires view ==> eventName == "pageview"
    ensures Accounted(cfg, Sent(cfg, s, eventName, properties, userProperties))
  {
    MaySendMeaning(cfg, "pageview");
    MaySendMeaning(cfg, eventName);
    OneMoreRequest(s.requests, Request(eventName, s.distinctID, P.SentProperties(s.at.page, properties), P.CallerProperties(userProperties)));
  }

  lemma ViewedKeepsAccount(cfg: Config, s: State, byTimer: bool, properties: Extra)
    requires Accounted(cfg, s)
    ensures Accounted(cfg, Viewed(cfg, s, byTimer, properties))
  {
    SentKeepsAccount(cfg, s.(lastPageURL := s.at.url, views := s.views + [View(s.at.url, byTimer)]), true, "pageview", properties, None);
  }

  lemma StepKeepsAccount(cfg: Config, s: State, a: Action)
    requires Accounted(cfg, s) && Enabled(s, a)
    ensures Accounted(cfg, Step(cfg, s, a))
  {
    match a
    case Navigate(_) =>
    case FireRouteTimer =>
      if s.at.url != s.lastPageURL {
        ViewedKeepsAccount(cfg, s.(timers := s.timers - 1), true, None);
      }
    case FireAutoPageview => ViewedKeepsAccount(cfg, s.(autoPending := false), false, None);
    case CallPageview(properties) => ViewedKeepsAccount(cfg, s, false, properties);
    case CallTrack(eventName, properties) => SentKeepsAccount(cfg, s, false, eventName, properties, None);
    case CallIdentify(id, userProperties) =>
      SentKeepsAccount(cfg, if id != "" then s.(distinctID := id) else s, false, "identify", None, userProperties);
  }

  /** In every run a tracker that may send pageviews sends one for each view, and any other tracker sends nothing at all. */
  lemma {:induction false} EveryViewIsSent(cfg: Config, run: seq<State>)
    requires IsRun(cfg, run)
    ensures
      var s := run[|run| - 1];
      if MaySend(cfg, "pageview") then |s.views| <= ViewRequests(s.requests) else s.requests == []
  {
    if |run| > 1 {
      var n := |run| - 1;
      assert Steps(cfg, run[n - 1], run[n]);
      EveryViewIsSent(cfg, run[..n]);
      var a :| Enabled(run[n - 1], a) && run[n] == Step(cfg, run[n - 1], a);
      StepKeepsAccount(cfg, run[n - 1], a);
    }
  }

  // ---- Bursts ----

  /** Every due timer has fired. */
  ghost function Drained(cfg: Config, s: State): State
    decreases s.timers
  {
    if s.timers == 0 then s
    else
      TimersFall(cfg, s);
      Drained(cfg, Step(cfg, s, FireRouteTimer))
  }

  lemma TimersFall(cfg: Config, s: State)
    requires s.timers > 0
    ensures Step(cfg, s, FireRouteTimer).timers == s.timers - 1
  {
  }

  ghost function NavigatedAll(cfg: Config, s: State, path: seq<Location>): State {
    if path == [] then s else Step(cfg, NavigatedAll(cfg, s, path[..|path| - 1]), Navigate(path[|path| - 1]))
  }

  /** However many timers are due, together they report the current URL once, if it is new. */
  lemma {:induction false} DrainReportsOnce(cfg: Config, s: State)
    requires s.timers > 0
    ensures Drained(cfg, s) == if s.at.url != s.lastPageURL then Viewed(cfg, s.(timers := 0), true, None) else s.(timers := 0)
    decreases s.timers
  {
    TimersFall(cfg, s);
    var t := Step(cfg, s, FireRouteTimer);
    assert t.at == s.at && t.lastPageURL == t.at.url;
    if t.timers > 0 {
      DrainReportsOnce(cfg, t);
    }
  }

  lemma {:induction false} NavigatingOnlySchedules(cfg: Config, s: State, path: seq<Location>)
    requires path != []
    ensures
      NavigatedAll(cfg, s, path) ==
      s.(at := path[|path| - 1], timers := s.timers + (if cfg.trackHistory then |path| else 0), navigations := s.navigations + |path|)
  {
    var n := |path| - 1;
    if n > 0 {
      NavigatingOnlySchedules(cfg, s, path[..n]);
    } else {
      assert path[..n] == [];
    }
  }

  /**
   * A burst of navigations before the timers fire gives one pageview, for where it ends, or none if that was reported
   * already; and it sends at most that one request.
   */
  lemma BurstReportsOnce(cfg: Config, s: State, path: seq<Location>)
    requires cfg.trackHistory && path != []
    ensures
      var end, t := path[|path| - 1].url, Drained(cfg, NavigatedAll(cfg, s, path));
      && t.at.url == t.lastPageURL == end && t.timers == 0
      && t.views == s.views + (if end != s.lastPageURL then [View(end, true)] else [])
      && |t.requests| == |s.requests| + (if end != s.lastPageURL && MaySend(cfg, "pageview") then 1 else 0)
  {
    NavigatingOnlySchedules(cfg, s, path);
    DrainReportsOnce(cfg, NavigatedAll(cfg, s, path));
  }

  /** History tracking is needed: without it a navigation is never reported, however long the timers run. */
  lemma UntrackedGoesStale(cfg: Config, s: State, path: seq<Location>)
    requires !cfg.trackHistory && path != [] && s.timers == 0
    ensures
      var t := Drained(cfg, NavigatedAll(cfg, s, path));
      t.views == s.views && (t.lastPageURL == t.at.url <==> path[|path| - 1].url == s.lastPageURL)
  {
    NavigatingOnlySchedules(cfg, s, path);
  }
}
