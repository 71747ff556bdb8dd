/**
 Ad blocking in the browser's WebView client.

 Every resource request the WebView makes passes through the client's
 shouldInterceptRequest. While ad blocking is on, the client looks the URL up in
 its table of verdicts (loadedUrls); on a miss it asks the classifier isAd once and
 stores the answer, on a hit it reuses the stored answer. A URL judged to be an ad
 is answered with an empty substitute resource; every other request is passed
 through to the network. While ad blocking is off the table is not touched.

 The on/off switch lives in the activity, starts from the stored preference
 "ad_blocking" (on when nothing is stored) and is flipped and written back by the
 menu item.

 The classifier is a pure function from URL to verdict whose rules are not part of
 this model; it is a parameter (a constant of the client).
 */
module AdBlockingGate {

  /** What the gate hands back to the WebView: the empty substitute resource, or
      the default answer that lets the real fetch go ahead. */
  datatype Response = Empty | PassThrough

  /** Key of the switch in the activity's shared preferences. */
  const AdBlockingKey: string := "ad_blocking"

  /** The response for a verdict. */
  function Respond(ad: bool): Response
  {
    if ad then Empty else PassThrough
  }

  /** A boolean read from the preferences, with the value used when none is stored. */
  function GetBoolean(preferences: map<string, bool>, key: string, fallback: bool): bool
  {
    if key in preferences then preferences[key] else fallback
  }

  /** The switch as the activity reads it when it is created: the stored
      preference, and on when nothing is stored. */
  function StoredAdBlocking(preferences: map<string, bool>): (enabled: bool)
    ensures AdBlockingKey !in preferences ==> enabled
    ensures AdBlockingKey in preferences ==> enabled == preferences[AdBlockingKey]
  {
    GetBoolean(preferences, AdBlockingKey, true)
  }

  /** Reference answer without any memo: the classifier asked afresh on every
      request, and nothing blocked while the switch is off. */
  function Verdict(enabled: bool, isAd: string -> bool, url: string): Response
  {
    if enabled then Respond(isAd(url)) else PassThrough
  }

  /** Every stored verdict is the classifier's own verdict for that URL. */
  ghost predicate Agrees(loadedUrls: map<string, bool>, isAd: string -> bool)
  {
    forall u :: u in loadedUrls ==> loadedUrls[u] == isAd(u)
  }

  /** Every entry of `before` is still in `after`, with the same verdict. */
  ghost predicate Keeps(before: map<string, bool>, after: map<string, bool>)
  {
    forall u :: u in before ==> u in after && after[u] == before[u]
  }

  /** The outcome of one call of the gate: the response, the verdict table
      afterwards, and whether the classifier was asked. */
  datatype Step = Step(response: Response, loadedUrls: map<string, bool>, consulted: bool)

  /** One call of shouldInterceptRequest on the verdict table `loadedUrls`. */
  function Intercept(enabled: bool, isAd: string -> bool, loadedUrls: map<string, bool>, url: string): (s: Step)
    // Switched off: pass through, table untouched, classifier not asked.
    ensures !enabled ==> s.response == PassThrough && s.loadedUrls == loadedUrls && !s.consulted
    // Switched on: the classifier is asked exactly when the URL is not yet a key,
    // and its answer becomes the URL's entry; a known URL leaves the table as it was.
    ensures enabled ==> s.consulted == (url !in loadedUrls)
    ensures enabled && url !in loadedUrls ==> s.loadedUrls == loadedUrls[url := isAd(url)]
    ensures enabled && url in loadedUrls ==> s.loadedUrls == loadedUrls
    // Switched on: the response is the empty resource exactly when the URL's
    // entry says "ad".
    ensures enabled ==> url in s.loadedUrls && (s.response == Empty <==> s.loadedUrls[url])
    // An entry, once written, is never overwritten or removed.
    ensures Keeps(loadedUrls, s.loadedUrls)
  {
    if enabled then
      if url !in loadedUrls then
        var ad := isAd(url);
        Step(Respond(ad), loadedUrls[url := ad], true)
      else
        var ad := loadedUrls[url];
        Step(Respond(ad), loadedUrls, false)
    else
      Step(PassThrough, loadedUrls, false)
  }

  /** Asking twice about the same URL gives the same response, and the second
      call neither asks the classifier nor changes the table. */
  lemma InterceptRepeats(enabled: bool, isAd: string -> bool, loadedUrls: map<string, bool>, url: string)
    ensures var first := Intercept(enabled, isAd, loadedUrls, url);
            var second := Intercept(enabled, isAd, first.loadedUrls, url);
            second.response == first.response && second.loadedUrls == first.loadedUrls && !second.consulted
  {
  }

  /** As long as every stored verdict is the classifier's, the memo is invisible:
      the gate answers as the reference does, and the table stays faithful. */
  lemma InterceptIsTransparent(enabled: bool, isAd: string -> bool, loadedUrls: map<string, bool>, url: string)
    requires Agrees(loadedUrls, isAd)
    ensures var s := Intercept(enabled, isAd, loadedUrls, url);
            s.response == Verdict(enabled, isAd, url) && Agrees(s.loadedUrls, isAd)
  {
  }

  /** The persisted switch: the live value and the stored preferences. */
  datatype AdSwitch = AdSwitch(enabled: bool, preferences: map<string, bool>)

  /** The switch as the activity sets it up from stored preferences. */
  function StartSwitch(preferences: map<string, bool>): (w: AdSwitch)
    ensures w.preferences == preferences
    ensures Persisted(w)
  {
    AdSwitch(StoredAdBlocking(preferences), preferences)
  }

  /** A restart would come back with the live value. */
  ghost predicate Persisted(w: AdSwitch)
  {
    StoredAdBlocking(w.preferences) == w.enabled
  }

  /** The menu item: flip the switch and store the new value under "ad_blocking". */
  function Toggle(w: AdSwitch): (t: AdSwitch)
    ensures t.enabled == !w.enabled
    ensures AdBlockingKey in t.preferences && t.preferences[AdBlockingKey] == t.enabled
    ensures forall k :: k in w.preferences && k != AdBlockingKey ==> k in t.preferences && t.preferences[k] == w.preferences[k]
    ensures t.preferences.Keys == w.preferences.Keys + {AdBlockingKey}
  {
    var enabled := !w.enabled;
    AdSwitch(enabled, w.preferences[AdBlockingKey := enabled])
  }

  /** Toggling twice gives back the original value, now also stored; and after any
      toggle a restart resumes the live value. */
  lemma ToggleTwice(w: AdSwitch)
    ensures Toggle(Toggle(w)).enabled == w.enabled
    ensures Toggle(Toggle(w)).preferences == w.preferences[AdBlockingKey := w.enabled]
    ensures Persisted(Toggle(w))
  {
  }

  /** The activity's ad-blocking state: the live switch and the preferences. */
  class MainActivity {
    var isAdBlockingEnabled: bool
    var preferences: map<string, bool>

    /** The switch as one value. */
    function Switch(): AdSwitch
      reads this
    {
      AdSwitch(isAdBlockingEnabled, preferences)
    }

    /** Creation reads the switch from the stored preferences. */
    constructor (stored: map<string, bool>)
      ensures Switch() == StartSwitch(stored)
    {
      preferences := stored;
      isAdBlockingEnabled := StoredAdBlocking(stored);
    }

    /** The "toggle ad blocking" menu item. */
    method ToggleAdBlocking()
      modifies this
      ensures Switch() == Toggle(old(Switch()))
    {
      isAdBlockingEnabled := !isAdBlockingEnabled;
      preferences := preferences[AdBlockingKey := isAdBlockingEnabled];
    }
  }

  /** The WebView client with its table of verdicts. It reads the switch of the
      activity it belongs to on every request. */
  class AdBlockingWebViewClient {
    const activity: MainActivity
    const isAd: string -> bool
    var loadedUrls: map<string, bool>
    /** Every URL handed to the classifier, in order. */
    ghost var classified: seq<string>

    /** The table holds only the classifier's verdicts, and the classifier was
        asked about exactly the URLs in the table, each of them once. */
    ghost predicate Valid()
      reads this
    {
      && Agrees(loadedUrls, isAd)
      && (forall u :: u in loadedUrls <==> u in classified)
      && (forall i, j :: 0 <= i < j < |classified| ==> classified[i] != classified[j])
    }

    constructor (activity: MainActivity, isAd: string -> bool)
      ensures this.activity == activity && this.isAd == isAd
      ensures Valid() && loadedUrls == map[] && classified == []
    {
      this.activity := activity;
      this.isAd := isAd;
      loadedUrls := map[];
      classified := [];
    }

    /** The per-request gate. */
    method ShouldInterceptRequest(url: string) returns (response: Response)
      requires Valid()
      modifies this
      ensures Valid()
      ensures response == Verdict(activity.isAdBlockingEnabled, isAd, url)
      ensures var s := Intercept(activity.isAdBlockingEnabled, isAd, old(loadedUrls), url);
              response == s.response && loadedUrls == s.loadedUrls &&
              classified == old(classified) + (if s.consulted then [url] else [])
    {
      var ad: bool;
      if activity.isAdBlockingEnabled {
        if url !in loadedUrls {
          ad := isAd(url);
          loadedUrls := loadedUrls[url := ad];
          classified := classified + [url];
        } else {
          ad := loadedUrls[url];
        }
        return Respond(ad);
      }
      return PassThrough;
    }
  }

  /** What happens in a browsing session, one event at a time. */
  datatype Event = Request(url: string) | ToggleMenuItem

  /** The switch and the client's table of verdicts. */
  datatype GateState = GateState(switch: AdSwitch, loadedUrls: map<string, bool>)

  /** The responses given and the state reached. */
  datatype Trace = Trace(responses: seq<Response>, final: GateState)

  /** A session played through the gate and the menu item. */
  function Replay(isAd: string -> bool, s: GateState, events: seq<Event>): Trace
    decreases |events|
  {
    if events == [] then Trace([], s)
    else
      match events[0]
      case ToggleMenuItem =>
        Replay(isAd, s.(switch := Toggle(s.switch)), events[1..])
      case Request(url) =>
        var step := Intercept(s.switch.enabled, isAd, s.loadedUrls, url);
        var rest := Replay(isAd, s.(loadedUrls := step.loadedUrls), events[1..]);
        Trace([step.response] + rest.responses, rest.final)
  }

  /** The responses a session should get, computed without any memo: each
      request is judged afresh under the switch as it stands at that moment. */
  function Expected(isAd: string -> bool, enabled: bool, events: seq<Event>): seq<Response>
    decreases |events|
  {
    if events == [] then []
    else
      match events[0]
      case ToggleMenuItem => Expected(isAd, !enabled, events[1..])
      case Request(url) => [Verdict(enabled, isAd, url)] + Expected(isAd, enabled, events[1..])
  }

  /** The memo never changes an answer: a session started on a faithful table gets
      exactly the reference responses, toggles included, and the table stays
      faithful without ever being cleared. */
  lemma {:induction false} ReplayMatchesExpected(isAd: string -> bool, s: GateState, events: seq<Event>)
    requires Agrees(s.loadedUrls, isAd)
    ensures Replay(isAd, s, events).responses == Expected(isAd, s.switch.enabled, events)
    ensures Agrees(Replay(isAd, s, events).final.loadedUrls, isAd)
    decreases |events|
  {
    if events != [] {
      match events[0]
      case ToggleMenuItem =>
        ReplayMatchesExpected(isAd, s.(switch := Toggle(s.switch)), events[1..]);
      case Request(url) =>
        var step := Intercept(s.switch.enabled, isAd, s.loadedUrls, url);
        InterceptIsTransparent(s.switch.enabled, isAd, s.loadedUrls, url);
        ReplayMatchesExpected(isAd, s.(loadedUrls := step.loadedUrls), events[1..]);
    }
  }

  /** Over a whole session no stored verdict is ever overwritten or dropped. */
  lemma {:induction false} ReplayKeepsVerdicts(isAd: string -> bool, s: GateState, events: seq<Event>)
    ensures Keeps(s.loadedUrls, Replay(isAd, s, events).final.loadedUrls)
    decreases |events|
  {
    if events != [] {
      match events[0]
      case ToggleMenuItem =>
        ReplayKeepsVerdicts(isAd, s.(switch := Toggle(s.switch)), events[1..]);
      case Request(url) =>
        var step := Intercept(s.switch.enabled, isAd, s.loadedUrls, url);
        ReplayKeepsVerdicts(isAd, s.(loadedUrls := step.loadedUrls), events[1..]);
    }
  }

  /** The stored preference keeps up with the live switch through a session, so
      a restart at any point resumes the setting in force. */
  lemma {:induction false} ReplayKeepsSwitchPersisted(isAd: string -> bool, s: GateState, events: seq<Event>)
    requires Persisted(s.switch)
    ensures Persisted(Replay(isAd, s, events).final.switch)
    decreases |events|
  {
    if events != [] {
      match events[0]
      case ToggleMenuItem =>
        ToggleTwice(s.switch);
        ReplayKeepsSwitchPersisted(isAd, s.(switch := Toggle(s.switch)), events[1..]);
      case Request(url) =>
        var step := Intercept(s.switch.enabled, isAd, s.loadedUrls, url);
        ReplayKeepsSwitchPersisted(isAd, s.(loadedUrls := step.loadedUrls), events[1..]);
    }
  }

  /** While the switch stays off, every request passes through and nothing at all
      changes, even for URLs whose stored verdict is "ad". */
  lemma {:induction false} ReplayWhileDisabled(isAd: string -> bool, s: GateState, events: seq<Event>)
    requires !s.switch.enabled
    requires forall i :: 0 <= i < |events| ==> events[i].Request?
    ensures Replay(isAd, s, events).final == s
    ensures |Replay(isAd, s, events).responses| == |events|
    ensures forall i :: 0 <= i < |events| ==> Replay(isAd, s, events).responses[i] == PassThrough
    decreases |events|
  {
    if events != [] {
      ReplayWhileDisabled(isAd, s, events[1..]);
    }
  }
}
