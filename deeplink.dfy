/**
 * The decision logic of the deep-link bridge in MainActivity, as values.
 *
 * The activity keeps one nullable field, the pending route. Two lifecycle
 * entry points (configureFlutterEngine and onNewIntent) hand the current
 * intent to handleIntent, which stores the data URI's string form when its
 * scheme is exactly "calc". The method-call handler of the deep-link channel
 * answers "getInitialRoute" with the pending route and clears it; any other
 * method name is answered with notImplemented.
 *
 * Step is one such event; Run is a whole sequence of them; Pending is an
 * independent description of the pending route (scan back to the latest
 * event that sets or clears it). The lemmas relate the three.
 */
module DeepLink {
  import opened Wrappers

  /** The only scheme whose URIs are captured. */
  const DeepLinkScheme: string := "calc"

  /** The only method name the channel's handler answers. */
  const GetInitialRoute: string := "getInitialRoute"

  /** An android.net.Uri: its scheme (absent for a relative URI) and its string form. */
  datatype Uri = Uri(scheme: Option<string>, text: string)

  /** An android.content.Intent, reduced to its data URI. */
  datatype Intent = Intent(data: Option<Uri>)

  /** What the method-call handler sends back: result.success(value) or result.notImplemented(). */
  datatype Response = Success(value: Option<string>) | NotImplemented

  /** What can happen to the activity, in order. */
  datatype Event =
    | Configure(current: Option<Intent>)   // configureFlutterEngine, with the activity's current intent
    | NewIntent(intent: Intent)            // onNewIntent, whose intent is never null
    | MethodCall(name: string)             // a call arriving on the deep-link channel

  /** The pending route after an event, and the handler's reply (only method calls get one). */
  datatype Outcome = Outcome(route: Option<string>, reply: Option<Response>)

  /** The pending route after a sequence of events, and one reply slot per event. */
  datatype Trace = Trace(route: Option<string>, replies: seq<Option<Response>>)

  /** `intent?.data` */
  function DataOf(intent: Option<Intent>): Option<Uri>
  {
    if intent.Some? then intent.value.data else None
  }

  /** `uri != null && uri.scheme == "calc"`: exact comparison, no case folding. */
  predicate IsDeepLink(uri: Option<Uri>)
  {
    uri.Some? && uri.value.scheme == Some(DeepLinkScheme)
  }

  /** The intent an event hands to handleIntent; method calls hand none over. */
  function IntentOf(e: Event): Option<Intent>
  {
    match e
    case Configure(current) => current
    case NewIntent(intent) => Some(intent)
    case MethodCall(_) => None
  }

  /** An event that stores a new pending route. */
  predicate Captures(e: Event)
  {
    !e.MethodCall? && IsDeepLink(DataOf(IntentOf(e)))
  }

  /** The string form stored by a capturing event. */
  function LinkOf(e: Event): string
    requires Captures(e)
  {
    DataOf(IntentOf(e)).value.text
  }

  /** An event that hands the pending route over and clears it. */
  predicate Consumes(e: Event)
  {
    e.MethodCall? && e.name == GetInitialRoute
  }

  /** handleIntent: store the URI's string form when it is a deep link, otherwise keep the route. */
  function HandleIntentRoute(route: Option<string>, intent: Option<Intent>): Option<string>
  {
    var uri := DataOf(intent);
    if IsDeepLink(uri) then Some(uri.value.text) else route
  }

  /** The method-call handler: get-and-clear for getInitialRoute, notImplemented otherwise. */
  function HandleCall(route: Option<string>, name: string): Outcome
  {
    if name == GetInitialRoute then Outcome(None, Some(Success(route)))
    else Outcome(route, Some(NotImplemented))
  }

  /** One event. Both lifecycle entry points go through handleIntent. */
  function Step(route: Option<string>, e: Event): Outcome
  {
    match e
    case Configure(current) => Outcome(HandleIntentRoute(route, current), None)
    case NewIntent(intent) => Outcome(HandleIntentRoute(route, Some(intent)), None)
    case MethodCall(name) => HandleCall(route, name)
  }

  /** A sequence of events, from the first to the last. */
  function Run(route: Option<string>, evs: seq<Event>): (t: Trace)
    ensures |t.replies| == |evs|
    decreases |evs|
  {
    if evs == [] then Trace(route, [])
    else
      var o := Step(route, evs[0]);
      var t := Run(o.route, evs[1..]);
      Trace(t.route, [o.reply] + t.replies)
  }

  /**
   * Reference description of the pending route after evs: the string form of
   * the latest captured deep link, unless a getInitialRoute call came after
   * it; the initial route if no event since the start set or cleared it.
   */
  function Pending(route: Option<string>, evs: seq<Event>): Option<string>
    decreases |evs|
  {
    if evs == [] then route
    else
      var e := evs[|evs| - 1];
      if Captures(e) then Some(LinkOf(e))
      else if Consumes(e) then None
      else Pending(route, evs[..|evs| - 1])
  }

  /** A reply that hands a route over. */
  predicate IsDelivery(reply: Option<Response>)
  {
    reply.Some? && reply.value.Success? && reply.value.value.Some?
  }

  /** Number of replies that hand a route over. */
  function Delivered(replies: seq<Option<Response>>): nat
  {
    if replies == [] then 0 else (if IsDelivery(replies[0]) then 1 else 0) + Delivered(replies[1..])
  }

  /** Number of events that store a deep link. */
  function CapturedCount(evs: seq<Event>): nat
  {
    if evs == [] then 0 else (if Captures(evs[0]) then 1 else 0) + CapturedCount(evs[1..])
  }

  /** 1 when a route is pending, else 0. */
  function Held(route: Option<string>): nat
  {
    if route.Some? then 1 else 0
  }

  // ---------------------------------------------------------------------
  // Single events

  /** handleIntent stores the string form exactly when the URI is present with scheme "calc". */
  lemma HandleIntentRule(route: Option<string>, intent: Option<Intent>)
    ensures intent.Some? && intent.value.data.Some? && intent.value.data.value.scheme == Some("calc")
            ==> HandleIntentRoute(route, intent) == Some(intent.value.data.value.text)
    ensures intent.None? || intent.value.data.None? || intent.value.data.value.scheme != Some("calc")
            ==> HandleIntentRoute(route, intent) == route
  {
  }

  /** The scheme test is exact: "calc" and only "calc", so "CALC" or "Calc" is ignored. */
  lemma SchemeIsExact(route: Option<string>, scheme: string, text: string)
    ensures HandleIntentRoute(route, Some(Intent(Some(Uri(Some(scheme), text)))))
            == (if scheme == "calc" then Some(text) else route)
    ensures HandleIntentRoute(route, Some(Intent(Some(Uri(Some("CALC"), text))))) == route
  {
  }

  /** onNewIntent and configureFlutterEngine apply the same rule to the same intent. */
  lemma EntryPointsAgree(route: Option<string>, intent: Intent)
    ensures Step(route, Configure(Some(intent))) == Step(route, NewIntent(intent))
    ensures Step(route, NewIntent(intent)).route == HandleIntentRoute(route, Some(intent))
  {
  }

  /** getInitialRoute returns the pending route and then clears it; other names change nothing. */
  lemma HandleCallRule(route: Option<string>, name: string)
    ensures name == "getInitialRoute" ==> HandleCall(route, name) == Outcome(None, Some(Success(route)))
    ensures name != "getInitialRoute" ==> HandleCall(route, name) == Outcome(route, Some(NotImplemented))
  {
  }

  // ---------------------------------------------------------------------
  // Traces

  /** Appending one event to the front is the same as starting from the state after it. */
  lemma {:induction false} PendingAfterFirst(route: Option<string>, e: Event, evs: seq<Event>)
    ensures Pending(Step(route, e).route, evs) == Pending(route, [e] + evs)
    decreases |evs|
  {
    if evs == [] {
      assert [e] + evs == [e];
      assert [e][..0] == [];
    } else {
      var n := |evs|;
      assert ([e] + evs)[n] == evs[n - 1];
      assert ([e] + evs)[..n] == [e] + evs[..n - 1];
      PendingAfterFirst(route, e, evs[..n - 1]);
    }
  }

  /** The pending route after running evs is the one the reference description names. */
  lemma {:induction false} RunIsPending(route: Option<string>, evs: seq<Event>)
    ensures Run(route, evs).route == Pending(route, evs)
    decreases |evs|
  {
    if evs != [] {
      RunIsPending(Step(route, evs[0]).route, evs[1..]);
      PendingAfterFirst(route, evs[0], evs[1..]);
      assert [evs[0]] + evs[1..] == evs;
    }
  }

  /** The reply to the k-th event is the reply of that event in the state the events before it leave. */
  lemma {:induction false} ReplyAt(route: Option<string>, evs: seq<Event>, k: nat)
    requires k < |evs|
    ensures Run(route, evs).replies[k] == Step(Pending(route, evs[..k]), evs[k]).reply
    decreases |evs|
  {
    if k > 0 {
      var r1 := Step(route, evs[0]).route;
      ReplyAt(r1, evs[1..], k - 1);
      assert evs[1..][..k - 1] == evs[1..k];
      PendingAfterFirst(route, evs[0], evs[1..k]);
      assert [evs[0]] + evs[1..k] == evs[..k];
    }
  }

  /** Every getInitialRoute call returns the route pending just before it; other calls are not implemented; intents get no reply. */
  lemma {:induction false} RepliesOfTrace(route: Option<string>, evs: seq<Event>, k: nat)
    requires k < |evs|
    ensures Consumes(evs[k]) ==> Run(route, evs).replies[k] == Some(Success(Pending(route, evs[..k])))
    ensures evs[k].MethodCall? && !Consumes(evs[k]) ==> Run(route, evs).replies[k] == Some(NotImplemented)
    ensures !evs[k].MethodCall? ==> Run(route, evs).replies[k] == None
  {
    ReplyAt(route, evs, k);
  }

  /** After a getInitialRoute call, nothing is pending until the next captured deep link. */
  lemma {:induction false} ClearedUntilNextCapture(route: Option<string>, evs: seq<Event>, i: nat, j: nat)
    requires i < j <= |evs|
    requires Consumes(evs[i])
    requires forall m :: i < m < j ==> !Captures(evs[m])
    ensures Pending(route, evs[..j]) == None
    decreases j
  {
    var p := evs[..j];
    assert p[j - 1] == evs[j - 1];
    assert p[..j - 1] == evs[..j - 1];
    if j - 1 > i {
      ClearedUntilNextCapture(route, evs, i, j - 1);
    }
  }

  /** Two getInitialRoute calls with no captured deep link between them: the second returns nothing. */
  lemma SecondCallReturnsNone(route: Option<string>, evs: seq<Event>, i: nat, j: nat)
    requires i < j < |evs|
    requires Consumes(evs[i]) && Consumes(evs[j])
    requires forall m :: i < m < j ==> !Captures(evs[m])
    ensures Run(route, evs).replies[j] == Some(Success(None))
  {
    ClearedUntilNextCapture(route, evs, i, j);
    RepliesOfTrace(route, evs, j);
  }

  /** Last write wins: after the latest captured deep link, with no getInitialRoute call since, only that link is pending. */
  lemma {:induction false} LatestCaptureIsPending(route: Option<string>, evs: seq<Event>, k: nat, j: nat)
    requires k < j <= |evs|
    requires Captures(evs[k])
    requires forall m :: k < m < j ==> !Captures(evs[m]) && !Consumes(evs[m])
    ensures Pending(route, evs[..j]) == Some(LinkOf(evs[k]))
    decreases j
  {
    var p := evs[..j];
    assert p[j - 1] == evs[j - 1];
    assert p[..j - 1] == evs[..j - 1];
    if j - 1 > k {
      LatestCaptureIsPending(route, evs, k, j - 1);
    }
  }

  /** Last write wins for a whole run: an earlier deep link is overwritten, not queued. */
  lemma LastWriteWins(route: Option<string>, evs: seq<Event>, k: nat)
    requires k < |evs|
    requires Captures(evs[k])
    requires forall m :: k < m < |evs| ==> !Captures(evs[m]) && !Consumes(evs[m])
    ensures Run(route, evs).route == Some(LinkOf(evs[k]))
  {
    LatestCaptureIsPending(route, evs, k, |evs|);
    assert evs[..|evs|] == evs;
    RunIsPending(route, evs);
  }

  /** Events that neither capture nor consume leave the pending route as it was. */
  lemma {:induction false} OtherEventsKeepRoute(route: Option<string>, evs: seq<Event>)
    requires forall m :: 0 <= m < |evs| ==> !Captures(evs[m]) && !Consumes(evs[m])
    ensures Run(route, evs).route == route
    decreases |evs|
  {
    if evs != [] {
      assert Step(route, evs[0]).route == route;
      OtherEventsKeepRoute(route, evs[1..]);
    }
  }

  /**
   * Each captured deep link is handed over at most once: the routes delivered,
   * plus the one still pending, never exceed the links captured plus the one
   * pending at the start.
   */
  lemma {:induction false} DeliveredAtMostOnce(route: Option<string>, evs: seq<Event>)
    ensures var t := Run(route, evs);
            Delivered(t.replies) + Held(t.route) <= CapturedCount(evs) + Held(route)
    decreases |evs|
  {
    if evs != [] {
      var o := Step(route, evs[0]);
      DeliveredAtMostOnce(o.route, evs[1..]);
      var t := Run(o.route, evs[1..]);
      assert Run(route, evs).replies == [o.reply] + t.replies;
      assert ([o.reply] + t.replies)[1..] == t.replies;
    }
  }

  /**
   * Each captured link is delivered at most once: if two replies both hand a
   * route over, a link was captured between the two calls.
   */
  lemma EachLinkDeliveredOnce(route: Option<string>, evs: seq<Event>, i: nat, j: nat)
    requires i < j < |evs|
    requires IsDelivery(Run(route, evs).replies[i]) && IsDelivery(Run(route, evs).replies[j])
    ensures exists m :: i < m < j && Captures(evs[m])
  {
    if forall m :: i < m < j ==> !Captures(evs[m]) {
      RepliesOfTrace(route, evs, i);
      RepliesOfTrace(route, evs, j);
      SecondCallReturnsNone(route, evs, i, j);
      assert false;
    }
  }

  // ---------------------------------------------------------------------
  // Scenarios

  /** A settings link is delivered once; asking again yields nothing. */
  lemma SettingsLinkScenario()
    ensures var link := NewIntent(Intent(Some(Uri(Some("calc"), "calc://open/settings"))));
            Run(None, [link, MethodCall("getInitialRoute"), MethodCall("getInitialRoute")]).replies
            == [None, Some(Success(Some("calc://open/settings"))), Some(Success(None))]
  {
    var link := NewIntent(Intent(Some(Uri(Some("calc"), "calc://open/settings"))));
    var call := MethodCall("getInitialRoute");
    assert [link, call, call][1..] == [call, call];
    assert [call, call][1..] == [call];
    assert Run(None, [call]).replies == [Some(Success(None))];
    assert Run(Some("calc://open/settings"), [call, call]).replies
        == [Some(Success(Some("calc://open/settings"))), Some(Success(None))];
  }

  /** An https link is not a deep link. */
  lemma WebLinkScenario()
    ensures var web := NewIntent(Intent(Some(Uri(Some("https"), "https://example.com"))));
            Run(None, [web, MethodCall("getInitialRoute")]).replies == [None, Some(Success(None))]
  {
  }

  /** Of two links before a call, only the second is delivered. */
  lemma OverwriteScenario()
    ensures var a := NewIntent(Intent(Some(Uri(Some("calc"), "calc://a"))));
            var b := NewIntent(Intent(Some(Uri(Some("calc"), "calc://b"))));
            Run(None, [a, b, MethodCall("getInitialRoute")]).replies == [None, None, Some(Success(Some("calc://b")))]
  {
    var a := NewIntent(Intent(Some(Uri(Some("calc"), "calc://a"))));
    var b := NewIntent(Intent(Some(Uri(Some("calc"), "calc://b"))));
    var call := MethodCall("getInitialRoute");
    assert [a, b, call][1..] == [b, call];
    assert [b, call][1..] == [call];
    assert Run(Some("calc://b"), [call]).replies == [Some(Success(Some("calc://b")))];
    assert Run(Some("calc://a"), [b, call]).replies == [None, Some(Success(Some("calc://b")))];
  }

  /** An unknown method name is not implemented and leaves the pending route in place. */
  lemma UnknownMethodScenario(route: Option<string>)
    ensures Run(route, [MethodCall("foo")]) == Trace(route, [Some(NotImplemented)])
  {
  }
}
