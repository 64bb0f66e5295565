/**
 * MainActivity's deep-link state: the nullable field `initialRoute`, updated
 * in place by handleIntent and cleared by the deep-link channel's handler.
 */
module MainActivity {
  import opened Wrappers
  import opened DeepLink

  class DeepLinkBridge {
    /** The pending route; null (None) until a deep link arrives. */
    var initialRoute: Option<string>

    constructor ()
      ensures initialRoute == None
    {
      initialRoute := None;
    }

    /** Store the data URI's string form when it is present and its scheme is exactly "calc". */
    method HandleIntent(intent: Option<Intent>)
      modifies this
      ensures IsDeepLink(DataOf(intent)) ==> initialRoute == Some(DataOf(intent).value.text)
      ensures !IsDeepLink(DataOf(intent)) ==> initialRoute == old(initialRoute)
      ensures initialRoute == HandleIntentRoute(old(initialRoute), intent)
    {
      var uri: Option<Uri> := if intent.Some? then intent.value.data else None;
      if uri.Some? && uri.value.scheme == Some(DeepLinkScheme) {
        initialRoute := Some(uri.value.text);
      }
    }

    /** configureFlutterEngine: look at the intent the activity was started with. */
    method ConfigureFlutterEngine(current: Option<Intent>)
      modifies this
      ensures Step(old(initialRoute), Configure(current)) == Outcome(initialRoute, None)
    {
      HandleIntent(current);
    }

    /** onNewIntent: the same rule for an intent that arrives while the activity runs. */
    method OnNewIntent(intent: Intent)
      modifies this
      ensures Step(old(initialRoute), NewIntent(intent)) == Outcome(initialRoute, None)
    {
      HandleIntent(Some(intent));
    }

    /** The deep-link channel's method-call handler. */
    method OnMethodCall(name: string) returns (r: Response)
      modifies this
      ensures name == GetInitialRoute ==> r == Success(old(initialRoute)) && initialRoute == None
      ensures name != GetInitialRoute ==> r == NotImplemented && initialRoute == old(initialRoute)
      ensures Step(old(initialRoute), MethodCall(name)) == Outcome(initialRoute, Some(r))
    {
      if name == GetInitialRoute {
        r := Success(initialRoute);
        initialRoute := None;
      } else {
        r := NotImplemented;
      }
    }
  }

  /** What a caller can conclude from the contracts above alone. */
  method BridgeClient(x: string, y: string)
  {
    var b := new DeepLinkBridge();
    b.OnNewIntent(Intent(Some(Uri(Some("calc"), x))));
    b.ConfigureFlutterEngine(Some(Intent(Some(Uri(Some("calc"), y)))));
    b.OnNewIntent(Intent(Some(Uri(Some("https"), "https://example.com"))));
    var r := b.OnMethodCall("foo");
    assert r == NotImplemented;
    r := b.OnMethodCall("getInitialRoute");
    assert r == Success(Some(y));
    r := b.OnMethodCall("getInitialRoute");
    assert r == Success(None);
  }
}
