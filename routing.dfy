/**
 * Which destination the app bar shows: the current back-stack route, cut
 * at its first `'/'` (the route arguments), looked up by exact equality in
 * `AppDestinations`, falling back to the start screen.
 */
module Routing {
  import opened Wrappers
  import opened KotlinStrings
  import opened Destinations

  /** `route?.substringBefore('/')`: a missing route stays missing. */
  function RouteWithoutArgs(route: Option<string>): (r: Option<string>)
    ensures r.None? <==> route.None?
    ensures route.Some? ==> '/' !in r.value && |r.value| <= |route.value| && route.value[..|r.value|] == r.value
    ensures route.Some? && |r.value| < |route.value| ==> route.value[|r.value|] == '/'
    ensures route.Some? && '/' !in route.value ==> r == route
  {
    match route
    case None => None
    case Some(s) => Some(SubstringBefore(s, '/'))
  }

  /** The predicate passed to `find`: `it.route == routeWithoutArgs`. */
  predicate Matches(d: Destination, key: Option<string>)
  {
    key == Some(d.Route())
  }

  /** `ds.find { Matches(it, key) }`: the first matching destination, if any. */
  function Find(ds: seq<Destination>, key: Option<string>): (r: Option<Destination>)
    ensures r.None? <==> forall i :: 0 <= i < |ds| ==> !Matches(ds[i], key)
    ensures r.Some? ==> exists i :: 0 <= i < |ds| && ds[i] == r.value && Matches(ds[i], key) &&
                                    forall j :: 0 <= j < i ==> !Matches(ds[j], key)
  {
    if |ds| == 0 then None
    else if Matches(ds[0], key) then Some(ds[0])
    else
      var r := Find(ds[1..], key);
      assert forall i :: 1 <= i < |ds| ==> ds[i] == ds[1..][i - 1];
      r
  }

  /** The `currentDestination` computed from the back-stack entry's route. */
  function CurrentDestination(route: Option<string>): (d: Destination)
    ensures d in AppDestinations
    ensures RouteWithoutArgs(route) == Some(d.Route()) ||
            (d == StartDestination && forall e: Destination :: RouteWithoutArgs(route) != Some(e.Route()))
    ensures route.None? ==> d == StartDestination
  {
    var r := Find(AppDestinations, RouteWithoutArgs(route));
    if r.Some? then r.value
    else
      NoDestinationMatches(RouteWithoutArgs(route));
      StartDestination
  }

  /** A key that `Find` does not match in `AppDestinations` is no destination's route. */
  lemma NoDestinationMatches(key: Option<string>)
    requires Find(AppDestinations, key).None?
    ensures forall e: Destination :: key != Some(e.Route())
  {
    AppDestinationsShape();
    forall e: Destination ensures key != Some(e.Route()) {
      assert e in AppDestinations;
      var i :| 0 <= i < |AppDestinations| && AppDestinations[i] == e;
    }
  }

  /**
   * The resolved destination is the one whose route is the part before the
   * first `'/'`, and the start screen exactly when no route is that part.
   */
  lemma ResolutionCharacterised(route: Option<string>, d: Destination)
    ensures CurrentDestination(route) == d <==>
      (RouteWithoutArgs(route) == Some(d.Route()) ||
       (d == StartDestination && forall e: Destination :: RouteWithoutArgs(route) != Some(e.Route())))
  {
    AppDestinationsShape();
    var key := RouteWithoutArgs(route);
    var r := Find(AppDestinations, key);
    if r.Some? {
      RoutesDistinct(r.value, d);
    } else {
      NoDestinationMatches(key);
    }
  }

  /** With no back-stack entry or no route, the start screen is shown. */
  lemma NullRouteIsStart()
    ensures CurrentDestination(None) == StartDestination
  {
  }

  /** Navigating to a destination's route resolves to that destination. */
  lemma RouteResolvesToItself(d: Destination)
    ensures CurrentDestination(Some(d.Route())) == d
  {
    NoRouteHasSlash(d);
    ResolutionCharacterised(Some(d.Route()), d);
  }

  /** So does a route followed by `'/'` and arguments. */
  lemma RouteWithArgsResolvesToItself(d: Destination, args: string)
    ensures CurrentDestination(Some(d.Route() + "/" + args)) == d
  {
    NoRouteHasSlash(d);
    SubstringBeforeAppend(d.Route(), '/', args);
    ResolutionCharacterised(Some(d.Route() + "/" + args), d);
  }

  /** Route comparison is case-sensitive. */
  lemma RouteLookupIsCaseSensitive(exact: string, lower: string)
    requires exact == "BarcodeScanning" && lower == "barcodescanning"
    ensures CurrentDestination(Some(exact)) == BarcodeScanningDestination
    ensures CurrentDestination(Some(lower)) == StartDestination
  {
    RouteResolvesToItself(BarcodeScanningDestination);
    assert '/' !in lower;
    assert forall e: Destination :: lower != e.Route() by {
      forall e: Destination ensures lower != e.Route() {
        assert lower[0] != e.Route()[0] || lower[1] != e.Route()[1] || |lower| != |e.Route()|;
      }
    }
    ResolutionCharacterised(Some(lower), StartDestination);
  }
}
