/**
 * The request the skill sends to the transit agency's arrivals service: a
 * fixed host, and a path made of a fixed base, the direction number, the
 * stop code and a fixed format argument (`httpGet`). Eastbound trains are
 * asked for with direction 2 and the station's `e` code, westbound trains
 * with direction 3 and its `w` code.
 */
module Upstream {
  import opened Text
  import opened Stations

  const ApiHost: string := "svc.metrotransit.org"
  const ApiPath: string := "/nextrip/902/"
  const ApiArgs: string := "?format=json"

  datatype Direction = Eastbound | Westbound

  /** The direction number the arrivals service expects. */
  function DirectionNumber(d: Direction): nat {
    match d
    case Eastbound => 2
    case Westbound => 3
  }

  /** The stop code the table gives a station for one direction. */
  function StopCode(d: Direction, codes: Codes): string {
    match d
    case Eastbound => codes.e
    case Westbound => codes.w
  }

  /** An HTTP GET request: host and path. */
  datatype Get = Get(host: string, path: string)

  /** The request path for a direction number and a stop code. */
  function RequestPath(direction: nat, station: string): string {
    ApiPath + Decimal(direction) + "/" + station + ApiArgs
  }

  /** The request `getNextTrains` issues for one direction of a station. */
  function ArrivalsRequest(d: Direction, codes: Codes): (g: Get)
    ensures g.host == ApiHost
    ensures d == Eastbound ==> g.path == ApiPath + "2/" + codes.e + ApiArgs
    ensures d == Westbound ==> g.path == ApiPath + "3/" + codes.w + ApiArgs
  {
    Get(ApiHost, RequestPath(DirectionNumber(d), StopCode(d, codes)))
  }

  predicate NoSlash(s: string) {
    forall i :: 0 <= i < |s| ==> s[i] != '/'
  }

  /** Splitting at the first slash is unambiguous when the first part has none. */
  lemma SplitAtSlash(a: string, b: string, a': string, b': string)
    requires NoSlash(a) && NoSlash(a')
    requires a + "/" + b == a' + "/" + b'
    ensures a == a' && b == b'
  {
    var x := a + "/" + b;
    assert x[|a|] == '/' && x[|a'|] == '/';
    assert |a| == |a'|;
    assert a == x[..|a|];
    assert b == x[|a| + 1..];
  }

  /**
   * The path determines the direction number and the stop code: two requests
   * that differ in either go to different paths.
   */
  lemma RequestPathInjective(d: nat, s: string, d': nat, s': string)
    requires RequestPath(d, s) == RequestPath(d', s')
    ensures d == d' && s == s'
  {
    var m, m' := Decimal(d) + "/" + s, Decimal(d') + "/" + s';
    var p, p' := RequestPath(d, s), RequestPath(d', s');
    assert p == ApiPath + m + ApiArgs;
    assert p' == ApiPath + m' + ApiArgs;
    assert |m| == |m'|;
    assert m == p[|ApiPath|..|ApiPath| + |m|];
    assert m' == p'[|ApiPath|..|ApiPath| + |m'|];
    SplitAtSlash(Decimal(d), s, Decimal(d'), s');
    DecimalInjective(d, d');
  }

  /**
   * For every station the eastbound and westbound requests differ, even
   * where the table gives the same stop code for both directions.
   */
  lemma DirectionsAskDifferently(codes: Codes)
    ensures ArrivalsRequest(Eastbound, codes) != ArrivalsRequest(Westbound, codes)
  {
    if ArrivalsRequest(Eastbound, codes) == ArrivalsRequest(Westbound, codes) {
      RequestPathInjective(2, codes.e, 3, codes.w);
    }
  }

  /** Different stop codes in one direction are different requests. */
  lemma StopCodesAskDifferently(d: Direction, c: Codes, c': Codes)
    requires StopCode(d, c) != StopCode(d, c')
    ensures ArrivalsRequest(d, c) != ArrivalsRequest(d, c')
  {
    if ArrivalsRequest(d, c) == ArrivalsRequest(d, c') {
      RequestPathInjective(DirectionNumber(d), StopCode(d, c), DirectionNumber(d), StopCode(d, c'));
    }
  }
}
