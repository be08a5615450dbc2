/**
 * `DeviceIoT.controlDevice`: an HTTP GET to the ESP32's `/control`
 * endpoint. The endpoint's base is derived from the same URI the telemetry
 * connector opens its WebSocket on (`ws://host:81` becomes
 * `http://host:80`); any failure of the request is swallowed, so the call
 * always completes normally.
 */
module DeviceIot {
  import opened Results
  import opened Strings
  import opened DeviceTypes
  import opened Events
  import opened ErrorHandlerProvider

  const FallbackBase: string := "http://192.168.1.56"
  const RequestTimeoutMs: nat := 5000

  /** The configured URI with its first 'ws://' turned into 'http://' and
      then its first ':81' into ':80'. */
  function Rewrite(uri: string): string {
    ReplaceFirst(ReplaceFirst(uri, "ws://", "http://"), ":81", ":80")
  }

  /** `httpUrl`: the rewritten URI, or the fallback address when the
      variable is unset or the rewrite is falsy. */
  function BaseUrl(uri: Option<string>): (r: string)
    ensures r != ""
    ensures uri.None? ==> r == FallbackBase
    ensures uri.Some? && uri.value != "" ==> r == Rewrite(uri.value)
    ensures uri == Some("") ==> r == FallbackBase
  {
    if uri.None? then FallbackBase
    else
      RewriteEmptyIffEmpty(uri.value);
      var h := Rewrite(uri.value);
      if h == "" then FallbackBase else h
  }

  /** Neither replacement can shorten a string to nothing, so the fallback
      is taken exactly for an unset or empty variable. */
  lemma RewriteEmptyIffEmpty(uri: string)
    ensures Rewrite(uri) == "" <==> uri == ""
  {
    var once := ReplaceFirst(uri, "ws://", "http://");
    assert |once| >= |uri|;
    assert |Rewrite(uri)| == |once|;
    if uri == "" {
      assert forall j: nat :: !OccursAt(uri, "ws://", j);
      assert forall j: nat :: !OccursAt(once, ":81", j);
    }
  }

  /** An address written without a WebSocket scheme or port 81 is used as
      it is. */
  lemma PlainAddressIsKept(uri: string)
    requires uri != ""
    requires forall j: nat :: !OccursAt(uri, "ws://", j)
    requires forall j: nat :: !OccursAt(uri, ":81", j)
    ensures BaseUrl(Some(uri)) == uri
  {
  }

  /** The usual configuration: the board's WebSocket address
      `ws://host:81` becomes its HTTP address `http://host:80`. */
  lemma WebSocketAddressBecomesHttp(host: string)
    requires ':' !in host
    ensures BaseUrl(Some("ws://" + host + ":81")) == "http://" + host + ":80"
  {
    var uri := "ws://" + host + ":81";
    assert uri[..5] == "ws://";
    assert OccursAt(uri, "ws://", 0);
    var once := "http://" + host + ":81";
    assert uri[5..] == host + ":81";
    assert ReplaceFirst(uri, "ws://", "http://") == once;
    var at := 7 + |host|;
    assert once[at..at + 3] == ":81";
    assert once[..7] == "http://";
    forall j | 0 <= j < at
      ensures !OccursAt(once, ":81", j)
    {
      if j < 7 {
        assert once[j] == "http://"[j];
        assert j == 4 ==> once[j + 1] == '/';
      } else {
        assert once[j] == host[j - 7];
      }
      NotOccursAt(once, ":81", j);
    }
    assert once[..at] == "http://" + host;
    assert once[at + 3..] == [];
  }

  /** A pattern does not occur where its first two characters do not. */
  lemma NotOccursAt(s: string, pat: string, j: nat)
    requires |pat| >= 2 && j + 1 < |s|
    requires s[j] != pat[0] || s[j + 1] != pat[1]
    ensures !OccursAt(s, pat, j)
  {
    if j + |pat| <= |s| {
      assert s[j..j + |pat|][0] == s[j] && s[j..j + |pat|][1] == s[j + 1];
    }
  }

  /** `espUrl`: the base, then the device id in decimal and the lower-case
      state as the query. */
  function ControlUrl(uri: Option<string>, id: nat, s: DeviceState): string {
    BaseUrl(uri) + "/control?id=" + IdAndState(id, s)
  }

  function IdAndState(id: nat, s: DeviceState): string {
    NatToString(id) + "&state=" + StateText(s)
  }

  /** Distinct commands never share a URL: the id and the state can be read
      back from it. */
  lemma ControlUrlInjective(uri: Option<string>, a: nat, s: DeviceState, b: nat, t: DeviceState)
    requires ControlUrl(uri, a, s) == ControlUrl(uri, b, t)
    ensures a == b && s == t
  {
    var prefix := BaseUrl(uri) + "/control?id=";
    assert IdAndState(a, s) == ControlUrl(uri, a, s)[|prefix|..];
    assert IdAndState(b, t) == ControlUrl(uri, b, t)[|prefix|..];
    QueryInjective(NatToString(a), StateText(s), NatToString(b), StateText(t));
    NatToStringInjective(a, b);
  }

  /** A run of digits ends at the '&', so the two query tails split alike. */
  lemma QueryInjective(x: string, u: string, y: string, v: string)
    requires AllDigits(x) && AllDigits(y)
    requires x + "&state=" + u == y + "&state=" + v
    ensures x == y && u == v
  {
    var tail := x + "&state=" + u;
    LeadingDigitsOf(x, "&state=" + u);
    LeadingDigitsOf(y, "&state=" + v);
    assert tail == x + ("&state=" + u) == y + ("&state=" + v);
    assert |x| == |y|;
    assert x == tail[..|x|];
    assert y == (y + "&state=" + v)[..|y|];
    assert u == tail[|x| + 7..];
    assert v == (y + "&state=" + v)[|y| + 7..];
  }

  /** The length of the run of digits `s` starts with. */
  function LeadingDigits(s: string): (n: nat)
    ensures n <= |s| && AllDigits(s[..n])
  {
    if s == [] || !IsDigit(s[0]) then 0
    else
      var n := 1 + LeadingDigits(s[1..]);
      assert s[..n] == [s[0]] + s[1..][..n - 1];
      n
  }

  lemma {:induction false} LeadingDigitsOf(x: string, rest: string)
    requires AllDigits(x) && rest != [] && !IsDigit(rest[0])
    ensures LeadingDigits(x + rest) == |x|
  {
    if x != [] {
      assert (x + rest)[1..] == x[1..] + rest;
      LeadingDigitsOf(x[1..], rest);
    }
  }

  /** `controlDevice`: records the GET request with its 5 s timeout. Whether
      the request fails (`requestFails`) makes no difference: the failure is
      caught and logged inside the wrapped function, so the wrapper returns
      normally. */
  method ControlDevice(bus: EventBus, uri: Option<string>, id: nat, s: DeviceState, requestFails: bool)
    returns (r: Outcome<()>)
    modifies bus
    ensures r == Returned(())
    ensures bus.events == old(bus.events) + [ControlRequest(ControlUrl(uri, id, s), RequestTimeoutMs)]
  {
    var httpUrl := BaseUrl(uri);
    var espUrl := httpUrl + "/control?id=" + IdAndState(id, s);
    bus.Emit(ControlRequest(espUrl, RequestTimeoutMs));
    if requestFails {
      // the error is logged and not rethrown
    }
    r := Returned(());
  }
}
