/** AGENT_PORTS and AGENT_ROUTES: what is accepted, and the parsing loops. */
module RouteParser {
  import opened Frames
  import opened Text
  import TunnelId

  const MAX_PORT: nat := 65535

  datatype Route = Route(localPort: nat, targetTunnelId: string, targetPort: nat)

  predicate IsPort(n: nat) {
    1 <= n <= MAX_PORT
  }

  predicate IsRoute(r: Route) {
    IsPort(r.localPort) && TunnelId.IsTunnelId(r.targetTunnelId) && IsPort(r.targetPort)
  }

  // ---------------------------------------------------------------------------
  // What one entry means. None stands for the exception thrown.
  // ---------------------------------------------------------------------------

  /** A port token: optional white space around decimal digits, leading zeros allowed. */
  function ParsePort(raw: string): (r: Option<nat>)
    ensures r.Some? ==> IsPort(r.value)
  {
    var token := TunnelId.Trim(raw);
    if !IsDigits(token) then None
    else if IsPort(Value(token)) then Some(Value(token)) else None
  }

  /** targetTunnelId:targetPort */
  function ParseTarget(raw: string): (r: Option<(string, nat)>)
    ensures r.Some? ==> TunnelId.IsTunnelId(r.value.0) && IsPort(r.value.1)
  {
    var spec := TunnelId.Trim(raw);
    var colon := LastIndexOf(spec, ':');
    if colon.None? || colon.value == 0 || colon.value == |spec| - 1 then None
    else
      var id := TunnelId.Normalize(spec[..colon.value]);
      var port := ParsePort(spec[colon.value + 1..]);
      if id.None? || id.value == "" || port.None? then None else Some((id.value, port.value))
  }

  /** localPort=targetTunnelId:targetPort */
  function ParseEntry(raw: string): (r: Option<Route>)
    ensures r.Some? ==> IsRoute(r.value)
  {
    var entry := TunnelId.Trim(raw);
    var eq := IndexOf(entry, '=');
    if entry == "" || eq.None? || eq.value == 0 || eq.value == |entry| - 1 then None
    else
      var localPort := ParsePort(entry[..eq.value]);
      var target := ParseTarget(entry[eq.value + 1..]);
      if localPort.None? || target.None? then None else Some(Route(localPort.value, target.value.0, target.value.1))
  }

  // ---------------------------------------------------------------------------
  // The spellings that are accepted
  // ---------------------------------------------------------------------------

  /** Decimal digits with white space around them, of a value from 1 to 65535. */
  ghost predicate SpellsPort(raw: string, n: nat) {
    exists t :: TunnelId.TrimsTo(raw, t) && IsDigits(t) && Value(t) == n && 1 <= n <= 65535
  }

  /** A tunnel id, the last colon, and a port, each with white space around it. */
  ghost predicate SpellsTarget(raw: string, id: string, port: nat) {
    exists t, a, b :: TunnelId.TrimsTo(raw, t) && t == a + [':'] + b && ':' !in b && SpellsIdAndPort(a, b, id, port)
  }

  ghost predicate SpellsIdAndPort(a: string, b: string, id: string, port: nat) {
    TunnelId.TrimsTo(a, id) && TunnelId.IsTunnelId(id) && SpellsPort(b, port)
  }

  /** A port, the first equals sign, and a target. */
  ghost predicate SpellsRoute(raw: string, r: Route) {
    exists t, a, b :: TunnelId.TrimsTo(raw, t) && t == a + ['='] + b && '=' !in a && SpellsPortAndTarget(a, b, r)
  }

  ghost predicate SpellsPortAndTarget(a: string, b: string, r: Route) {
    SpellsPort(a, r.localPort) && SpellsTarget(b, r.targetTunnelId, r.targetPort)
  }

  lemma ParsePortIff(raw: string, n: nat)
    ensures ParsePort(raw) == Some(n) <==> SpellsPort(raw, n)
  {
    TunnelId.TrimIs(raw);
    if SpellsPort(raw, n) {
      var t :| TunnelId.TrimsTo(raw, t) && IsDigits(t) && Value(t) == n && 1 <= n <= 65535;
      TunnelId.TrimUnique(raw, t, TunnelId.Trim(raw));
    }
  }

  lemma BlankSpellsNothing(n: nat)
    ensures !SpellsPort("", n) && !TunnelId.IsTunnelId("")
  {
    ParsePortIff("", n);
  }

  lemma ParseTargetIff(raw: string, id: string, port: nat)
    ensures ParseTarget(raw) == Some((id, port)) <==> SpellsTarget(raw, id, port)
  {
    hide ParsePort, SpellsPort, TunnelId.TrimsTo, TunnelId.IsTunnelId, TunnelId.Normalize, TunnelId.Trim;
    var spec := TunnelId.Trim(raw);
    TunnelId.TrimIs(raw);
    if ParseTarget(raw) == Some((id, port)) {
      var k := LastIndexOf(spec, ':').value;
      var a, b := spec[..k], spec[k + 1..];
      ParsePortIff(b, port);
      TunnelId.NormalizeIff(a, id);
      assert spec == a + [':'] + b;
      assert SpellsIdAndPort(a, b, id, port);
    }
    if SpellsTarget(raw, id, port) {
      var t, a, b :| TunnelId.TrimsTo(raw, t) && t == a + [':'] + b && ':' !in b && SpellsIdAndPort(a, b, id, port);
      TunnelId.TrimUnique(raw, t, spec);
      LastIndexOfLast(a, ':', b);
      ParsePortIff(b, port);
      Normalizes(a, id);
      BlankSpellsNothing(port);
      BlankCore(a, id);
      assert spec[..|a|] == a && spec[|a| + 1..] == b;
    }
  }

  lemma Normalizes(a: string, id: string)
    requires TunnelId.TrimsTo(a, id) && TunnelId.IsTunnelId(id)
    ensures TunnelId.Normalize(a) == Some(id)
  {
    TunnelId.TrimIs(a);
    TunnelId.TrimUnique(a, id, TunnelId.Trim(a));
  }

  lemma BlankCore(a: string, id: string)
    requires TunnelId.TrimsTo(a, id) && TunnelId.IsTunnelId(id)
    ensures a != ""
  {
  }

  /** An entry is accepted exactly if it spells a route, and is that route. */
  lemma ParseEntryIff(raw: string, r: Route)
    ensures ParseEntry(raw) == Some(r) <==> SpellsRoute(raw, r)
  {
    hide ParsePort, ParseTarget, SpellsPort, SpellsTarget, TunnelId.TrimsTo, TunnelId.Trim;
    var entry := TunnelId.Trim(raw);
    TunnelId.TrimIs(raw);
    if ParseEntry(raw) == Some(r) {
      var k := IndexOf(entry, '=').value;
      var a, b := entry[..k], entry[k + 1..];
      ParsePortIff(a, r.localPort);
      ParseTargetIff(b, r.targetTunnelId, r.targetPort);
      assert entry == a + ['='] + b;
      assert SpellsPortAndTarget(a, b, r);
    }
    if SpellsRoute(raw, r) {
      var t, a, b :| TunnelId.TrimsTo(raw, t) && t == a + ['='] + b && '=' !in a && SpellsPortAndTarget(a, b, r);
      TunnelId.TrimUnique(raw, t, entry);
      IndexOfFirst(a, '=', b);
      ParsePortIff(a, r.localPort);
      ParseTargetIff(b, r.targetTunnelId, r.targetPort);
      BlankSpellsNothing(r.localPort);
      BlankTarget(r.targetTunnelId, r.targetPort);
      assert entry[..|a|] == a && entry[|a| + 1..] == b;
    }
  }

  lemma BlankTarget(id: string, port: nat)
    ensures !SpellsTarget("", id, port)
  {
    ParseTargetIff("", id, port);
    TunnelId.TrimOk("");
  }

  // ---------------------------------------------------------------------------
  // Lists without duplicates
  // ---------------------------------------------------------------------------

  /** All entries parsed in order, as long as each parses and no key comes twice; `seen` are the keys so far. */
  function ParseList<T>(entries: seq<string>, parse: string -> Option<T>, key: T -> nat, seen: set<nat>): Option<seq<T>> {
    if |entries| == 0 then Some([])
    else
      var first := parse(entries[0]);
      if first.None? || key(first.value) in seen then None
      else
        var rest := ParseList(entries[1..], parse, key, seen + {key(first.value)});
        if rest.None? then None else Some([first.value] + rest.value)
  }

  function Itself(n: nat): nat {
    n
  }

  function LocalPort(r: Route): nat {
    r.localPort
  }

  function PortList(tokens: seq<string>, seen: set<nat>): Option<seq<nat>> {
    ParseList(tokens, ParsePort, Itself, seen)
  }

  function RouteList(entries: seq<string>, seen: set<nat>): Option<seq<Route>> {
    ParseList(entries, ParseEntry, LocalPort, seen)
  }

  function ParsePorts(raw: string): Option<seq<nat>> {
    if TunnelId.Trim(raw) == "" then None else PortList(Split(raw, ','), {})
  }

  function ParseRoutes(raw: string): Option<seq<Route>> {
    if TunnelId.Trim(raw) == "" then None else RouteList(Split(raw, ','), {})
  }

  ghost predicate Distinct<T(!new)>(items: seq<T>, key: T -> nat) {
    forall i, j :: 0 <= i < j < |items| ==> key(items[i]) != key(items[j])
  }

  /** The list is accepted exactly when every entry parses and the keys are new and distinct. */
  lemma {:induction false} ParseListIff<T(!new)>(entries: seq<string>, parse: string -> Option<T>, key: T -> nat, seen: set<nat>)
    ensures ParseList(entries, parse, key, seen).Some? <==>
            && (forall i :: 0 <= i < |entries| ==> parse(entries[i]).Some? && key(parse(entries[i]).value) !in seen)
            && (forall i, j :: 0 <= i < j < |entries| ==> key(parse(entries[i]).value) != key(parse(entries[j]).value))
    ensures var r := ParseList(entries, parse, key, seen);
            r.Some? ==> |r.value| == |entries| && forall i :: 0 <= i < |entries| ==> Some(r.value[i]) == parse(entries[i])
  {
    if |entries| > 0 {
      var first := parse(entries[0]);
      var tail := entries[1..];
      assert forall i :: 0 < i < |entries| ==> entries[i] == tail[i - 1];
      if first.Some? && key(first.value) !in seen {
        ParseListIff(tail, parse, key, seen + {key(first.value)});
        if ParseList(tail, parse, key, seen + {key(first.value)}).None? {
          ParseListFails(entries, parse, key, seen);
        }
      }
    }
  }

  /** If the tail is refused, so is the whole: an entry of the tail is bad, or its key was there before. */
  lemma ParseListFails<T(!new)>(entries: seq<string>, parse: string -> Option<T>, key: T -> nat, seen: set<nat>)
    requires |entries| > 0 && parse(entries[0]).Some?
    requires var seen' := seen + {key(parse(entries[0]).value)}; var tail := entries[1..];
             !((forall i :: 0 <= i < |tail| ==> parse(tail[i]).Some? && key(parse(tail[i]).value) !in seen')
               && (forall i, j :: 0 <= i < j < |tail| ==> key(parse(tail[i]).value) != key(parse(tail[j]).value)))
    ensures !((forall i :: 0 <= i < |entries| ==> parse(entries[i]).Some? && key(parse(entries[i]).value) !in seen)
              && (forall i, j :: 0 <= i < j < |entries| ==> key(parse(entries[i]).value) != key(parse(entries[j]).value)))
  {
    var tail := entries[1..];
    assert forall i :: 0 <= i < |tail| ==> tail[i] == entries[i + 1];
  }

  // ---------------------------------------------------------------------------
  // The parsing loops
  // ---------------------------------------------------------------------------

  /** What a loop still has to find, added to what it has. */
  function Found<T>(items: seq<T>, rest: Option<seq<T>>): Option<seq<T>> {
    if rest.None? then None else Some(items + rest.value)
  }

  lemma ListNext<T>(items: seq<T>, entries: seq<string>, i: nat, parse: string -> Option<T>, key: T -> nat, seen: set<nat>)
    requires i < |entries|
    ensures parse(entries[i]).None? || key(parse(entries[i]).value) in seen ==> Found(items, ParseList(entries[i..], parse, key, seen)) == None
    ensures parse(entries[i]).Some? && key(parse(entries[i]).value) !in seen ==>
              var x := parse(entries[i]).value;
              Found(items, ParseList(entries[i..], parse, key, seen)) == Found(items + [x], ParseList(entries[i + 1..], parse, key, seen + {key(x)}))
  {
    assert entries[i..][1..] == entries[i + 1..];
    if parse(entries[i]).Some? && key(parse(entries[i]).value) !in seen {
      var x := parse(entries[i]).value;
      var rest := ParseList(entries[i + 1..], parse, key, seen + {key(x)});
      if rest.Some? { assert items + ([x] + rest.value) == items + [x] + rest.value; }
    }
  }

  lemma PortNext(ports: seq<nat>, tokens: seq<string>, i: nat, seen: set<nat>)
    requires i < |tokens|
    ensures var p := ParsePort(tokens[i]);
            Found(ports, PortList(tokens[i..], seen)) ==
            if p.None? || p.value in seen then None else Found(ports + [p.value], PortList(tokens[i + 1..], seen + {p.value}))
  {
    ListNext(ports, tokens, i, ParsePort, Itself, seen);
  }

  lemma RouteNext(routes: seq<Route>, entries: seq<string>, i: nat, seen: set<nat>)
    requires i < |entries|
    ensures var r := ParseEntry(entries[i]);
            Found(routes, RouteList(entries[i..], seen)) ==
            if r.None? || r.value.localPort in seen then None else Found(routes + [r.value], RouteList(entries[i + 1..], seen + {r.value.localPort}))
  {
    ListNext(routes, entries, i, ParseEntry, LocalPort, seen);
  }

  /** Before the first entry there is everything to find, past the last one nothing. */
  lemma ListEnds(entries: seq<string>)
    ensures Found([], PortList(entries[0..], {})) == PortList(entries, {}) && Found([], RouteList(entries[0..], {})) == RouteList(entries, {})
    ensures forall ports, seen :: Found(ports, PortList(entries[|entries|..], seen)) == Some(ports)
    ensures forall routes, seen :: Found(routes, RouteList(entries[|entries|..], seen)) == Some(routes)
  {
    assert entries[0..] == entries;
    assert forall ports: seq<nat> :: ports + [] == ports && [] + ports == ports;
    assert forall routes: seq<Route> :: routes + [] == routes && [] + routes == routes;
  }

  /** parseAgentPorts */
  method ParseAgentPorts(raw: string) returns (r: Option<seq<nat>>)
    ensures r == ParsePorts(raw)
  {
    hide TunnelId.Trim, PortList, Split, Value, Found;
    ListEnds(Split(raw, ','));
    if TunnelId.Trim(raw) == "" {
      return None;
    }
    var tokens := Split(raw, ',');
    var ports: seq<nat>, seen: set<nat> := [], {};
    for i := 0 to |tokens|
      invariant ParsePorts(raw) == Found(ports, PortList(tokens[i..], seen))
    {
      PortNext(ports, tokens, i, seen);
      var token := TunnelId.Trim(tokens[i]);
      if token == "" {
        return None;
      }
      if !IsDigits(token) {
        return None;
      }
      var port := Value(token);
      if port < 1 || port > MAX_PORT {
        return None;
      }
      if port in seen {
        return None;
      }
      seen := seen + {port};
      ports := ports + [port];
    }
    return Some(ports);
  }

  /** The body of parseAgentRoutes' loop: one entry, whose local port must be new. */
  method ParseAgentRoute(raw: string, seenLocalPorts: set<nat>) returns (r: Option<Route>)
    ensures r == if ParseEntry(raw).Some? && ParseEntry(raw).value.localPort !in seenLocalPorts then ParseEntry(raw) else None
  {
    hide TunnelId.Trim, TunnelId.Normalize, TunnelId.IsTunnelId, IndexOf, LastIndexOf, ParsePort;
    var entry := TunnelId.Trim(raw);
    if entry == "" {
      return None;
    }
    var eq := IndexOf(entry, '=');
    if eq.None? || eq.value == 0 || eq.value == |entry| - 1 {
      return None;
    }
    var localPort := ParsePort(entry[..eq.value]);
    if localPort.None? {
      return None;
    }
    if localPort.value in seenLocalPorts {
      return None;
    }
    var targetSpec := TunnelId.Trim(entry[eq.value + 1..]);
    var colon := LastIndexOf(targetSpec, ':');
    if colon.None? || colon.value == 0 || colon.value == |targetSpec| - 1 {
      return None;
    }
    var targetTunnelId := TunnelId.Normalize(targetSpec[..colon.value]);
    if targetTunnelId.None? || targetTunnelId.value == "" {
      return None;
    }
    var targetPort := ParsePort(targetSpec[colon.value + 1..]);
    if targetPort.None? {
      return None;
    }
    return Some(Route(localPort.value, targetTunnelId.value, targetPort.value));
  }

  /** parseAgentRoutes */
  method ParseAgentRoutes(raw: string) returns (r: Option<seq<Route>>)
    ensures r == ParseRoutes(raw)
  {
    hide TunnelId.Trim, ParseEntry, RouteList, Split, Found;
    ListEnds(Split(raw, ','));
    if TunnelId.Trim(raw) == "" {
      return None;
    }
    var entries := Split(raw, ',');
    var routes: seq<Route>, seenLocalPorts: set<nat> := [], {};
    for i := 0 to |entries|
      invariant ParseRoutes(raw) == Found(routes, RouteList(entries[i..], seenLocalPorts))
    {
      RouteNext(routes, entries, i, seenLocalPorts);
      var route := ParseAgentRoute(entries[i], seenLocalPorts);
      if route.None? {
        return None;
      }
      seenLocalPorts := seenLocalPorts + {route.value.localPort};
      routes := routes + [route.value];
    }
    return Some(routes);
  }

  // ---------------------------------------------------------------------------
  // Canonical form and round trips
  // ---------------------------------------------------------------------------

  function RenderTarget(r: Route): string {
    r.targetTunnelId + [':'] + Numeral(r.targetPort)
  }

  function RenderRoute(r: Route): string {
    Numeral(r.localPort) + ['='] + RenderTarget(r)
  }

  function Rendered(routes: seq<Route>): seq<string> {
    seq(|routes|, i requires 0 <= i < |routes| => RenderRoute(routes[i]))
  }

  function RenderRoutes(routes: seq<Route>): string
    requires routes != []
  {
    Join(Rendered(routes), ',')
  }

  function RenderPorts(ports: seq<nat>): string
    requires ports != []
  {
    Join(seq(|ports|, i requires 0 <= i < |ports| => Numeral(ports[i])), ',')
  }

  ghost predicate ValidRoutes(routes: seq<Route>) {
    routes != [] && (forall i :: 0 <= i < |routes| ==> IsRoute(routes[i])) && Distinct(routes, LocalPort)
  }

  ghost predicate ValidPorts(ports: seq<nat>) {
    ports != [] && (forall i :: 0 <= i < |ports| ==> IsPort(ports[i])) && Distinct(ports, Itself)
  }

  lemma PortRoundTrip(n: nat)
    requires IsPort(n)
    ensures ParsePort(Numeral(n)) == Some(n)
  {
    DigitsPlain(Numeral(n));
    NumeralValue(n);
  }

  lemma TunnelIdPlain(id: string)
    requires TunnelId.IsTunnelId(id)
    ensures !TunnelId.IsSpace(id[0]) && ',' !in id && '=' !in id
  {
  }

  /** Text that starts and ends visibly is left alone by trim. */
  predicate Visible(s: string) {
    s != "" && !TunnelId.IsSpace(s[0]) && !TunnelId.IsSpace(s[|s| - 1])
  }

  lemma RenderVisible(r: Route)
    requires IsRoute(r)
    ensures Visible(RenderRoute(r)) && ',' !in RenderRoute(r) && Visible(RenderTarget(r))
  {
    hide Numeral;
    var local, target := Numeral(r.localPort), Numeral(r.targetPort);
    TunnelIdPlain(r.targetTunnelId);
    assert IsDigit(local[0]) && IsDigit(target[|target| - 1]);
    assert ',' !in local && ',' !in target;
  }

  lemma TargetRoundTrip(r: Route)
    requires IsRoute(r)
    ensures ParseTarget(RenderTarget(r)) == Some((r.targetTunnelId, r.targetPort))
  {
    hide TunnelId.Trim, TunnelId.Normalize, TunnelId.IsTunnelId, LastIndexOf, ParsePort, Numeral;
    var id, target, spec := r.targetTunnelId, Numeral(r.targetPort), RenderTarget(r);
    RenderVisible(r);
    DigitsPlain(target);
    PortRoundTrip(r.targetPort);
    LastIndexOfLast(id, ':', target);
    TunnelIdNotEmpty(id);
    TunnelId.TrimOk(spec);
    assert spec[..|id|] == id && spec[|id| + 1..] == target;
  }

  lemma TunnelIdNotEmpty(id: string)
    requires TunnelId.IsTunnelId(id)
    ensures id != ""
  {
  }

  lemma EntryRoundTrip(r: Route)
    requires IsRoute(r)
    ensures ParseEntry(RenderRoute(r)) == Some(r)
  {
    hide TunnelId.Trim, TunnelId.IsTunnelId, IndexOf, ParsePort, Numeral, ParseTarget, RenderTarget;
    var local, spec, entry := Numeral(r.localPort), RenderTarget(r), RenderRoute(r);
    RenderVisible(r);
    DigitsPlain(local);
    PortRoundTrip(r.localPort);
    TargetRoundTrip(r);
    IndexOfFirst(local, '=', spec);
    TunnelId.TrimOk(entry);
    assert entry[..|local|] == local && entry[|local| + 1..] == spec;
  }

  /** Rendering any valid list of routes and parsing it gives the same list. */
  lemma RoutesRoundTrip(routes: seq<Route>)
    requires ValidRoutes(routes)
    ensures ParseRoutes(RenderRoutes(routes)) == Some(routes)
  {
    hide ParseEntry, RenderRoute, IsRoute, ParseList, Join, Split, TunnelId.Trim;
    var parts := Rendered(routes);
    forall i | 0 <= i < |parts|
      ensures ParseEntry(parts[i]) == Some(routes[i]) && ',' !in parts[i] && Visible(parts[i])
    {
      EntryRoundTrip(routes[i]);
      RenderVisible(routes[i]);
    }
    SplitJoin(parts, ',');
    JoinEnds(parts, ',');
    TunnelId.TrimOk(RenderRoutes(routes));
    ParseListIff(parts, ParseEntry, LocalPort, {});
    assert ParseList(parts, ParseEntry, LocalPort, {}).Some?;
    assert ParseList(parts, ParseEntry, LocalPort, {}).value == routes;
  }

  /**
   * Whatever is accepted has valid routes with distinct local ports, and rendering and parsing it again
   * changes nothing.
   */
  lemma AcceptedRoutes(raw: string)
    requires ParseRoutes(raw).Some?
    ensures ValidRoutes(ParseRoutes(raw).value)
    ensures ParseRoutes(RenderRoutes(ParseRoutes(raw).value)) == ParseRoutes(raw)
  {
    hide ParseEntry, RenderRoutes, IsRoute, ParseList, Split, TunnelId.Trim;
    var entries := Split(raw, ',');
    ParseListIff(entries, ParseEntry, LocalPort, {});
    var routes := ParseRoutes(raw).value;
    forall i | 0 <= i < |routes| ensures IsRoute(routes[i]) {
      assert Some(routes[i]) == ParseEntry(entries[i]);
    }
    RoutesRoundTrip(routes);
  }

  lemma PortsRoundTrip(ports: seq<nat>)
    requires ValidPorts(ports)
    ensures ParsePorts(RenderPorts(ports)) == Some(ports)
  {
    hide ParsePort, IsPort, ParseList, Join, Split, TunnelId.Trim, Numeral;
    var parts := seq(|ports|, i requires 0 <= i < |ports| => Numeral(ports[i]));
    forall i | 0 <= i < |parts|
      ensures ParsePort(parts[i]) == Some(ports[i]) && ',' !in parts[i] && Visible(parts[i])
    {
      PortRoundTrip(ports[i]);
      DigitsPlain(Numeral(ports[i]));
    }
    SplitJoin(parts, ',');
    JoinEnds(parts, ',');
    TunnelId.TrimOk(RenderPorts(ports));
    ParseListIff(parts, ParsePort, Itself, {});
    assert ParseList(parts, ParsePort, Itself, {}).Some?;
    assert ParseList(parts, ParsePort, Itself, {}).value == ports;
  }

  /** Leading zeros and blanks disappear, duplicates such as 06379,6379 are refused, and the result is a fixpoint. */
  lemma AcceptedPorts(raw: string)
    requires ParsePorts(raw).Some?
    ensures ValidPorts(ParsePorts(raw).value)
    ensures ParsePorts(RenderPorts(ParsePorts(raw).value)) == ParsePorts(raw)
  {
    hide ParsePort, RenderPorts, IsPort, ParseList, Split, TunnelId.Trim;
    var tokens := Split(raw, ',');
    ParseListIff(tokens, ParsePort, Itself, {});
    var ports := ParsePorts(raw).value;
    forall i | 0 <= i < |ports| ensures IsPort(ports[i]) {
      assert Some(ports[i]) == ParsePort(tokens[i]);
    }
    PortsRoundTrip(ports);
  }
}
