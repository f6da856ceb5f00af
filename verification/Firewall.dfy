/** The nftables policy of a gateway: services and routes become one ordered chain,
    written as text for `nft`. The chain means the declarative policy, and the text
    reads back to the chain whatever the services are called. */
module Firewall {
  import opened Text
  import opened Cidr

  datatype Protocol = Tcp | Udp

  datatype Service = Service(name: string, destination: Net, protocol: Protocol, ports: seq<nat>)

  // ---- Rules and what they do to a packet ----

  datatype Match =
    | SourceOutside(net: Net)
    | Tracked
    | Destination(net: Net)
    | Port(protocol: Protocol, ports: seq<nat>)

  datatype Verdict = Accept | Drop | Return

  datatype Rule = Rule(matches: seq<Match>, verdict: Verdict, comment: Option<string>)

  /** A forwarded packet: `transport` is none for anything but TCP and UDP, and
      `tracked` says it belongs to an established or related flow. */
  datatype Packet = Packet(source: IpAddress, destination: IpAddress, transport: Option<Protocol>, port: nat, tracked: bool)

  /** Any `ip` match in an `inet` table is a match on IPv4 packets only. */
  predicate Holds(m: Match, p: Packet)
  {
    match m
    case SourceOutside(net) => p.source.family == V4 && !Contains(net, p.source)
    case Tracked => p.tracked
    case Destination(net) => p.destination.family == V4 && Contains(net, p.destination)
    case Port(protocol, ports) => p.transport == Some(protocol) && p.port in ports
  }

  predicate Applies(r: Rule, p: Packet)
  {
    forall m | m in r.matches :: Holds(m, p)
  }

  /** The verdict of the first rule that applies. */
  function FirstMatch(chain: seq<Rule>, p: Packet): (v: Option<Verdict>)
  {
    if chain == [] then None else if Applies(chain[0], p) then Some(chain[0].verdict) else FirstMatch(chain[1..], p)
  }

  // ---- Compiling ----

  predicate Control(c: char)
  {
    c < ' ' || '\U{7F}' <= c <= '\U{9F}'
  }

  function Cleaned(name: string): (s: string)
    ensures forall c | c in s :: !Control(c) && c != '"' && c != '\\'
  {
    if name == "" then ""
    else
      var rest := Cleaned(name[1..]);
      if Control(name[0]) then rest
      else if name[0] == '"' || name[0] == '\\' then ['_'] + rest
      else [name[0]] + rest
  }

  function EscapeComment(name: string): (s: string)
    ensures |s| <= 63 && forall c | c in s :: !Control(c) && c != '"' && c != '\\'
  {
    var s := Cleaned(name);
    if |s| <= 63 then s else assert forall c | c in s[..63] :: c in s; s[..63]
  }

  /** The bytes of a text in UTF-8. */
  function Bytes(s: string): (n: nat)
  {
    if s == "" then 0 else CharBytes(s[0]) + Bytes(s[1..])
  }

  function CharBytes(c: char): (n: nat)
  {
    if c < '\U{80}' then 1 else if c < '\U{800}' then 2 else if c < '\U{10000}' then 3 else 4
  }

  function ServiceRule(s: Service): (r: Rule)
  {
    Rule([Destination(s.destination), Port(s.protocol, s.ports)], Accept, Some(EscapeComment(s.name)))
  }

  function ServiceRules(services: seq<Service>): (rules: seq<Rule>)
  {
    if services == [] then []
    else
      var last := services[|services| - 1];
      ServiceRules(services[..|services| - 1]) + if last.ports == [] then [] else [ServiceRule(last)]
  }

  function RouteRule(route: Net): (r: Rule)
  {
    Rule([Destination(route)], Accept, None)
  }

  function RouteRules(routes: seq<Net>): (rules: seq<Rule>)
    ensures |rules| == |routes| && forall i | 0 <= i < |routes| :: rules[i] == RouteRule(routes[i])
  {
    seq(|routes|, i requires 0 <= i < |routes| => RouteRule(routes[i]))
  }

  function FirstRules(range: Net): (rules: seq<Rule>)
  {
    [Rule([SourceOutside(range)], Return, None), Rule([Tracked], Accept, None)]
  }

  function ChainOf(services: seq<Service>, routes: seq<Net>, range: Net): (chain: seq<Rule>)
  {
    FirstRules(range) + ServiceRules(services) + RouteRules(routes) + [Rule([], Drop, None)]
  }

  // ---- The chain means the policy ----

  /** What a service or a route lets through. */
  predicate Granted(services: seq<Service>, routes: seq<Net>, p: Packet)
  {
    && p.destination.family == V4
    && ((exists s | s in services :: Contains(s.destination, p.destination) && p.transport == Some(s.protocol) && p.port in s.ports)
        || exists r | r in routes :: Contains(r, p.destination))
  }

  lemma {:induction false} FirstMatchAdds(a: seq<Rule>, b: seq<Rule>, p: Packet)
    ensures FirstMatch(a + b, p) == if FirstMatch(a, p).Some? then FirstMatch(a, p) else FirstMatch(b, p)
  {
    if a == [] {
      assert a + b == b;
    } else {
      assert (a + b)[1..] == a[1..] + b;
      FirstMatchAdds(a[1..], b, p);
    }
  }

  lemma {:induction false} ServicesGrant(services: seq<Service>, p: Packet)
    ensures FirstMatch(ServiceRules(services), p)
            == if p.destination.family == V4 && exists s | s in services ::
                    Contains(s.destination, p.destination) && p.transport == Some(s.protocol) && p.port in s.ports
               then Some(Accept) else None
  {
    if services != [] {
      var n := |services| - 1;
      var last := services[n];
      ServicesGrant(services[..n], p);
      assert forall s :: s in services <==> s in services[..n] || s == last;
      if last.ports != [] {
        FirstMatchAdds(ServiceRules(services[..n]), [ServiceRule(last)], p);
        OneRule(ServiceRule(last), p);
        BothMatches(Destination(last.destination), Port(last.protocol, last.ports), p);
      } else {
        assert ServiceRules(services) == ServiceRules(services[..n]);
      }
    }
  }

  lemma OneRule(r: Rule, p: Packet)
    ensures FirstMatch([r], p) == if Applies(r, p) then Some(r.verdict) else None
  {
    assert [r][1..] == [];
  }

  lemma BothMatches(m: Match, n: Match, p: Packet)
    ensures (forall x | x in [m, n] :: Holds(x, p)) <==> Holds(m, p) && Holds(n, p)
  {
    assert [m, n][0] in [m, n] && [m, n][1] in [m, n];
  }

  lemma OneMatch(m: Match, p: Packet)
    ensures (forall x | x in [m] :: Holds(x, p)) <==> Holds(m, p)
  {
    assert [m][0] in [m];
  }

  lemma {:induction false} RoutesGrant(routes: seq<Net>, p: Packet)
    ensures FirstMatch(RouteRules(routes), p)
            == if p.destination.family == V4 && exists r | r in routes :: Contains(r, p.destination) then Some(Accept) else None
  {
    if routes != [] {
      RoutesGrant(routes[1..], p);
      assert RouteRules(routes)[1..] == RouteRules(routes[1..]);
      assert forall r :: r in routes <==> r == routes[0] || r in routes[1..];
      OneMatch(Destination(routes[0]), p);
    }
  }

  lemma FirstRulesDecide(range: Net, p: Packet)
    ensures FirstMatch(FirstRules(range), p)
            == if Holds(SourceOutside(range), p) then Some(Return) else if p.tracked then Some(Accept) else None
  {
    var rules := FirstRules(range);
    assert rules == [rules[0]] + [rules[1]];
    FirstMatchAdds([rules[0]], [rules[1]], p);
    OneRule(rules[0], p);
    OneRule(rules[1], p);
    OneMatch(SourceOutside(range), p);
    OneMatch(Tracked, p);
  }

  /** Traffic from outside the range is left alone; overlay traffic passes when it
      belongs to a known flow, a service or a route allows it, and is dropped
      otherwise. An IPv6 packet is never left alone: it is dropped unless tracked,
      wherever it comes from. */
  lemma ChainMeansPolicy(services: seq<Service>, routes: seq<Net>, range: Net, p: Packet)
    ensures var v := FirstMatch(ChainOf(services, routes, range), p);
            && (v == Some(Return) <==> p.source.family == V4 && !Contains(range, p.source))
            && (v == Some(Accept) <==> (p.source.family == V6 || Contains(range, p.source))
                                       && (p.tracked || Granted(services, routes, p)))
            && (v == Some(Drop) <==> (p.source.family == V6 || Contains(range, p.source))
                                     && !p.tracked && !Granted(services, routes, p))
  {
    FirstMatchAdds(FirstRules(range) + ServiceRules(services) + RouteRules(routes), [Rule([], Drop, None)], p);
    FirstMatchAdds(FirstRules(range) + ServiceRules(services), RouteRules(routes), p);
    FirstMatchAdds(FirstRules(range), ServiceRules(services), p);
    OneRule(Rule([], Drop, None), p);
    FirstRulesDecide(range, p);
    ServicesGrant(services, p);
    RoutesGrant(routes, p);
  }

  // ---- Text ----

  /** What ends a word of the nft language. */
  predicate Special(c: char)
  {
    c == ' ' || c == ',' || c == '{' || c == '}' || c == ';' || c == '"'
  }

  predicate PlainWord(w: string)
  {
    w != "" && forall c | c in w :: !Special(c) && c != '\n'
  }

  /** The text form of address blocks, `Display` and `FromStr` of `IpNetwork`. */
  datatype NetText = NetText(show: Net -> string, parse: string -> Option<Net>)
  {
    ghost predicate Faithful() {
      forall n: Net :: parse(show(n)) == Some(n) && PlainWord(show(n))
    }
  }

  function ProtocolText(p: Protocol): (s: string)
  {
    match p case Tcp => "tcp" case Udp => "udp"
  }

  function PortTexts(ports: seq<nat>): (ss: seq<string>)
    ensures |ss| == |ports| && forall i | 0 <= i < |ports| :: ss[i] == Decimal(ports[i])
  {
    seq(|ports|, i requires 0 <= i < |ports| => Decimal(ports[i]))
  }

  function PortExpr(ports: seq<nat>): (s: string)
  {
    if |ports| == 1 then Decimal(ports[0]) else "{ " + Join(PortTexts(ports), ", ") + " }"
  }

  function MatchText(net: NetText, m: Match): (s: string)
  {
    match m
    case SourceOutside(n) => "ip saddr != " + net.show(n) + " "
    case Tracked => "ct state " + "established,related "
    case Destination(n) => "ip daddr " + net.show(n) + " "
    case Port(protocol, ports) => ProtocolText(protocol) + " dport " + PortExpr(ports) + " "
  }

  function MatchesText(net: NetText, ms: seq<Match>): (s: string)
  {
    if ms == [] then "" else MatchText(net, ms[0]) + MatchesText(net, ms[1..])
  }

  function VerdictText(v: Verdict): (s: string)
  {
    match v case Accept => "accept" case Drop => "drop" case Return => "return"
  }

  function EndText(r: Rule): (s: string)
  {
    VerdictText(r.verdict) + if r.comment.Some? then " comment \"" + r.comment.value + "\"" else ""
  }

  function LineOf(net: NetText, r: Rule): (s: string)
  {
    "    " + MatchesText(net, r.matches) + EndText(r)
  }

  function LinesOf(net: NetText, rules: seq<Rule>): (ls: seq<string>)
    ensures |ls| == |rules| && forall i | 0 <= i < |rules| :: ls[i] == LineOf(net, rules[i])
  {
    seq(|rules|, i requires 0 <= i < |rules| => LineOf(net, rules[i]))
  }

  const HOOK := "    type filter hook forward" + " priority filter + 10;" + " policy accept;"

  function Header(): (ls: seq<string>)
  {
    ["add table inet wsl_gateway", "delete table inet wsl_gateway", "table inet wsl_gateway {", "  chain forward {", HOOK]
  }

  function Footer(): (ls: seq<string>)
  {
    ["  }", "}"]
  }

  /** The whole script for a chain. */
  function Script(net: NetText, chain: seq<Rule>): (s: string)
  {
    Unlines(Header() + LinesOf(net, chain) + Footer())
  }

  // ---- Writing it ----

  lemma ServiceLine(net: NetText, s: Service)
    ensures LineOf(net, ServiceRule(s))
            == "    " + "ip daddr " + net.show(s.destination) + " " + ProtocolText(s.protocol) + " dport " + PortExpr(s.ports)
               + " " + "accept" + " comment \"" + EscapeComment(s.name) + "\""
  {
    var ms := ServiceRule(s).matches;
    var d, t := MatchText(net, ms[0]), MatchText(net, ms[1]);
    assert ms[1..] == [ms[1]] && [ms[1]][1..] == [];
    assert MatchesText(net, [ms[1]]) == t + "" == t;
    assert MatchesText(net, ms) == d + t;
    var e := "accept";
    var f := " comment \"" + EscapeComment(s.name) + "\"";
    assert LineOf(net, ServiceRule(s)) == "    " + (d + t) + (e + f);
    Assoc("    ", d, t);
    Assoc("    " + d + t, e, f);
    Assoc("    ", "ip daddr " + net.show(s.destination), " ");
    Assoc("    ", "ip daddr ", net.show(s.destination));
    var x := "    " + d;
    Assoc(x, ProtocolText(s.protocol) + " dport " + PortExpr(s.ports), " ");
    Assoc(x, ProtocolText(s.protocol) + " dport ", PortExpr(s.ports));
    Assoc(x, ProtocolText(s.protocol), " dport ");
    var y := x + t + e;
    Assoc(y, " comment \"" + EscapeComment(s.name), "\"");
    Assoc(y, " comment \"", EscapeComment(s.name));
  }

  lemma RouteLine(net: NetText, r: Net)
    ensures LineOf(net, RouteRule(r)) == "    " + "ip daddr " + net.show(r) + " " + "accept"
  {
    var ms := RouteRule(r).matches;
    assert ms[1..] == [];
    assert MatchesText(net, ms) == MatchText(net, ms[0]) + "" == MatchText(net, ms[0]);
    Assoc("    ", "ip daddr " + net.show(r), " ");
    Assoc("    ", "ip daddr ", net.show(r));
    assert EndText(RouteRule(r)) == "accept";
  }

  lemma RangeLine(net: NetText, range: Net)
    ensures LineOf(net, FirstRules(range)[0]) == "    " + "ip saddr != " + net.show(range) + " " + "return"
  {
    var ms := FirstRules(range)[0].matches;
    assert ms[1..] == [];
    assert MatchesText(net, ms) == MatchText(net, ms[0]) + "" == MatchText(net, ms[0]);
    Assoc("    ", "ip saddr != " + net.show(range), " ");
    Assoc("    ", "ip saddr != ", net.show(range));
    assert EndText(FirstRules(range)[0]) == "return";
  }

  lemma TrackedLine(net: NetText, range: Net)
    ensures LineOf(net, FirstRules(range)[1]) == "    " + ("ct state " + "established,related ") + "accept"
  {
    var ms := FirstRules(range)[1].matches;
    assert ms[1..] == [];
    assert MatchesText(net, ms) == MatchText(net, ms[0]) + "" == MatchText(net, ms[0]);
    assert EndText(FirstRules(range)[1]) == "accept";
  }

  lemma DropLine(net: NetText)
    ensures LineOf(net, Rule([], Drop, None)) == "    " + "drop"
  {
    assert "    " + "" == "    ";
    assert EndText(Rule([], Drop, None)) == "drop";
  }

  lemma LinesOfPush(net: NetText, before: seq<string>, rules: seq<Rule>, r: Rule)
    ensures before + LinesOf(net, rules) + [LineOf(net, r)] == before + LinesOf(net, rules + [r])
  {
    assert LinesOf(net, rules + [r]) == LinesOf(net, rules) + [LineOf(net, r)];
  }

  /** The rules of each service in turn, then of each route. */
  method WriteServices(net: NetText, services: seq<Service>, start: string, ghost before: seq<string>, ghost rules: seq<Rule>)
    returns (s: string)
    requires start == Unlines(before + LinesOf(net, rules))
    ensures s == Unlines(before + LinesOf(net, rules + ServiceRules(services)))
  {
    s := start;
    assert rules + [] == rules;
    for i := 0 to |services|
      invariant s == Unlines(before + LinesOf(net, rules + ServiceRules(services[..i])))
    {
      var svc := services[i];
      assert services[..i + 1][..i] == services[..i];
      if svc.ports == [] {
        assert ServiceRules(services[..i]) + [] == ServiceRules(services[..i]);
        continue;
      }
      var line := "    " + "ip daddr " + net.show(svc.destination) + " " + ProtocolText(svc.protocol) + " dport " + PortExpr(svc.ports)
                  + " " + "accept" + " comment \"" + EscapeComment(svc.name) + "\"";
      s := s + line + "\n";
      ServiceLine(net, svc);
      ghost var sofar := rules + ServiceRules(services[..i]);
      UnlinesPush(before + LinesOf(net, sofar), line);
      LinesOfPush(net, before, sofar, ServiceRule(svc));
      Assoc(rules, ServiceRules(services[..i]), [ServiceRule(svc)]);
    }
    assert services[..|services|] == services;
  }

  method WriteRoutes(net: NetText, routes: seq<Net>, start: string, ghost before: seq<string>, ghost rules: seq<Rule>)
    returns (s: string)
    requires start == Unlines(before + LinesOf(net, rules))
    ensures s == Unlines(before + LinesOf(net, rules + RouteRules(routes)))
  {
    s := start;
    assert rules + [] == rules;
    for i := 0 to |routes|
      invariant s == Unlines(before + LinesOf(net, rules + RouteRules(routes[..i])))
    {
      var line := "    " + "ip daddr " + net.show(routes[i]) + " " + "accept";
      s := s + line + "\n";
      RouteLine(net, routes[i]);
      ghost var sofar := rules + RouteRules(routes[..i]);
      UnlinesPush(before + LinesOf(net, sofar), line);
      LinesOfPush(net, before, sofar, RouteRule(routes[i]));
      assert RouteRules(routes[..i + 1]) == RouteRules(routes[..i]) + [RouteRule(routes[i])];
      Assoc(rules, RouteRules(routes[..i]), [RouteRule(routes[i])]);
    }
    assert routes[..|routes|] == routes;
  }

  method WriteStart(net: NetText, range: Net) returns (s: string)
    ensures s == Unlines(Header() + LinesOf(net, FirstRules(range)))
  {
    var outside := "    " + "ip saddr != " + net.show(range) + " " + "return";
    var known := "    " + ("ct state " + "established,related ") + "accept";
    s := Unlines(Header());
    s := s + outside + "\n";
    s := s + known + "\n";
    UnlinesPush(Header(), outside);
    UnlinesPush(Header() + [outside], known);
    RangeLine(net, range);
    TrackedLine(net, range);
    assert LinesOf(net, FirstRules(range)) == [outside] + [known];
    Assoc(Header(), [outside], [known]);
  }

  method WriteEnd(net: NetText, start: string, ghost rules: seq<Rule>) returns (s: string)
    requires start == Unlines(Header() + LinesOf(net, rules))
    ensures s == Script(net, rules + [Rule([], Drop, None)])
  {
    s := start + ("    " + "drop") + "\n";
    s := s + "  }" + "\n";
    s := s + "}" + "\n";
    ghost var ls := Header() + LinesOf(net, rules);
    UnlinesPush(ls, "    " + "drop");
    DropLine(net);
    LinesOfPush(net, Header(), rules, Rule([], Drop, None));
    ghost var all := Header() + LinesOf(net, rules + [Rule([], Drop, None)]);
    UnlinesPush(all, "  }");
    UnlinesPush(all + ["  }"], "}");
    Assoc(all, ["  }"], ["}"]);
    assert Footer() == ["  }"] + ["}"];
  }

  /** No range, no policy. */
  method Render(net: NetText, services: seq<Service>, routes: seq<Net>, managed: Option<Net>) returns (script: Option<string>)
    ensures script == if managed.None? then None else Some(Script(net, ChainOf(services, routes, managed.value)))
  {
    if managed.None? {
      return None;
    }
    var range := managed.value;
    var s := WriteStart(net, range);
    s := WriteServices(net, services, s, Header(), FirstRules(range));
    s := WriteRoutes(net, routes, s, Header(), FirstRules(range) + ServiceRules(services));
    s := WriteEnd(net, s, FirstRules(range) + ServiceRules(services) + RouteRules(routes));
    script := Some(s);
  }

  // ---- Reading it ----

  datatype Token = Word(text: string) | Sym(char) | Quoted(text: string) | Bad

  function WordEnd(s: string): (n: nat)
    ensures n <= |s| && (forall k | 0 <= k < n :: !Special(s[k])) && (n < |s| ==> Special(s[n]))
  {
    if s == "" || Special(s[0]) then 0 else 1 + WordEnd(s[1..])
  }

  /** Words, punctuation, and quoted strings that run to the next quote. */
  function Lex(s: string): (ts: seq<Token>)
    decreases |s|
  {
    if s == "" then []
    else if s[0] == ' ' then Lex(s[1..])
    else if s[0] == '"' then
      var i := Find(s[1..], '"');
      if i + 1 == |s| then [Bad] else [Quoted(s[1..i + 1])] + Lex(s[i + 2..])
    else if Special(s[0]) then [Sym(s[0])] + Lex(s[1..])
    else
      var n := WordEnd(s);
      [Word(s[..n])] + Lex(s[n..])
  }

  /** A block the `ip` keyword takes. */
  function ReadNet(net: NetText, t: Token): (n: Option<Net>)
  {
    if t.Word? then
      match net.parse(t.text) {
        case Some(n) => if n.family == V4 then Some(n) else None
        case None => None
      }
    else None
  }

  /** The ports after `{`, up to the closing brace. */
  function ReadPorts(ts: seq<Token>): (r: Option<(seq<nat>, seq<Token>)>)
    ensures r.Some? ==> |r.value.1| < |ts|
  {
    if |ts| < 2 || !ts[0].Word? then None
    else
      match ReadDecimal(ts[0].text)
      case None => None
      case Some(p) =>
        if ts[1] == Sym('}') then Some(([p], ts[2..]))
        else if ts[1] == Sym(',') then
          match ReadPorts(ts[2..]) {
            case None => None
            case Some((ps, rest)) => Some(([p] + ps, rest))
          }
        else None
  }

  function ReadPortExpr(ts: seq<Token>): (r: Option<(seq<nat>, seq<Token>)>)
    ensures r.Some? ==> |r.value.1| < |ts|
  {
    if ts == [] then None
    else if ts[0] == Sym('{') then ReadPorts(ts[1..])
    else if ts[0].Word? then
      match ReadDecimal(ts[0].text) {
        case None => None
        case Some(p) => Some(([p], ts[1..]))
      }
    else None
  }

  /** The longest comment `nft` takes for a rule, in bytes. */
  const COMMENT_LIMIT := 128

  const CT := [Word("ct"), Word("state"), Word("established"), Sym(','), Word("related")]

  function ReadMatch(net: NetText, ts: seq<Token>): (r: Option<(Match, seq<Token>)>)
    ensures r.Some? ==> |r.value.1| < |ts|
  {
    if |ts| >= 4 && ts[0] == Word("ip") && ts[1] == Word("saddr") && ts[2] == Word("!=") then
      match ReadNet(net, ts[3]) {
        case None => None
        case Some(n) => Some((SourceOutside(n), ts[4..]))
      }
    else if |ts| >= 3 && ts[0] == Word("ip") && ts[1] == Word("daddr") then
      match ReadNet(net, ts[2]) {
        case None => None
        case Some(n) => Some((Destination(n), ts[3..]))
      }
    else if CT <= ts then Some((Tracked, ts[5..]))
    else if |ts| >= 2 && (ts[0] == Word("tcp") || ts[0] == Word("udp")) && ts[1] == Word("dport") then
      match ReadPortExpr(ts[2..]) {
        case None => None
        case Some((ports, rest)) => Some((Port(if ts[0] == Word("tcp") then Tcp else Udp, ports), rest))
      }
    else None
  }

  function ReadEnd(ts: seq<Token>): (r: Option<Rule>)
  {
    if ts == [] then None
    else
      var verdict := if ts[0] == Word("accept") then Some(Accept) else if ts[0] == Word("drop") then Some(Drop)
                     else if ts[0] == Word("return") then Some(Return) else None;
      if verdict.None? then None
      else if |ts| == 1 then Some(Rule([], verdict.value, None))
      else if |ts| == 3 && ts[1] == Word("comment") && ts[2].Quoted? && Bytes(ts[2].text) <= COMMENT_LIMIT
      then Some(Rule([], verdict.value, Some(ts[2].text)))
      else None
  }

  function ReadRule(net: NetText, ts: seq<Token>): (r: Option<Rule>)
    decreases |ts|
  {
    var end := ReadEnd(ts);
    if end.Some? then end
    else
      match ReadMatch(net, ts)
      case None => None
      case Some((m, rest)) =>
        match ReadRule(net, rest)
        case None => None
        case Some(r) => Some(r.(matches := [m] + r.matches))
  }

  function ReadRules(net: NetText, lines: seq<string>): (rules: Option<seq<Rule>>)
  {
    if lines == [] then Some([])
    else
      match ReadRule(net, Lex(lines[0]))
      case None => None
      case Some(r) =>
        match ReadRules(net, lines[1..])
        case None => None
        case Some(rs) => Some([r] + rs)
  }

  /** The chain of a script that replaces the table; none when it is not one. */
  function ReadScript(net: NetText, script: string): (chain: Option<seq<Rule>>)
  {
    var lines := Lines(script);
    if |lines| < 7 || lines[..5] != Header() || lines[|lines| - 2..] != Footer() then None
    else ReadRules(net, lines[5..|lines| - 2])
  }

  // ---- The text reads back ----

  lemma {:induction false} WordEndIs(s: string, n: nat)
    requires n <= |s| && (forall k | 0 <= k < n :: !Special(s[k])) && (n < |s| ==> Special(s[n]))
    ensures WordEnd(s) == n
  {
  }

  lemma LexWord(w: string, rest: string)
    requires PlainWord(w) && (rest != "" ==> Special(rest[0]))
    ensures Lex(w + rest) == [Word(w)] + Lex(rest)
  {
    var s := w + rest;
    assert s[0] in w;
    assert forall k | 0 <= k < |w| :: s[k] in w;
    assert s[..|w|] == w && s[|w|..] == rest;
    WordEndIs(s, |w|);
  }

  lemma LexSpace(rest: string)
    ensures Lex(" " + rest) == Lex(rest)
  {
    assert (" " + rest)[1..] == rest;
  }

  lemma LexW(w: string, rest: string)
    requires PlainWord(w)
    ensures Lex(w + " " + rest) == [Word(w)] + Lex(rest)
  {
    Assoc(w, " ", rest);
    LexWord(w, " " + rest);
    LexSpace(rest);
  }

  lemma LexIndent(rest: string)
    ensures Lex("    " + rest) == Lex(rest)
  {
    assert "    " + rest == " " + (" " + (" " + (" " + rest)));
    LexSpace(" " + (" " + (" " + rest)));
    LexSpace(" " + (" " + rest));
    LexSpace(" " + rest);
    LexSpace(rest);
  }

  lemma LexQuoted(q: string, rest: string)
    requires '"' !in q
    ensures Lex("\"" + q + "\"" + rest) == [Quoted(q)] + Lex(rest)
  {
    var s := "\"" + q + "\"" + rest;
    var tail := s[1..];
    assert tail == q + "\"" + rest;
    assert tail[..|q|] == q;
    FindIs(tail, '"', |q|);
    assert s[1..|q| + 1] == q && s[|q| + 2..] == rest;
  }

  lemma DecimalPlain(n: nat)
    ensures PlainWord(Decimal(n))
  {
  }

  function PortTokens(ports: seq<nat>): (ts: seq<Token>)
    requires ports != []
  {
    if |ports| == 1 then [Word(Decimal(ports[0])), Sym('}')]
    else [Word(Decimal(ports[0])), Sym(',')] + PortTokens(ports[1..])
  }

  lemma LexComma(rest: string)
    ensures Lex(", " + rest) == [Sym(',')] + Lex(rest)
  {
    assert (", " + rest)[1..] == " " + rest;
    LexSpace(rest);
  }

  lemma LexClose(rest: string)
    ensures Lex(" }" + rest) == [Sym('}')] + Lex(rest)
  {
    assert (" }" + rest)[1..] == "}" + rest;
    assert ("}" + rest)[1..] == rest;
  }

  lemma {:induction false} LexPorts(ports: seq<nat>, rest: string)
    requires ports != []
    ensures Lex(Join(PortTexts(ports), ", ") + (" }" + rest)) == PortTokens(ports) + Lex(rest)
  {
    var d := Decimal(ports[0]);
    DecimalPlain(ports[0]);
    if |ports| == 1 {
      LexWord(d, " }" + rest);
      LexClose(rest);
    } else {
      assert PortTexts(ports) == [d] + PortTexts(ports[1..]);
      JoinCons(d, PortTexts(ports[1..]), ", ");
      var more := Join(PortTexts(ports[1..]), ", ");
      var tail := more + (" }" + rest);
      Assoc(d + ", ", more, " }" + rest);
      Assoc(d, ", ", tail);
      LexWord(d, ", " + tail);
      LexComma(tail);
      LexPorts(ports[1..], rest);
    }
  }

  function PortExprTokens(ports: seq<nat>): (ts: seq<Token>)
    requires ports != []
  {
    if |ports| == 1 then [Word(Decimal(ports[0]))] else [Sym('{')] + PortTokens(ports)
  }

  lemma LexPortExpr(ports: seq<nat>, rest: string)
    requires ports != []
    ensures Lex(PortExpr(ports) + (" " + rest)) == PortExprTokens(ports) + Lex(rest)
  {
    LexSpace(rest);
    if |ports| == 1 {
      DecimalPlain(ports[0]);
      LexWord(Decimal(ports[0]), " " + rest);
    } else {
      var list := Join(PortTexts(ports), ", ");
      var after := " " + rest;
      var s := list + (" }" + after);
      Assoc("{ " + list, " }", after);
      Assoc("{ ", list, " }" + after);
      assert PortExpr(ports) + after == "{ " + s;
      assert ("{ " + s)[1..] == " " + s;
      LexSpace(s);
      LexPorts(ports, after);
    }
  }

  /** Rules the compiler makes: ports to match, and no quote in a comment. */
  predicate WellFormed(r: Rule)
  {
    && (forall m | m in r.matches && m.Port? :: m.ports != [])
    && (r.comment.Some? ==> '"' !in r.comment.value && '\n' !in r.comment.value)
  }

  function MatchTokens(net: NetText, m: Match): (ts: seq<Token>)
    requires m.Port? ==> m.ports != []
  {
    match m
    case SourceOutside(n) => [Word("ip"), Word("saddr"), Word("!="), Word(net.show(n))]
    case Tracked => CT
    case Destination(n) => [Word("ip"), Word("daddr"), Word(net.show(n))]
    case Port(protocol, ports) => [Word(ProtocolText(protocol)), Word("dport")] + PortExprTokens(ports)
  }

  lemma LexIp(keyword: string, rest: string)
    requires PlainWord(keyword)
    ensures Lex("ip " + keyword + " " + rest) == [Word("ip"), Word(keyword)] + Lex(rest)
  {
    assert "ip " + keyword + " " + rest == "ip" + " " + (keyword + " " + rest);
    LexW("ip", keyword + " " + rest);
    LexW(keyword, rest);
  }

  lemma LexDaddr(rest: string)
    ensures Lex("ip daddr " + rest) == [Word("ip"), Word("daddr")] + Lex(rest)
  {
    assert "ip daddr " == "ip " + "daddr" + " ";
    LexIp("daddr", rest);
  }

  lemma LexSaddr(rest: string)
    ensures Lex("ip saddr != " + rest) == [Word("ip"), Word("saddr"), Word("!=")] + Lex(rest)
  {
    assert "ip saddr != " == "ip " + "saddr" + " " + "!= ";
    Assoc("ip " + "saddr" + " ", "!= ", rest);
    LexIp("saddr", "!= " + rest);
    assert "!= " == "!=" + " ";
    LexW("!=", rest);
  }

  lemma StatesText(rest: string)
    ensures "established,related " + rest == "established" + ("," + ("related" + " " + rest))
  {
    assert "established,related " == "established" + ("," + ("related" + " "));
    Assoc("established", "," + ("related" + " "), rest);
    Assoc(",", "related" + " ", rest);
  }

  lemma LexPair(v: string, w: string, rest: string)
    requires PlainWord(v) && PlainWord(w)
    ensures Lex(v + ("," + (w + " " + rest))) == [Word(v), Sym(','), Word(w)] + Lex(rest)
  {
    var tail := w + " " + rest;
    LexWord(v, "," + tail);
    LexBareComma(tail);
    LexW(w, rest);
    Assoc([Word(v)], [Sym(',')], [Word(w)] + Lex(rest));
    Assoc([Word(v), Sym(',')], [Word(w)], Lex(rest));
  }

  lemma LexBareComma(rest: string)
    ensures Lex("," + rest) == [Sym(',')] + Lex(rest)
  {
    assert ("," + rest)[1..] == rest;
  }

  lemma CtWords()
    ensures PlainWord("ct") && PlainWord("state") && PlainWord("established") && PlainWord("related")
  {
  }

  lemma LexStates(rest: string)
    ensures Lex("established,related " + rest) == [Word("established"), Sym(','), Word("related")] + Lex(rest)
  {
    StatesText(rest);
    CtWords();
    LexPair("established", "related", rest);
  }

  lemma LexTwo(v: string, w: string, rest: string)
    requires PlainWord(v) && PlainWord(w)
    ensures Lex(v + " " + (w + " ") + rest) == [Word(v), Word(w)] + Lex(rest)
  {
    Assoc(v + " ", w + " ", rest);
    LexW(v, w + " " + rest);
    LexW(w, rest);
  }

  lemma CtText()
    ensures "ct state " == "ct" + " " + ("state" + " ")
    ensures CT == [Word("ct"), Word("state")] + [Word("established"), Sym(','), Word("related")]
  {
  }

  lemma LexCt(rest: string)
    ensures Lex("ct state " + "established,related " + rest) == CT + Lex(rest)
  {
    Assoc("ct state ", "established,related ", rest);
    CtText();
    CtWords();
    LexTwo("ct", "state", "established,related " + rest);
    LexStates(rest);
    Assoc([Word("ct"), Word("state")], [Word("established"), Sym(','), Word("related")], Lex(rest));
  }

  lemma DportWords(protocol: Protocol)
    ensures PlainWord(ProtocolText(protocol)) && PlainWord("dport")
  {
  }

  lemma LexDport(protocol: Protocol, rest: string)
    ensures Lex(ProtocolText(protocol) + " dport " + rest) == [Word(ProtocolText(protocol)), Word("dport")] + Lex(rest)
  {
    var t := ProtocolText(protocol);
    assert " dport " == " " + ("dport" + " ");
    Assoc(t, " ", "dport" + " ");
    DportWords(protocol);
    LexTwo(t, "dport", rest);
  }

  lemma LexSource(w: string, rest: string)
    requires PlainWord(w)
    ensures Lex("ip saddr != " + w + " " + rest) == [Word("ip"), Word("saddr"), Word("!="), Word(w)] + Lex(rest)
  {
    Assoc("ip saddr != " + w, " ", rest);
    Assoc("ip saddr != ", w, " " + rest);
    Assoc(w, " ", rest);
    LexSaddr(w + " " + rest);
    LexW(w, rest);
  }

  lemma LexDestination(w: string, rest: string)
    requires PlainWord(w)
    ensures Lex("ip daddr " + w + " " + rest) == [Word("ip"), Word("daddr"), Word(w)] + Lex(rest)
  {
    Assoc("ip daddr " + w, " ", rest);
    Assoc("ip daddr ", w, " " + rest);
    Assoc(w, " ", rest);
    LexDaddr(w + " " + rest);
    LexW(w, rest);
  }

  lemma LexPort(protocol: Protocol, ports: seq<nat>, rest: string)
    requires ports != []
    ensures Lex(ProtocolText(protocol) + " dport " + PortExpr(ports) + " " + rest)
            == [Word(ProtocolText(protocol)), Word("dport")] + PortExprTokens(ports) + Lex(rest)
  {
    var e := PortExpr(ports);
    var head := ProtocolText(protocol) + " dport ";
    Assoc(head + e, " ", rest);
    Assoc(head, e, " " + rest);
    LexDport(protocol, e + (" " + rest));
    LexPortExpr(ports, rest);
  }

  lemma LexMatch(net: NetText, m: Match, rest: string)
    requires net.Faithful() && (m.Port? ==> m.ports != [])
    ensures Lex(MatchText(net, m) + rest) == MatchTokens(net, m) + Lex(rest)
  {
    match m
    case SourceOutside(n) => LexSource(net.show(n), rest);
    case Tracked => LexCt(rest);
    case Destination(n) => LexDestination(net.show(n), rest);
    case Port(protocol, ports) => LexPort(protocol, ports, rest);
  }

  function MatchesTokens(net: NetText, ms: seq<Match>): (ts: seq<Token>)
    requires forall m | m in ms && m.Port? :: m.ports != []
  {
    if ms == [] then [] else MatchTokens(net, ms[0]) + MatchesTokens(net, ms[1..])
  }

  lemma {:induction false} LexMatches(net: NetText, ms: seq<Match>, rest: string)
    requires net.Faithful() && forall m | m in ms && m.Port? :: m.ports != []
    ensures Lex(MatchesText(net, ms) + rest) == MatchesTokens(net, ms) + Lex(rest)
  {
    if ms == [] {
      assert "" + rest == rest;
    } else {
      var a, b := MatchText(net, ms[0]), MatchesText(net, ms[1..]);
      Assoc(a, b, rest);
      LexMatch(net, ms[0], b + rest);
      LexMatches(net, ms[1..], rest);
      Assoc(MatchTokens(net, ms[0]), MatchesTokens(net, ms[1..]), Lex(rest));
    }
  }

  function EndTokens(r: Rule): (ts: seq<Token>)
  {
    [Word(VerdictText(r.verdict))] + if r.comment.Some? then [Word("comment"), Quoted(r.comment.value)] else []
  }

  lemma LexEnd(r: Rule)
    requires WellFormed(r)
    ensures Lex(EndText(r)) == EndTokens(r)
  {
    var v := VerdictText(r.verdict);
    VerdictPlain(r.verdict);
    if r.comment.None? {
      assert v + "" == v;
      LexWord(v, "");
    } else {
      LexComment(v, r.comment.value);
    }
  }

  lemma VerdictPlain(v: Verdict)
    ensures PlainWord(VerdictText(v)) && PlainWord("comment")
  {
  }

  lemma LexComment(v: string, q: string)
    requires PlainWord(v) && PlainWord("comment") && '"' !in q
    ensures Lex(v + (" comment \"" + q + "\"")) == [Word(v)] + [Word("comment"), Quoted(q)]
  {
    var quoted := "\"" + q + "\"" + "";
    CommentText(v, q);
    LexW(v, "comment" + " " + quoted);
    LexW("comment", quoted);
    LexQuoted(q, "");
    assert Lex("") == [];
  }

  lemma CommentText(v: string, q: string)
    ensures v + (" comment \"" + q + "\"") == v + " " + ("comment" + " " + ("\"" + q + "\"" + ""))
  {
    assert " comment \"" + q == " " + ("comment" + " " + ("\"" + q));
    Assoc(" ", "comment" + " " + ("\"" + q), "\"");
    Assoc("comment" + " ", "\"" + q, "\"");
    Assoc(v, " ", "comment" + " " + ("\"" + q + "\""));
    assert "\"" + q + "\"" + "" == "\"" + q + "\"";
  }

  lemma LexLine(net: NetText, r: Rule)
    requires net.Faithful() && WellFormed(r)
    ensures Lex(LineOf(net, r)) == MatchesTokens(net, r.matches) + EndTokens(r)
  {
    Assoc("    ", MatchesText(net, r.matches), EndText(r));
    LexIndent(MatchesText(net, r.matches) + EndText(r));
    LexMatches(net, r.matches, EndText(r));
    LexEnd(r);
  }

  lemma {:induction false} PortsRead(ports: seq<nat>, rest: seq<Token>)
    requires ports != []
    ensures ReadPorts(PortTokens(ports) + rest) == Some((ports, rest))
  {
    var ts := PortTokens(ports) + rest;
    ReadOfDecimal(ports[0]);
    assert ts[0] == Word(Decimal(ports[0]));
    if |ports| == 1 {
      assert ts[2..] == rest && ts[1] == Sym('}');
      assert ports == [ports[0]];
    } else {
      assert ts[2..] == PortTokens(ports[1..]) + rest && ts[1] == Sym(',');
      PortsRead(ports[1..], rest);
      assert ports == [ports[0]] + ports[1..];
    }
  }

  lemma OnePortReads(port: nat, rest: seq<Token>)
    ensures ReadPortExpr([Word(Decimal(port))] + rest) == Some(([port], rest))
  {
    ReadOfDecimal(port);
    assert ([Word(Decimal(port))] + rest)[1..] == rest;
  }

  lemma BracedReads(ports: seq<nat>, rest: seq<Token>)
    requires |ports| > 1
    ensures ReadPortExpr(PortExprTokens(ports) + rest) == Some((ports, rest))
  {
    hide ReadPorts, PortTokens;
    var ts := PortExprTokens(ports) + rest;
    assert ts[1..] == PortTokens(ports) + rest;
    PortsRead(ports, rest);
  }

  lemma PortExprReads(ports: seq<nat>, rest: seq<Token>)
    requires ports != []
    ensures ReadPortExpr(PortExprTokens(ports) + rest) == Some((ports, rest))
  {
    if |ports| == 1 {
      assert ports == [ports[0]];
      OnePortReads(ports[0], rest);
    } else {
      BracedReads(ports, rest);
    }
  }

  /** What `nft` takes after `ip`: an IPv4 block. */
  predicate TakenByIp(m: Match)
  {
    m.SourceOutside? || m.Destination? ==> m.net.family == V4
  }

  lemma MatchReads(net: NetText, m: Match, rest: seq<Token>)
    requires net.Faithful() && (m.Port? ==> m.ports != [])
    ensures ReadMatch(net, MatchTokens(net, m) + rest) == if TakenByIp(m) then Some((m, rest)) else None
  {
    match m
    case SourceOutside(n) => SourceReads(net, n, rest);
    case Tracked => TrackedReads(net, rest);
    case Destination(n) => DestinationReads(net, n, rest);
    case Port(protocol, ports) => PortReads(net, protocol, ports, rest);
  }

  lemma SourceReads(net: NetText, n: Net, rest: seq<Token>)
    requires net.Faithful()
    ensures ReadMatch(net, MatchTokens(net, SourceOutside(n)) + rest)
            == if n.family == V4 then Some((SourceOutside(n), rest)) else None
  {
    var ts := MatchTokens(net, SourceOutside(n)) + rest;
    assert ts[4..] == rest;
  }

  lemma TrackedReads(net: NetText, rest: seq<Token>)
    ensures ReadMatch(net, MatchTokens(net, Tracked) + rest) == Some((Tracked, rest))
  {
    var ts := MatchTokens(net, Tracked) + rest;
    assert ts[0] == Word("ct");
    assert ts[5..] == rest;
  }

  lemma DestinationReads(net: NetText, n: Net, rest: seq<Token>)
    requires net.Faithful()
    ensures ReadMatch(net, MatchTokens(net, Destination(n)) + rest)
            == if n.family == V4 then Some((Destination(n), rest)) else None
  {
    var ts := MatchTokens(net, Destination(n)) + rest;
    assert ts[3..] == rest;
  }

  lemma PortReads(net: NetText, protocol: Protocol, ports: seq<nat>, rest: seq<Token>)
    requires ports != []
    ensures ReadMatch(net, MatchTokens(net, Port(protocol, ports)) + rest) == Some((Port(protocol, ports), rest))
  {
    hide PortExprTokens, ReadPortExpr;
    var ts := MatchTokens(net, Port(protocol, ports)) + rest;
    assert ts[2..] == PortExprTokens(ports) + rest;
    assert ts[0] != Word("ct") && ts[0] == Word(ProtocolText(protocol));
    PortExprReads(ports, rest);
  }

  lemma MatchIsNotEnd(net: NetText, m: Match, rest: seq<Token>)
    requires m.Port? ==> m.ports != []
    ensures ReadEnd(MatchTokens(net, m) + rest) == None
  {
    var t := (MatchTokens(net, m) + rest)[0];
    assert t == MatchTokens(net, m)[0];
    assert t == Word("ip") || t == Word("ct") || t == Word("tcp") || t == Word("udp");
  }

  lemma ReadStep(net: NetText, m: Match, rest: seq<Token>)
    requires net.Faithful() && (m.Port? ==> m.ports != [])
    ensures ReadRule(net, MatchTokens(net, m) + rest)
            == if TakenByIp(m) && ReadRule(net, rest).Some?
               then Some(ReadRule(net, rest).value.(matches := [m] + ReadRule(net, rest).value.matches)) else None
  {
    MatchIsNotEnd(net, m, rest);
    MatchReads(net, m, rest);
  }

  /** What `nft` takes: IPv4 blocks after `ip`, and a comment that is not too long. */
  predicate Taken(r: Rule)
  {
    (forall m | m in r.matches :: TakenByIp(m)) && ShortComment(r)
  }

  predicate ShortComment(r: Rule)
  {
    r.comment.Some? ==> Bytes(r.comment.value) <= COMMENT_LIMIT
  }

  lemma EndReads(r: Rule)
    requires r.matches == []
    ensures ReadEnd(EndTokens(r)) == if ShortComment(r) then Some(r) else None
  {
  }

  lemma TakenStep(r: Rule, m: Match, tail: Rule)
    requires r.matches != [] && m == r.matches[0] && tail == r.(matches := r.matches[1..])
    ensures Taken(r) <==> TakenByIp(m) && Taken(tail)
  {
    assert r.matches == [m] + tail.matches;
  }

  lemma BareRuleReads(net: NetText, r: Rule)
    requires r.matches == []
    ensures ReadRule(net, MatchesTokens(net, r.matches) + EndTokens(r)) == if Taken(r) then Some(r) else None
  {
    assert [] + EndTokens(r) == EndTokens(r);
    EndReads(r);
  }

  lemma {:induction false} RuleReads(net: NetText, r: Rule)
    requires net.Faithful() && forall m | m in r.matches && m.Port? :: m.ports != []
    ensures ReadRule(net, MatchesTokens(net, r.matches) + EndTokens(r)) == if Taken(r) then Some(r) else None
    decreases |r.matches|
  {
    hide ReadRule, MatchTokens, Taken;
    var end := EndTokens(r);
    if r.matches == [] {
      BareRuleReads(net, r);
    } else {
      var m := r.matches[0];
      var tail := r.(matches := r.matches[1..]);
      TakenStep(r, m, tail);
      RuleReads(net, tail);
      ReadStep(net, m, MatchesTokens(net, tail.matches) + end);
      Assoc(MatchTokens(net, m), MatchesTokens(net, tail.matches), end);
      assert r.matches == [m] + tail.matches;
    }
  }

  lemma LineReads(net: NetText, r: Rule)
    requires net.Faithful() && WellFormed(r)
    ensures ReadRule(net, Lex(LineOf(net, r))) == if Taken(r) then Some(r) else None
  {
    LexLine(net, r);
    RuleReads(net, r);
  }

  lemma AllOfRules(rules: seq<Rule>)
    requires rules != []
    ensures (forall r | r in rules :: Taken(r)) <==> Taken(rules[0]) && forall r | r in rules[1..] :: Taken(r)
    ensures rules == [rules[0]] + rules[1..]
  {
    assert rules == [rules[0]] + rules[1..];
  }

  lemma {:induction false} RulesRead(net: NetText, rules: seq<Rule>)
    requires net.Faithful() && forall r | r in rules :: WellFormed(r)
    ensures ReadRules(net, LinesOf(net, rules)) == if forall r | r in rules :: Taken(r) then Some(rules) else None
  {
    if rules != [] {
      var r := rules[0];
      LineReads(net, r);
      var lines := LinesOf(net, rules);
      assert lines[0] == LineOf(net, r) && lines[1..] == LinesOf(net, rules[1..]);
      RulesRead(net, rules[1..]);
      AllOfRules(rules);
    }
  }

  // ---- The whole script ----

  lemma {:induction false} ServiceRulesMembers(services: seq<Service>)
    ensures forall r :: r in ServiceRules(services) <==> exists s | s in services :: s.ports != [] && r == ServiceRule(s)
  {
    if services != [] {
      var n := |services| - 1;
      ServiceRulesMembers(services[..n]);
      assert services == services[..n] + [services[n]];
    }
  }

  lemma CompiledWellFormed(services: seq<Service>, routes: seq<Net>, range: Net)
    ensures forall r | r in ChainOf(services, routes, range) :: WellFormed(r)
  {
    ServiceRulesMembers(services);
    assert '\n' < ' ';
    forall r | r in ChainOf(services, routes, range) ensures WellFormed(r) {
      if r in ServiceRules(services) {
        var s :| s in services && s.ports != [] && r == ServiceRule(s);
        assert Control('\n');
      }
    }
  }

  lemma {:induction false} MatchesPlain(net: NetText, ms: seq<Match>)
    requires net.Faithful()
    ensures '\n' !in MatchesText(net, ms)
  {
    if ms != [] {
      MatchPlain(net, ms[0]);
      MatchesPlain(net, ms[1..]);
    }
  }

  lemma {:induction false} PortsPlain(ports: seq<nat>)
    ensures '\n' !in Join(PortTexts(ports), ", ")
  {
    if |ports| > 1 {
      assert PortTexts(ports) == [Decimal(ports[0])] + PortTexts(ports[1..]);
      PortsPlain(ports[1..]);
    }
  }

  lemma MatchPlain(net: NetText, m: Match)
    requires net.Faithful()
    ensures '\n' !in MatchText(net, m)
  {
    match m
    case SourceOutside(n) =>
    case Tracked =>
    case Destination(n) =>
    case Port(protocol, ports) => PortsPlain(ports);
  }

  lemma LineIsPlain(net: NetText, r: Rule)
    requires net.Faithful() && WellFormed(r)
    ensures PlainLine(LineOf(net, r))
  {
    hide MatchesText, EndText, NetText.Faithful;
    MatchesPlain(net, r.matches);
    EndIsPlain(r);
    JoinedPlain("    ", MatchesText(net, r.matches), EndText(r));
  }

  lemma EndIsPlain(r: Rule)
    requires r.comment.Some? ==> '\n' !in r.comment.value
    ensures PlainLine(EndText(r)) && EndText(r) != ""
  {
    var end := EndText(r);
    assert '\n' !in end && end[|end| - 1] != '\r';
  }

  lemma AddPlain()
    ensures PlainLine("add table inet wsl_gateway")
  {
  }

  lemma DeletePlain()
    ensures PlainLine("delete table inet wsl_gateway")
  {
  }

  lemma TablePlain()
    ensures PlainLine("table inet wsl_gateway {")
  {
  }

  lemma JoinedPlain(a: string, b: string, c: string)
    requires '\n' !in a && '\n' !in b && PlainLine(c) && c != ""
    ensures PlainLine(a + b + c)
  {
    assert (a + b + c)[|a + b + c| - 1] == c[|c| - 1];
  }

  lemma HookPlain()
    ensures PlainLine(HOOK)
  {
    assert '\n' !in "    type filter hook forward";
    JoinedPlain("    type filter hook forward", " priority filter + 10;", " policy accept;");
  }

  lemma HeaderPlain()
    ensures forall l | l in Header() :: PlainLine(l)
  {
    AddPlain();
    DeletePlain();
    TablePlain();
    HookPlain();
    assert PlainLine("  chain forward {");
    assert forall l | l in Header() :: l == Header()[0] || l == Header()[1] || l == Header()[2] || l == Header()[3] || l == HOOK;
  }

  lemma ScriptLines(net: NetText, chain: seq<Rule>)
    requires net.Faithful() && forall r | r in chain :: WellFormed(r)
    ensures Lines(Script(net, chain)) == Header() + LinesOf(net, chain) + Footer()
  {
    HeaderPlain();
    forall l | l in LinesOf(net, chain) ensures PlainLine(l) {
      var i :| 0 <= i < |chain| && l == LinesOf(net, chain)[i];
      LineIsPlain(net, chain[i]);
    }
    LinesOfUnlines(Header() + LinesOf(net, chain) + Footer());
  }

  /** What `nft` takes of a policy: IPv4 throughout, and names whose escaped form is
      not too long in bytes. A service without ports counts for nothing. */
  predicate TakenPolicy(services: seq<Service>, routes: seq<Net>, range: Net)
  {
    && range.family == V4 && (forall r | r in routes :: r.family == V4)
    && forall s | s in services && s.ports != [] :: s.destination.family == V4 && Bytes(EscapeComment(s.name)) <= COMMENT_LIMIT
  }

  /** Whatever the services are called, the script is the compiled chain's; and
      `nft` reads it back rule for rule, or else refuses the whole of it. */
  lemma ScriptReadsBack(net: NetText, services: seq<Service>, routes: seq<Net>, range: Net)
    requires net.Faithful()
    ensures var chain := ChainOf(services, routes, range);
            ReadScript(net, Script(net, chain)) == if TakenPolicy(services, routes, range) then Some(chain) else None
  {
    var chain := ChainOf(services, routes, range);
    CompiledWellFormed(services, routes, range);
    ScriptLines(net, chain);
    var lines := Header() + LinesOf(net, chain) + Footer();
    assert lines[..5] == Header() && lines[|lines| - 2..] == Footer();
    assert lines[5..|lines| - 2] == LinesOf(net, chain);
    RulesRead(net, chain);
    AllTaken(services, routes, range);
  }

  lemma TakenOne(m: Match, v: Verdict)
    ensures Taken(Rule([m], v, None)) <==> TakenByIp(m)
  {
    assert [m][0] in [m];
    assert forall x | x in [m] :: x == m;
  }

  lemma ServicesTaken(services: seq<Service>)
    ensures (forall r | r in ServiceRules(services) :: Taken(r))
            <==> forall s | s in services && s.ports != [] :: s.destination.family == V4 && Bytes(EscapeComment(s.name)) <= COMMENT_LIMIT
  {
    hide Taken, ServiceRule, ServiceRules, EscapeComment, Bytes;
    ServiceRulesMembers(services);
    forall s: Service ensures Taken(ServiceRule(s)) <==> s.destination.family == V4 && Bytes(EscapeComment(s.name)) <= COMMENT_LIMIT {
      ServiceTaken(s);
    }
    assert forall s | s in services && s.ports != [] :: ServiceRule(s) in ServiceRules(services);
  }

  lemma ServiceTaken(s: Service)
    ensures Taken(ServiceRule(s)) <==> s.destination.family == V4 && Bytes(EscapeComment(s.name)) <= COMMENT_LIMIT
  {
    hide EscapeComment, Bytes;
    assert Destination(s.destination) in ServiceRule(s).matches;
  }

  lemma RoutesTaken(routes: seq<Net>)
    ensures (forall r | r in RouteRules(routes) :: Taken(r)) <==> forall r | r in routes :: r.family == V4
  {
    forall r: Net ensures Taken(RouteRule(r)) <==> r.family == V4 {
      TakenOne(Destination(r), Accept);
    }
    assert forall r | r in routes :: RouteRule(r) in RouteRules(routes);
  }

  lemma FirstTaken(range: Net)
    ensures (forall r | r in FirstRules(range) :: Taken(r)) <==> range.family == V4
  {
    TakenOne(SourceOutside(range), Return);
    TakenOne(Tracked, Accept);
    assert FirstRules(range)[0] in FirstRules(range);
  }

  lemma AllTaken(services: seq<Service>, routes: seq<Net>, range: Net)
    ensures (forall r | r in ChainOf(services, routes, range) :: Taken(r)) <==> TakenPolicy(services, routes, range)
  {
    ServicesTaken(services);
    RoutesTaken(routes);
    FirstTaken(range);
    assert Taken(Rule([], Drop, None));
    assert forall r :: r in ChainOf(services, routes, range)
             <==> r in FirstRules(range) || r in ServiceRules(services) || r in RouteRules(routes) || r == Rule([], Drop, None);
  }

  // ---- Names ----

  /** The characters of a name that a comment keeps, in order, before the cut: all
      but control characters, with quotes and backslashes replaced. */
  function Kept(name: string): (s: string)
  {
    if name == "" then ""
    else if Control(name[|name| - 1]) then Kept(name[..|name| - 1])
    else Kept(name[..|name| - 1]) + [if name[|name| - 1] == '"' || name[|name| - 1] == '\\' then '_' else name[|name| - 1]]
  }

  lemma {:induction false} CleanedAdds(a: string, b: string)
    ensures Cleaned(a + b) == Cleaned(a) + Cleaned(b)
  {
    if a == "" {
      assert a + b == b;
    } else {
      assert (a + b)[1..] == a[1..] + b && (a + b)[0] == a[0];
      CleanedAdds(a[1..], b);
    }
  }

  lemma {:induction false} CleanedIsKept(name: string)
    ensures Cleaned(name) == Kept(name)
  {
    if name != "" {
      var n := |name| - 1;
      assert name == name[..n] + [name[n]];
      CleanedAdds(name[..n], [name[n]]);
      CleanedIsKept(name[..n]);
      assert [name[n]][1..] == "";
    }
  }

  /** The comment is the first 63 characters kept; a name of at most 63 printable
      characters without quotes or backslashes is kept whole. */
  lemma EscapeKeeps(name: string)
    ensures EscapeComment(name) <= Kept(name) && |EscapeComment(name)| == if |Kept(name)| <= 63 then |Kept(name)| else 63
    ensures |name| <= 63 && (forall c | c in name :: !Control(c) && c != '"' && c != '\\') ==> EscapeComment(name) == name
  {
    CleanedIsKept(name);
    if forall c | c in name :: !Control(c) && c != '"' && c != '\\' {
      PlainIsKept(name);
    }
  }

  lemma {:induction false} PlainIsKept(name: string)
    requires forall c | c in name :: !Control(c) && c != '"' && c != '\\'
    ensures Cleaned(name) == name
  {
    if name != "" {
      assert name[0] in name && forall c | c in name[1..] :: c in name;
      PlainIsKept(name[1..]);
    }
  }

  // ASCII names are never too long; 43 characters of three bytes are.

  lemma {:induction false} AsciiBytes(s: string)
    requires forall c | c in s :: c < '\U{80}'
    ensures Bytes(s) == |s|
  {
    if s != "" {
      assert s[0] in s && forall c | c in s[1..] :: c in s;
      AsciiBytes(s[1..]);
    }
  }

  lemma {:induction false} CleanedAscii(name: string)
    requires forall c | c in name :: c < '\U{80}'
    ensures forall c | c in Cleaned(name) :: c < '\U{80}'
  {
    if name != "" {
      assert name[0] in name && forall c | c in name[1..] :: c in name;
      CleanedAscii(name[1..]);
    }
  }

  lemma AsciiNameTaken(name: string)
    requires forall c | c in name :: c < '\U{80}'
    ensures Bytes(EscapeComment(name)) <= COMMENT_LIMIT
  {
    CleanedAscii(name);
    var s := Cleaned(name);
    assert |s| > 63 ==> forall c | c in s[..63] :: c in s;
    AsciiBytes(EscapeComment(name));
  }

  function Euros(n: nat): (s: string)
    ensures |s| == n && forall c | c in s :: c == '\U{20AC}'
  {
    if n == 0 then "" else ['\U{20AC}'] + Euros(n - 1)
  }

  lemma {:induction false} EuroBytes(n: nat)
    ensures Bytes(Euros(n)) == 3 * n
  {
    if n > 0 {
      assert Euros(n)[1..] == Euros(n - 1);
      EuroBytes(n - 1);
    }
  }

  /** One service whose name `escape_comment` keeps within its 63 characters makes
      `nft` refuse the ruleset, and with it every other service's rule. */
  lemma LongNameRefused(net: NetText, before: seq<Service>, s: Service, after: seq<Service>, routes: seq<Net>, range: Net,
                         n: nat)
    requires net.Faithful() && s.ports != [] && 43 <= n <= 63 && s.name == Euros(n)
    ensures ReadScript(net, Script(net, ChainOf(before + [s] + after, routes, range))) == None
  {
    EuroBytes(n);
    EscapeKeeps(s.name);
    assert (before + [s] + after)[|before|] == s;
    ScriptReadsBack(net, before + [s] + after, routes, range);
  }
}
