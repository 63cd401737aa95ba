/** DNS servers, routing rules and the whole generated configuration: every name used is defined once. */
module Routing {
  import opened Words
  import opened Text
  import opened Profiles
  import opened Config

  datatype Platform = Windows | Linux | MacOs | Android | IOs

  datatype DnsServer = DnsServer(
    kind: string, tag: string, server: string, port: nat, detour: Option<string>, tlsName: Option<string>)

  datatype Verdict = Route(outbound: string) | HijackDns | Reject

  /** A routing rule: what it matches (an empty list stands for an absent field), and what happens to it. */
  datatype Rule = Rule(
    protocol: seq<string>, ipCidr: seq<string>, domain: seq<string>, network: seq<string>, port: seq<nat>,
    verdict: Verdict)

  datatype Options = Options(profile: Profile, bypassCidrs: seq<string>, dnsServers: seq<string>)

  datatype SingBoxConfig = SingBoxConfig(
    dnsServers: seq<DnsServer>,
    dnsStrategy: string,
    dnsFinal: string,
    inbounds: seq<string>,
    proxy: Outbound,
    fixedOutbounds: seq<string>,
    rules: seq<Rule>,
    defaultResolver: string,
    routeFinal: string)

  const LOCAL_NETWORK_CIDRS: seq<string> := [
    "0.0.0.0/8", "10.0.0.0/8", "100.64.0.0/10", "127.0.0.0/8", "169.254.0.0/16",
    "172.16.0.0/12", "192.168.0.0/16", "224.0.0.0/4", "255.255.255.255/32"]

  const BOOTSTRAP: string := "dns-bootstrap"

  function DnsTag(index: nat): string {
    "dns-" + Decimal(index)
  }

  /** The configured servers that are neither blank nor IPv6, or two public ones. */
  function DnsUpstreams(servers: seq<string>): (r: seq<string>)
    ensures r != []
  {
    var kept := Ipv4Only(servers);
    if kept == [] then ["1.1.1.1", "8.8.8.8"] else kept
  }

  function PublicDohServerName(server: string): Option<string> {
    if server == "1.1.1.1" || server == "1.0.0.1" then Some("cloudflare-dns.com")
    else if server == "8.8.8.8" || server == "8.8.4.4" then Some("dns.google")
    else if server == "9.9.9.9" || server == "149.112.112.112" then Some("dns.quad9.net")
    else None
  }

  function DnsServerFor(index: nat, server: string): DnsServer {
    var name := PublicDohServerName(server);
    if name.Some? then DnsServer("https", DnsTag(index), server, 443, Some("proxy"), name)
    else DnsServer("tcp", DnsTag(index), server, 53, Some("proxy"), None)
  }

  function DnsServers(upstreams: seq<string>): seq<DnsServer>
    requires upstreams != []
  {
    [DnsServer("udp", BOOTSTRAP, upstreams[0], 53, None, None)]
    + seq(|upstreams|, i requires 0 <= i < |upstreams| => DnsServerFor(i, upstreams[i]))
  }

  /** Different positions get different tags, and none of them is the bootstrap tag. */
  lemma DnsTagsDiffer(i: nat, j: nat)
    ensures DnsTag(i) == DnsTag(j) ==> i == j
    ensures DnsTag(i) != BOOTSTRAP
  {
    ValueOfDecimal(i);
    ValueOfDecimal(j);
    assert DnsTag(i)[4..] == Decimal(i) && DnsTag(j)[4..] == Decimal(j);
    assert DnsTag(i)[4] == Decimal(i)[0] && BOOTSTRAP[4] == 'b';
  }

  function NonBlank(values: seq<string>): seq<string> {
    if values == [] then []
    else (if Trim(values[0]) != "" then [Trim(values[0])] else []) + NonBlank(values[1..])
  }

  /** Addresses as host routes: `/32` is appended where no prefix length is given. */
  function HostCidrs(values: seq<string>): seq<string> {
    var kept := Ipv4Only(values);
    seq(|kept|, i requires 0 <= i < |kept| => if '/' in kept[i] then kept[i] else kept[i] + "/32")
  }

  ghost predicate RoutesTo(rules: seq<Rule>, outbounds: set<string>) {
    forall i :: 0 <= i < |rules| && rules[i].verdict.Route? ==> rules[i].verdict.outbound in outbounds
  }

  const EVERYTHING: Rule := Rule([], [], [], ["tcp", "udp"], [], Route("proxy"))
  const SIGNALLING_HOSTS: seq<string> := ["stream.wb.ru", "wbstream01-el.wb.ru"]

  function Direct(cidrs: seq<string>): Rule {
    Rule([], cidrs, [], [], [], Route("direct"))
  }

  /** One rule stands ahead of another. */
  ghost predicate Ahead(rules: seq<Rule>, first: Rule, second: Rule) {
    exists i, j :: 0 <= i < j < |rules| && rules[i] == first && rules[j] == second
  }

  /** The order that the common rules keep: DNS is hijacked before local networks go direct, and both
      the direct networks and the rejection of ICMP come before the rule for everything else. */
  ghost predicate Ordered(rules: seq<Rule>, bypass: seq<string>) {
    InThisOrder(rules, HIJACKS, Direct(LOCAL_NETWORK_CIDRS), Bypassing(bypass))
  }

  ghost predicate InThisOrder(rules: seq<Rule>, hijacks: seq<Rule>, local: Rule, kept: seq<Rule>) {
    && (forall r :: r in hijacks ==> Ahead(rules, r, local))
    && Ahead(rules, local, EVERYTHING)
    && (forall r :: r in kept ==> Ahead(rules, r, EVERYTHING))
    && Ahead(rules, NO_ICMP, EVERYTHING)
  }

  /** The direct rule for the bypass list, unless all its entries are blank. */
  function Bypassing(bypass: seq<string>): seq<Rule> {
    if NonBlank(bypass) == [] then [] else [Direct(NonBlank(bypass))]
  }

  /** Rules of the common part: they route to the proxy or directly, and match no domain. */
  ghost predicate Plain(r: Rule) {
    r.domain == [] && (r.verdict.Route? ==> r.verdict.outbound in {"direct", "proxy"})
  }

  const HIJACKS: seq<Rule> := [Rule(["dns"], [], [], [], [], HijackDns), Rule([], [], [], ["udp"], [53], HijackDns)]
  const NO_ICMP: Rule := Rule([], [], [], ["icmp"], [], Reject)

  method MobileRules(platform: Platform, upstreams: seq<string>) returns (rules: seq<Rule>)
    ensures forall r :: r in rules ==> Plain(r)
    ensures rules == if (platform.Android? || platform.IOs?) && HostCidrs(upstreams) != []
                     then [Rule([], HostCidrs(upstreams), [], ["tcp", "udp"], [53], Route("direct"))] else []
  {
    rules := [];
    if platform.Android? || platform.IOs? {
      var cidrs := HostCidrs(upstreams);
      if cidrs != [] {
        rules := rules + [Rule([], cidrs, [], ["tcp", "udp"], [53], Route("direct"))];
      }
    }
  }

  /** The rules common to all protocols. */
  method CommonRules(platform: Platform, bypass: seq<string>, upstreams: seq<string>) returns (rules: seq<Rule>)
    ensures forall r :: r in rules ==> Plain(r)
    ensures Ordered(rules, bypass) && EVERYTHING in rules
    ensures (platform.Android? || platform.IOs?) && HostCidrs(upstreams) != [] ==>
              rules != [] && rules[0] == Rule([], HostCidrs(upstreams), [], ["tcp", "udp"], [53], Route("direct"))
  {
    rules := MobileRules(platform, upstreams);
    ghost var mobile := rules;
    rules := rules + HIJACKS + [Direct(LOCAL_NETWORK_CIDRS)];
    var kept := NonBlank(bypass);
    if kept != [] {
      rules := rules + [Direct(kept)];
    }
    rules := rules + [NO_ICMP, EVERYTHING];
    InOrder(mobile, HIJACKS, Direct(LOCAL_NETWORK_CIDRS), Bypassing(bypass), rules);
    FixedRulesPlain();
    AllPlain(mobile, HIJACKS, Direct(LOCAL_NETWORK_CIDRS), Bypassing(bypass), rules);
  }

  lemma FixedRulesPlain()
    ensures forall r :: r in HIJACKS ==> Plain(r)
    ensures Plain(NO_ICMP) && Plain(EVERYTHING) && forall cidrs :: Plain(Direct(cidrs))
  {
  }

  lemma AllPlain(front: seq<Rule>, dns: seq<Rule>, local: Rule, kept: seq<Rule>, rules: seq<Rule>)
    requires rules == front + dns + [local] + kept + [NO_ICMP, EVERYTHING]
    requires forall r :: r in front || r in dns || r in kept ==> Plain(r)
    requires Plain(local) && Plain(NO_ICMP) && Plain(EVERYTHING)
    ensures forall r :: r in rules ==> Plain(r)
  {
  }

  lemma AheadAt(rules: seq<Rule>, i: nat, j: nat)
    requires i < j < |rules|
    ensures Ahead(rules, rules[i], rules[j])
  {
  }

  lemma InOrder(front: seq<Rule>, dns: seq<Rule>, local: Rule, kept: seq<Rule>, rules: seq<Rule>)
    requires rules == front + dns + [local] + kept + [NO_ICMP, EVERYTHING]
    ensures InThisOrder(rules, dns, local, kept) && EVERYTHING in rules
  {
    var n, last := |front| + |dns|, |rules| - 1;
    assert rules[n] == local && rules[last - 1] == NO_ICMP && rules[last] == EVERYTHING;
    AheadAt(rules, n, last);
    AheadAt(rules, last - 1, last);
    forall r | r in dns ensures Ahead(rules, r, local) {
      var k :| 0 <= k < |dns| && dns[k] == r;
      assert rules[|front| + k] == r;
      AheadAt(rules, |front| + k, n);
    }
    forall r | r in kept ensures Ahead(rules, r, EVERYTHING) {
      var k :| 0 <= k < |kept| && kept[k] == r;
      assert rules[n + 1 + k] == r;
      AheadAt(rules, n + 1 + k, last);
    }
  }

  lemma AheadAfterMore(rules: seq<Rule>, more: seq<Rule>, first: Rule, second: Rule)
    requires Ahead(rules, first, second)
    ensures Ahead(rules + more, first, second)
  {
    var i, j :| 0 <= i < j < |rules| && rules[i] == first && rules[j] == second;
    assert (rules + more)[i] == first && (rules + more)[j] == second;
  }

  lemma OrderedAfterMore(rules: seq<Rule>, more: seq<Rule>, hijacks: seq<Rule>, local: Rule, kept: seq<Rule>)
    requires InThisOrder(rules, hijacks, local, kept)
    ensures InThisOrder(rules + more, hijacks, local, kept)
  {
    forall r | r in hijacks ensures Ahead(rules + more, r, local) {
      AheadAfterMore(rules, more, r, local);
    }
    AheadAfterMore(rules, more, local, EVERYTHING);
    forall r | r in kept ensures Ahead(rules + more, r, EVERYTHING) {
      AheadAfterMore(rules, more, r, EVERYTHING);
    }
    AheadAfterMore(rules, more, NO_ICMP, EVERYTHING);
  }

  /** Rules appended to a list stand behind everything in it. */
  lemma AppendedBehind(rules: seq<Rule>, more: seq<Rule>, first: Rule)
    requires first in rules
    ensures forall r :: r in more ==> Ahead(rules + more, first, r)
  {
    var i :| 0 <= i < |rules| && rules[i] == first;
    forall r | r in more ensures Ahead(rules + more, first, r) {
      var j :| 0 <= j < |more| && more[j] == r;
      assert (rules + more)[i] == first && (rules + more)[|rules| + j] == r;
    }
  }

  const SIGNALLING: Rule := Rule([], [], SIGNALLING_HOSTS, [], [], Route("direct"))
  const OLC_RTC_RULES: seq<Rule> := [
    SIGNALLING,
    Rule([], [], [], ["tcp", "udp"], [3478, 5349], Route("direct")),
    Rule([], [], [], ["tcp"], [7880], Route("direct")),
    Rule([], [], [], ["udp"], [], Reject)]

  /** `route_rules_for_profile`: rules only ever route to the proxy or directly, in the order of
      `Ordered`; on mobile platforms DNS upstreams go direct before anything else; the signalling
      hosts have a direct rule exactly for OLC RTC; and all four rules of that protocol stand behind
      the rule that sends every TCP and UDP connection to the proxy. */
  method RouteRules(platform: Platform, p: Profile, bypass: seq<string>, upstreams: seq<string>) returns (rules: seq<Rule>)
    ensures RoutesTo(rules, {"direct", "proxy"})
    ensures Ordered(rules, bypass)
    ensures (platform.Android? || platform.IOs?) && HostCidrs(upstreams) != [] ==>
              rules != [] && rules[0] == Rule([], HostCidrs(upstreams), [], ["tcp", "udp"], [53], Route("direct"))
    ensures SIGNALLING in rules <==> p.protocol.OlcRtc?
    ensures p.protocol.OlcRtc? ==> forall r :: r in OLC_RTC_RULES ==> Ahead(rules, EVERYTHING, r)
  {
    rules := CommonRules(platform, bypass, upstreams);
    PlainRoutes(rules);
    if p.protocol.OlcRtc? {
      OlcRtcFollow(rules, bypass);
      rules := rules + OLC_RTC_RULES;
    }
  }

  lemma PlainRoutes(rules: seq<Rule>)
    requires forall r :: r in rules ==> Plain(r)
    ensures RoutesTo(rules, {"direct", "proxy"}) && SIGNALLING !in rules
  {
    assert forall i :: 0 <= i < |rules| ==> rules[i] in rules && Plain(rules[i]);
  }

  lemma OlcRtcRoutes()
    ensures RoutesTo(OLC_RTC_RULES, {"direct", "proxy"}) && SIGNALLING in OLC_RTC_RULES
  {
    assert OLC_RTC_RULES[0] == SIGNALLING;
  }

  lemma RoutesAppend(rules: seq<Rule>, more: seq<Rule>, outbounds: set<string>)
    requires RoutesTo(rules, outbounds) && RoutesTo(more, outbounds)
    ensures RoutesTo(rules + more, outbounds)
  {
  }

  /** The rules of OLC RTC behind the common ones. */
  lemma OlcRtcFollow(before: seq<Rule>, bypass: seq<string>)
    requires RoutesTo(before, {"direct", "proxy"}) && Ordered(before, bypass) && EVERYTHING in before
    ensures var rules := before + OLC_RTC_RULES;
      && RoutesTo(rules, {"direct", "proxy"}) && Ordered(rules, bypass) && SIGNALLING in rules
      && forall r :: r in OLC_RTC_RULES ==> Ahead(rules, EVERYTHING, r)
  {
    OlcRtcRoutes();
    RoutesAppend(before, OLC_RTC_RULES, {"direct", "proxy"});
    OrderedAfterMore(before, OLC_RTC_RULES, HIJACKS, Direct(LOCAL_NETWORK_CIDRS), Bypassing(bypass));
    AppendedBehind(before, OLC_RTC_RULES, EVERYTHING);
  }

  // ----- the whole configuration

  function DnsTags(c: SingBoxConfig): seq<string> {
    seq(|c.dnsServers|, i requires 0 <= i < |c.dnsServers| => c.dnsServers[i].tag)
  }

  ghost predicate DefinedOnce<T>(name: T, names: seq<T>) {
    exists i :: OnlyAt(name, names, i)
  }

  ghost predicate OnlyAt<T>(name: T, names: seq<T>, i: int) {
    0 <= i < |names| && names[i] == name && forall j :: 0 <= j < |names| && names[j] == name ==> i == j
  }

  function OutboundTags(c: SingBoxConfig): seq<string> {
    [if "tag" in c.proxy && c.proxy["tag"].String? then c.proxy["tag"].s else ""] + c.fixedOutbounds
  }

  /** Every tag the configuration mentions is defined exactly once: detours, the final outbound and
      rule outbounds among the outbounds, the final and default resolvers among the DNS servers, and
      no two DNS servers share a tag. */
  ghost predicate ReferenceClosed(c: SingBoxConfig) {
    && (forall i :: 0 <= i < |c.dnsServers| && c.dnsServers[i].detour.Some? ==>
          DefinedOnce(c.dnsServers[i].detour.value, OutboundTags(c)))
    && (forall i :: 0 <= i < |c.rules| && c.rules[i].verdict.Route? ==>
          DefinedOnce(c.rules[i].verdict.outbound, OutboundTags(c)))
    && DefinedOnce(c.routeFinal, OutboundTags(c))
    && DefinedOnce(c.dnsFinal, DnsTags(c))
    && DefinedOnce(c.defaultResolver, DnsTags(c))
    && (forall i :: 0 <= i < |c.dnsServers| ==> DefinedOnce(c.dnsServers[i].tag, DnsTags(c)))
  }

  lemma OneOfThree<T>(a: T, b: T, c: T)
    requires a != b && b != c && a != c
    ensures DefinedOnce(a, [a, b, c]) && DefinedOnce(b, [a, b, c])
  {
    var names := [a, b, c];
    assert OnlyAt(a, names, 0);
    assert OnlyAt(b, names, 1);
  }

  lemma OutboundsDefined(c: SingBoxConfig)
    requires IsProxy(c.proxy) && c.fixedOutbounds == ["direct", "block"]
    ensures DefinedOnce("proxy", OutboundTags(c)) && DefinedOnce("direct", OutboundTags(c))
  {
    assert "proxy"[0] == 'p' && "direct"[0] == 'd' && "block"[0] == 'b';
    OneOfThree("proxy", "direct", "block");
    assert OutboundTags(c) == ["proxy", "direct", "block"];
  }

  lemma DnsDefined(c: SingBoxConfig, upstreams: seq<string>)
    requires upstreams != [] && c.dnsServers == DnsServers(upstreams)
    ensures forall i :: 0 <= i < |c.dnsServers| ==> DefinedOnce(c.dnsServers[i].tag, DnsTags(c))
    ensures DefinedOnce(DnsTag(0), DnsTags(c)) && DefinedOnce(BOOTSTRAP, DnsTags(c))
  {
    var tags := DnsTags(c);
    assert |tags| == |upstreams| + 1;
    assert forall i :: 0 <= i < |tags| ==> tags[i] == if i == 0 then BOOTSTRAP else DnsTag(i - 1);
    forall i | 0 <= i < |tags| ensures DefinedOnce(tags[i], tags) {
      forall j | 0 <= j < |tags| && tags[j] == tags[i] ensures i == j {
        var x, y := if i == 0 then 0 else i - 1, if j == 0 then 0 else j - 1;
        DnsTagsDiffer(x, y);
        DnsTagsDiffer(y, x);
      }
      assert OnlyAt(tags[i], tags, i);
    }
    forall i | 0 <= i < |c.dnsServers| ensures DefinedOnce(c.dnsServers[i].tag, tags) {
      assert tags[i] == c.dnsServers[i].tag;
    }
    assert tags[0] == BOOTSTRAP && tags[1] == DnsTag(0);
  }

  lemma AssembledIsClosed(c: SingBoxConfig, upstreams: seq<string>)
    requires upstreams != [] && c.dnsServers == DnsServers(upstreams)
    requires IsProxy(c.proxy) && c.fixedOutbounds == ["direct", "block"]
    requires RoutesTo(c.rules, {"direct", "proxy"}) && c.routeFinal == "proxy"
    requires c.dnsFinal == "dns-0" && c.defaultResolver == BOOTSTRAP
    ensures ReferenceClosed(c)
  {
    OutboundsDefined(c);
    DnsDefined(c, upstreams);
    assert DnsTag(0) == "dns-0" by {
      assert Decimal(0) == "0";
    }
  }

  /** The DNS servers ask the given upstreams, in order and through the proxy; the bootstrap server
      asks the first of them without it. */
  ghost predicate Asks(c: SingBoxConfig, upstreams: seq<string>)
    requires upstreams != []
  {
    && |c.dnsServers| == |upstreams| + 1
    && c.dnsServers[0].tag == c.defaultResolver
    && c.dnsServers[0].server == upstreams[0] && c.dnsServers[0].detour == None
    && (forall i :: 0 <= i < |upstreams| ==>
          c.dnsServers[i + 1].server == upstreams[i] && c.dnsServers[i + 1].detour == Some(c.routeFinal))
  }

  lemma AssembledAsks(c: SingBoxConfig, upstreams: seq<string>)
    requires upstreams != [] && c.dnsServers == DnsServers(upstreams)
    requires c.defaultResolver == BOOTSTRAP && c.routeFinal == "proxy"
    ensures Asks(c, upstreams)
  {
    assert c.dnsServers[0] == DnsServer("udp", BOOTSTRAP, upstreams[0], 53, None, None);
    assert forall i :: 0 <= i < |upstreams| ==> c.dnsServers[i + 1] == DnsServerFor(i, upstreams[i]);
  }

  /** `generate_sing_box_config` succeeds exactly on the profiles that validation accepts and that
      meet the generator's own conditions, and what it generates is reference-closed, for every DNS
      list and every bypass list. */
  method GenerateSingBoxConfig(platform: Platform, o: Options, parse: string -> Option<u16>)
    returns (r: Outcome<SingBoxConfig>)
    ensures r.Ok? <==> Acceptable(o.profile) && GeneratorConditions(o.profile)
    ensures !Acceptable(o.profile) ==> r == Err(InvalidProfile)
    ensures r.Ok? ==> ReferenceClosed(r.value)
    ensures r.Ok? ==> Asks(r.value, DnsUpstreams(o.dnsServers)) && Ordered(r.value.rules, o.bypassCidrs)
  {
    var validation := Validate(o.profile);
    if !validation.valid {
      return Err(InvalidProfile);
    }
    OutboundExactly(o.profile, parse);
    var outbound := OutboundForProfile(o.profile, parse);
    if outbound.Err? {
      return Err(outbound.error);
    }
    var upstreams := DnsUpstreams(o.dnsServers);
    var rules := RouteRules(platform, o.profile, o.bypassCidrs, upstreams);
    var c := SingBoxConfig(
      DnsServers(upstreams), if platform.IOs? then "prefer_ipv4" else "ipv4_only", "dns-0",
      if platform.MacOs? then ["tun-in"] else ["tun-in", "mixed-in"],
      outbound.value, ["direct", "block"], rules, BOOTSTRAP, "proxy");
    OutboundIsProxy(o.profile, parse);
    AssembledIsClosed(c, upstreams);
    AssembledAsks(c, upstreams);
    r := Ok(c);
  }
}
