/** The sing-box configuration generated for a profile, and its agreement with validation. */
module Config {
  import opened Words
  import opened Text
  import opened Profiles

  datatype Error = InvalidProfile | Unsupported

  datatype Outcome<+T> = Ok(value: T) | Err(error: Error)

  // ----- the OLC RTC settings of a profile

  datatype OlcRtcConfig = OlcRtcConfig(
    provider: string, roomId: string, keyHex: string, localHost: string, localPort: u16, displayName: string)

  const DEFAULT_PROVIDER: string := "wb_stream"
  const DEFAULT_LOCAL_HOST: string := "127.0.0.1"
  const DEFAULT_LOCAL_PORT: u16 := 10808

  /** A string extra that is not blank. */
  function StringExtra(p: Profile, key: string): Option<string> {
    match AsString(p, key)
    case Some(v) => if Trim(v) == "" then None else Some(v)
    case None => None
  }

  function U16Extra(p: Profile, key: string, parse: string -> Option<u16>): Option<u16> {
    if key !in p.extra then None
    else
      match p.extra[key]
      case Number(Some(n)) => if n < TWO_TO_THE_16 then Some(n) else None
      case String(s) => parse(s)
      case _ => None
  }

  function FromProfile(p: Profile, parse: string -> Option<u16>): Outcome<OlcRtcConfig> {
    var provider := Or(StringExtra(p, "provider"), DEFAULT_PROVIDER);
    if provider != DEFAULT_PROVIDER then Err(Unsupported)
    else
      var roomId := Or(StringExtra(p, "roomId"), p.server);
      if Trim(roomId) == "" then Err(InvalidProfile)
      else
        match EffectiveKey(p)
        case None => Err(InvalidProfile)
        case Some(key) =>
          if !IsHexKey(key) then Err(InvalidProfile)
          else Ok(OlcRtcConfig(provider, roomId, key, Or(StringExtra(p, "localHost"), DEFAULT_LOCAL_HOST),
                               Or(U16Extra(p, "localPort", parse), DEFAULT_LOCAL_PORT), p.name))
  }

  function Or<T>(a: Option<T>, b: T): T {
    match a
    case Some(v) => v
    case None => b
  }

  function EffectiveKey(p: Profile): Option<string> {
    OrElse(StringExtra(p, "key"), p.auth.password)
  }

  // ----- the proxy outbound

  type Outbound = map<string, Json>

  function Required(value: Option<string>): Outcome<string> {
    if value.Some? && value.value != "" then Ok(value.value) else Err(InvalidProfile)
  }

  function Ipv4Only(values: seq<string>): seq<string> {
    if values == [] then []
    else
      var v := Trim(values[0]);
      (if v != "" && ':' !in v then [v] else []) + Ipv4Only(values[1..])
  }

  function JsonText(value: Option<string>): Json {
    match value
    case Some(s) => String(s)
    case None => Null
  }

  function JsonTexts(values: seq<string>): Json {
    Array(seq(|values|, i requires 0 <= i < |values| => String(values[i])))
  }

  function JsonBytes(value: Option<seq<byte>>): Json {
    match value
    case Some(bytes) => Array(seq(|bytes|, i requires 0 <= i < |bytes| => JsonNumber(bytes[i])))
    case None => Null
  }

  function JsonNumber(n: nat): Json {
    Number(Some(n))
  }

  function Remote(kind: string, p: Profile): Outbound {
    map["type" := String(kind), "tag" := String("proxy"), "server" := String(p.server), "server_port" := JsonNumber(p.port)]
  }

  function StripNulls(o: Outbound): Outbound {
    map key | key in o && o[key] != Null :: o[key]
  }

  function Hysteria2Obfs(p: Profile): Json {
    var password := if "obfs-password" in p.extra then AsString(p, "obfs-password") else AsString(p, "obfsPassword");
    if AsString(p, "obfs").Some? && password.Some? then
      Object(map["type" := JsonText(AsString(p, "obfs")), "password" := JsonText(password)])
    else Null
  }

  function Base(p: Profile, parse: string -> Option<u16>): Outcome<Outbound> {
    var uuid, password, cipher := Required(p.auth.uuid), Required(p.auth.password), Required(p.auth.cipher);
    match p.protocol
    case Vless =>
      if uuid.Err? then Err(uuid.error)
      else Ok(Remote("vless", p)["uuid" := String(uuid.value)]["flow" := String(Or(AsString(p, "flow"), ""))])
    case Vmess =>
      if uuid.Err? then Err(uuid.error)
      else Ok(Remote("vmess", p)["uuid" := String(uuid.value)]["security" := String(Or(AsString(p, "security"), "auto"))])
    case Trojan =>
      if password.Err? then Err(password.error) else Ok(Remote("trojan", p)["password" := String(password.value)])
    case Shadowsocks =>
      if cipher.Err? then Err(cipher.error)
      else if password.Err? then Err(password.error)
      else Ok(Remote("shadowsocks", p)["method" := String(cipher.value)]["password" := String(password.value)])
    case WireGuard =>
      (match p.wireguard
       case None => Err(InvalidProfile)
       case Some(wg) =>
         if Ipv4Only(wg.localAddress) == [] then Err(InvalidProfile)
         else Ok(Remote("wireguard", p)["private_key" := String(wg.privateKey)]["peer_public_key" := JsonText(wg.peerPublicKey)]
                   ["pre_shared_key" := JsonText(wg.preSharedKey)]["local_address" := JsonTexts(Ipv4Only(wg.localAddress))]
                   ["reserved" := JsonBytes(wg.reserved)]))
    case Hysteria =>
      if password.Err? then Err(password.error)
      else Ok(StripNulls(Remote("hysteria", p)["auth_str" := String(password.value)]["up_mbps" := JsonNumber(10000)]
                           ["down_mbps" := JsonNumber(10000)]["obfs" := JsonText(AsString(p, "obfs"))]))
    case Hysteria2 =>
      if password.Err? then Err(password.error)
      else Ok(StripNulls(Remote("hysteria2", p)["password" := String(password.value)]["obfs" := Hysteria2Obfs(p)]))
    case Tuic =>
      if password.Err? then Err(password.error)
      else Ok(Remote("tuic", p)["uuid" := JsonText(p.auth.uuid)]["password" := String(password.value)])
    case Socks => Ok(Remote("socks", p)["username" := JsonText(p.auth.username)]["password" := JsonText(p.auth.password)])
    case Http => Ok(Remote("http", p)["username" := JsonText(p.auth.username)]["password" := JsonText(p.auth.password)])
    case OlcRtc =>
      (match FromProfile(p, parse)
       case Err(e) => Err(e)
       case Ok(c) => Ok(map["type" := String("socks"), "tag" := String("proxy"),
                            "server" := String(c.localHost), "server_port" := JsonNumber(c.localPort)]))
    case Tun => Err(Unsupported)
    case Mixed => Err(Unsupported)
  }

  /** Writes the TLS settings into the outbound. */
  function AddTls(p: Profile, o: Outbound): Outbound {
    var utls := if p.protocol.Hysteria? || p.protocol.Hysteria2? || p.protocol.Tuic? || p.tls == None
                   || p.tls.value.fingerprint == None then Null
                else Object(map["enabled" := Bool(true), "fingerprint" := JsonText(p.tls.value.fingerprint)]);
    var plain :=
      if p.tls.Some? && p.tls.value.enabled then
        o["tls" := Object(map["enabled" := Bool(true), "server_name" := JsonText(p.tls.value.serverName),
                              "alpn" := JsonTexts(p.tls.value.alpn), "insecure" := Bool(p.tls.value.insecure), "utls" := utls])]
      else o;
    if p.reality.Some? then
      var serverName := if p.tls.Some? then p.tls.value.serverName else None;
      plain["tls" := Object(map["enabled" := Bool(true), "server_name" := JsonText(serverName),
                                "reality" := Object(map["enabled" := Bool(true), "public_key" := String(p.reality.value.publicKey),
                                                        "short_id" := JsonText(p.reality.value.shortId)]),
                                "utls" := utls])]
    else plain
  }

  function AddTransport(p: Profile, o: Outbound): Outbound {
    var t := p.transport;
    match t.kind
    case Tcp => o
    case WebSocket =>
      var headers := map key | key in t.headers :: String(t.headers[key]);
      o["transport" := Object(map["type" := String("ws"), "path" := JsonText(t.path), "headers" := Object(headers)])]
    case Grpc => o["transport" := Object(map["type" := String("grpc"), "service_name" := JsonText(t.serviceName)])]
    case HttpUpgrade =>
      o["transport" := Object(map["type" := String("httpupgrade"), "path" := JsonText(t.path), "host" := JsonText(t.host)])]
    case Xhttp =>
      o["transport" := Object(map["type" := String("xhttp"), "path" := JsonText(t.path), "host" := JsonText(t.host)])]
    case Quic => o["transport" := Object(map["type" := String("quic")])]
  }

  function OutboundForProfile(p: Profile, parse: string -> Option<u16>): Outcome<Outbound> {
    match Base(p, parse)
    case Err(e) => Err(e)
    case Ok(o) => Ok(AddTransport(p, AddTls(p, o)))
  }

  // ----- agreement with validation

  /** Some address is neither blank nor contains a colon. */
  ghost predicate HasIpv4(addresses: seq<string>) {
    exists a :: a in addresses && !Blank(a) && ':' !in a
  }

  /** What generation asks beyond validation. */
  ghost predicate GeneratorConditions(p: Profile) {
    && (p.protocol.WireGuard? ==> p.wireguard.Some? && HasIpv4(p.wireguard.value.localAddress))
    && (p.protocol.OlcRtc? ==> EffectiveKey(p).Some? && IsHexKey(EffectiveKey(p).value))
  }

  /** What is kept are the trimmed entries that are neither blank nor contain a colon, and nothing else. */
  lemma {:induction false} Ipv4OnlyExactly(values: seq<string>)
    ensures forall v :: v in Ipv4Only(values) <==> v != "" && ':' !in v && exists a :: a in values && Trim(a) == v
    ensures Ipv4Only(values) != [] <==> HasIpv4(values)
  {
    if values != [] {
      TrimKeeps(values[0], ':');
      Ipv4OnlyExactly(values[1..]);
      assert values == [values[0]] + values[1..];
      assert forall a :: a in values <==> a == values[0] || a in values[1..];
    }
  }

  lemma StringExtraBlank(p: Profile, key: string)
    ensures StringExtra(p, key).Some? ==> AsString(p, key) == StringExtra(p, key) && !Blank(StringExtra(p, key).value)
  {
    if AsString(p, key).Some? {
      TrimKeeps(AsString(p, key).value, 'a');
    }
  }

  lemma FromProfileExactly(p: Profile, parse: string -> Option<u16>)
    requires Acceptable(p) && p.protocol.OlcRtc?
    ensures FromProfile(p, parse).Ok? <==> EffectiveKey(p).Some? && IsHexKey(EffectiveKey(p).value)
  {
    assert !Has(p, ProviderUnsupported) && !Has(p, ServerRequired);
    StringExtraBlank(p, "provider");
    StringExtraBlank(p, "roomId");
    TrimKeeps(p.server, 'a');
    if StringExtra(p, "roomId").Some? {
      TrimKeeps(StringExtra(p, "roomId").value, 'a');
    }
  }

  /** On profiles that pass validation the outbound is built exactly under the two extra conditions. */
  lemma OutboundExactly(p: Profile, parse: string -> Option<u16>)
    requires Acceptable(p)
    ensures OutboundForProfile(p, parse).Ok? <==> GeneratorConditions(p)
  {
    assert !Has(p, UuidRequired) && !Has(p, PasswordRequired) && !Has(p, CipherRequired)
        && !Has(p, WireGuardRequired) && !Has(p, LocalInbound);
    if p.protocol.OlcRtc? {
      FromProfileExactly(p, parse);
    }
    if p.protocol.WireGuard? {
      Ipv4OnlyExactly(p.wireguard.value.localAddress);
    }
  }

  // ----- valid profiles that do not generate

  const PLAIN: Transport := Transport(Tcp, None, None, None, map[])
  const NO_AUTH: Auth := Auth(None, None, None, None)

  function WireGuardWith(addresses: seq<string>): Profile {
    Profile("wg", WireGuard, "example.org", 51820, NO_AUTH, PLAIN, None, None,
            Some(WireGuardOptions("key", None, None, addresses, None)), map[])
  }

  /** An OLC RTC profile with a good shared key and another string under the extra `key`. */
  function HiddenKey(password: string, key: string): Profile {
    Profile("rtc", OlcRtc, "room", 443, NO_AUTH.(password := Some(password)), PLAIN, None, None, None,
            map["key" := String(key)])
  }

  lemma NotBlank(s: string)
    requires s != "" && 'a' <= s[0] <= 'z'
    ensures !Blank(s)
  {
    assert !IsWhitespace(s[0]);
  }

  /** A WireGuard profile is valid with any local addresses, and fails without an IPv4 one. */
  lemma NoIpv4Fails(addresses: seq<string>, parse: string -> Option<u16>)
    requires !HasIpv4(addresses)
    ensures Acceptable(WireGuardWith(addresses))
    ensures OutboundForProfile(WireGuardWith(addresses), parse) == Err(InvalidProfile)
  {
    NotBlank("wg");
    NotBlank("example.org");
    Ipv4OnlyExactly(addresses);
  }

  /** Such addresses are, for one, those of an IPv6-only tunnel. */
  lemma Ipv6Only(addresses: seq<string>)
    requires forall a :: a in addresses ==> ':' in a
    ensures !HasIpv4(addresses)
  {
  }

  /** Every non-blank `key` that is not a 64-digit key makes a valid profile fail, and there is one. */
  lemma HiddenKeyFails(password: string, key: string, parse: string -> Option<u16>)
    requires IsHexKey(password) && Trim(key) != "" && !IsHexKey(key)
    ensures Acceptable(HiddenKey(password, key))
    ensures OutboundForProfile(HiddenKey(password, key), parse) == Err(InvalidProfile)
  {
    NotBlank("rtc");
    NotBlank("room");
    HexKeyExactly(password);
    OtherExtras();
    assert StringExtra(HiddenKey(password, key), "key") == Some(key);
  }

  lemma OtherExtras()
    ensures "key" != "provider" && "key" != "roomId"
  {
    assert "key"[0] == 'k';
  }

  lemma HiddenKeyExists() returns (password: string, key: string)
    ensures IsHexKey(password) && Trim(key) != "" && !IsHexKey(key)
  {
    password, key := seq(64, _ => '0'), "x";
    HexKeyExactly(password);
    HexKeyExactly(key);
    NotBlank(key);
    TrimKeeps(key, 'x');
  }

  /** The import copies the `key` parameter both to the password and to the extras. */
  lemma ImportedKey(u: Uri, decode: string -> string, split: string -> seq<string>)
    requires ParseUrlProfile(u, decode, split).Success?
    requires var p := ParseUrlProfile(u, decode, split).value; p.protocol.OlcRtc? && Acceptable(p)
    ensures var p := ParseUrlProfile(u, decode, split).value;
      p.auth.password.Some? && EffectiveKey(p) == p.auth.password && IsHexKey(p.auth.password.value)
  {
    var p := ParseUrlProfile(u, decode, split).value;
    assert !Has(p, KeyRequired) && !Has(p, KeyNotHex);
    assert AsString(p, "key") == Get(u.query, "key");
    HexKeyExactly(p.auth.password.value);
    StringExtraBlank(p, "key");
  }

  /** Every profile that the URI import produces and validation accepts meets those conditions. */
  lemma ImportedProfilesGenerate(u: Uri, decode: string -> string, split: string -> seq<string>)
    ensures var r := ParseUrlProfile(u, decode, split);
      r.Success? && Acceptable(r.value) ==> GeneratorConditions(r.value)
  {
    var r := ParseUrlProfile(u, decode, split);
    if r.Success? && Acceptable(r.value) {
      assert !Has(r.value, WireGuardRequired);
      if r.value.protocol.OlcRtc? {
        ImportedKey(u, decode, split);
      }
    }
  }

  lemma OtherKeys()
    ensures "tag" != "tls" && "tag" != "transport" && "tag" != "uuid" && "tag" != "flow" && "tag" != "security"
    ensures "tag" != "password" && "tag" != "method" && "tag" != "private_key" && "tag" != "peer_public_key"
    ensures "tag" != "pre_shared_key" && "tag" != "local_address" && "tag" != "reserved" && "tag" != "auth_str"
    ensures "tag" != "up_mbps" && "tag" != "down_mbps" && "tag" != "obfs" && "tag" != "username"
    ensures "tag" != "server" && "tag" != "server_port" && "tag" != "type"
  {
    assert "tag"[1] == 'a';
    assert "tls"[1] == 'l' && "transport"[1] == 'r' && "type"[1] == 'y';
  }

  ghost predicate IsProxy(o: Outbound) {
    "tag" in o && o["tag"] == String("proxy")
  }

  lemma SettingsKeepTag(p: Profile, o: Outbound)
    requires IsProxy(o)
    ensures IsProxy(AddTransport(p, AddTls(p, o)))
  {
    OtherKeys();
    assert IsProxy(AddTls(p, o));
  }

  lemma RemoteIsProxy(kind: string, p: Profile)
    ensures IsProxy(Remote(kind, p))
  {
    OtherKeys();
  }

  lemma BaseIsProxy(p: Profile, parse: string -> Option<u16>)
    ensures Base(p, parse).Ok? ==> IsProxy(Base(p, parse).value)
  {
    OtherKeys();
    match p.protocol
    case Vless => RemoteIsProxy("vless", p);
    case Vmess => RemoteIsProxy("vmess", p);
    case Trojan => RemoteIsProxy("trojan", p);
    case Shadowsocks => RemoteIsProxy("shadowsocks", p);
    case WireGuard => RemoteIsProxy("wireguard", p);
    case Hysteria => RemoteIsProxy("hysteria", p);
    case Hysteria2 => RemoteIsProxy("hysteria2", p);
    case Tuic => RemoteIsProxy("tuic", p);
    case Socks => RemoteIsProxy("socks", p);
    case Http => RemoteIsProxy("http", p);
    case _ =>
  }

  /** The outbound of every profile carries the tag that the rest of the configuration refers to,
      whatever TLS and transport settings were written into it. */
  lemma OutboundIsProxy(p: Profile, parse: string -> Option<u16>)
    ensures OutboundForProfile(p, parse).Ok? ==> IsProxy(OutboundForProfile(p, parse).value)
  {
    BaseIsProxy(p, parse);
    if Base(p, parse).Ok? {
      SettingsKeepTag(p, Base(p, parse).value);
    }
  }
}
