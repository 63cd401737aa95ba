/** Server profiles: what they hold, how imported URIs become profiles, and what validation asks of them. */
module Profiles {
  import opened Words
  import opened Text

  /** A JSON value; a number carries its value when it is an unsigned integer. */
  datatype Json =
    | Null
    | Bool(b: bool)
    | Number(unsigned: Option<nat>)
    | String(s: string)
    | Array(items: seq<Json>)
    | Object(fields: map<string, Json>)

  datatype Protocol =
    | Vless | Vmess | Trojan | Shadowsocks | WireGuard | Hysteria | Hysteria2 | Tuic | Tun | Mixed | Socks | Http | OlcRtc

  datatype TransportKind = Tcp | WebSocket | Grpc | HttpUpgrade | Xhttp | Quic

  datatype Auth = Auth(uuid: Option<string>, password: Option<string>, cipher: Option<string>, username: Option<string>)

  datatype Transport = Transport(
    kind: TransportKind, path: Option<string>, host: Option<string>, serviceName: Option<string>, headers: map<string, string>)

  datatype Tls = Tls(enabled: bool, serverName: Option<string>, alpn: seq<string>, insecure: bool, fingerprint: Option<string>)

  datatype Reality = Reality(publicKey: string, shortId: Option<string>)

  datatype WireGuardOptions = WireGuardOptions(
    privateKey: string, peerPublicKey: Option<string>, preSharedKey: Option<string>,
    localAddress: seq<string>, reserved: Option<seq<byte>>)

  datatype Profile = Profile(
    name: string,
    protocol: Protocol,
    server: string,
    port: u16,
    auth: Auth,
    transport: Transport,
    tls: Option<Tls>,
    reality: Option<Reality>,
    wireguard: Option<WireGuardOptions>,
    extra: map<string, Json>)

  // ----- validation

  datatype Fault =
    | NameRequired | ServerRequired | PortZero | UuidRequired | PasswordRequired | CipherRequired
    | WireGuardRequired | LocalInbound | KeyRequired | KeyNotHex | ProviderUnsupported | RealityNeedsVless

  datatype Warning = ProxyOnly | XhttpVersion | LocalClient

  datatype Validation = Validation(valid: bool, errors: seq<Fault>, warnings: seq<Warning>)

  function OrEmpty(s: Option<string>): string {
    match s
    case Some(v) => v
    case None => ""
  }

  function AsString(p: Profile, key: string): Option<string> {
    if key in p.extra && p.extra[key].String? then Some(p.extra[key].s) else None
  }

  /** The provider that validation sees: blank strings are not replaced by the default. */
  predicate ProviderOk(p: Profile) {
    match AsString(p, "provider")
    case Some(v) => v == "wb_stream"
    case None => true
  }

  /** What is wrong with a profile, fault by fault. */
  ghost predicate Has(p: Profile, f: Fault) {
    match f
    case NameRequired => Blank(p.name)
    case ServerRequired => Blank(p.server)
    case PortZero => p.port == 0
    case UuidRequired => (p.protocol.Vless? || p.protocol.Vmess?) && OrEmpty(p.auth.uuid) == ""
    case PasswordRequired =>
      (p.protocol.Trojan? || p.protocol.Hysteria? || p.protocol.Hysteria2? || p.protocol.Tuic? || p.protocol.Shadowsocks?)
      && OrEmpty(p.auth.password) == ""
    case CipherRequired => p.protocol.Shadowsocks? && OrEmpty(p.auth.cipher) == ""
    case WireGuardRequired => p.protocol.WireGuard? && p.wireguard == None
    case LocalInbound => p.protocol.Tun? || p.protocol.Mixed?
    case KeyRequired => p.protocol.OlcRtc? && OrEmpty(p.auth.password) == ""
    case KeyNotHex => p.protocol.OlcRtc? && p.auth.password.Some? && !IsHexKey(p.auth.password.value)
    case ProviderUnsupported => p.protocol.OlcRtc? && !ProviderOk(p)
    case RealityNeedsVless => p.reality.Some? && !p.protocol.Vless?
  }

  ghost predicate Acceptable(p: Profile) {
    forall f: Fault :: !Has(p, f)
  }

  /** What is worth a warning. */
  ghost predicate Warns(p: Profile, w: Warning) {
    match w
    case ProxyOnly => p.protocol.Socks? || p.protocol.Http?
    case XhttpVersion => p.transport.kind.Xhttp?
    case LocalClient => p.protocol.OlcRtc?
  }

  /** The faults that do not depend on the protocol's own fields. */
  predicate IsCommon(f: Fault) {
    f.NameRequired? || f.ServerRequired? || f.PortZero?
  }

  method CommonFaults(p: Profile) returns (errors: seq<Fault>)
    ensures forall f: Fault :: f in errors <==> IsCommon(f) && Has(p, f)
  {
    errors := [];
    TrimKeeps(p.name, 'a');
    TrimKeeps(p.server, 'a');
    if Trim(p.name) == "" {
      errors := errors + [NameRequired];
    }
    if Trim(p.server) == "" {
      errors := errors + [ServerRequired];
    }
    if p.port == 0 {
      errors := errors + [PortZero];
    }
  }

  method ProtocolFaults(p: Profile) returns (errors: seq<Fault>, warnings: seq<Warning>)
    ensures forall f: Fault :: f in errors <==> !IsCommon(f) && !f.RealityNeedsVless? && Has(p, f)
    ensures forall w: Warning :: w in warnings <==> w.ProxyOnly? && Warns(p, w)
  {
    errors, warnings := [], [];
    match p.protocol {
      case Vless | Vmess =>
        if OrEmpty(p.auth.uuid) == "" {
          errors := errors + [UuidRequired];
        }
      case Trojan | Hysteria | Hysteria2 | Tuic =>
        if OrEmpty(p.auth.password) == "" {
          errors := errors + [PasswordRequired];
        }
      case Shadowsocks =>
        if OrEmpty(p.auth.password) == "" {
          errors := errors + [PasswordRequired];
        }
        if OrEmpty(p.auth.cipher) == "" {
          errors := errors + [CipherRequired];
        }
      case WireGuard =>
        if p.wireguard == None {
          errors := errors + [WireGuardRequired];
        }
      case Tun | Mixed =>
        errors := errors + [LocalInbound];
      case Socks | Http =>
        warnings := warnings + [ProxyOnly];
      case OlcRtc =>
        errors := OlcRtcFaults(p);
    }
  }

  method OlcRtcFaults(p: Profile) returns (errors: seq<Fault>)
    requires p.protocol.OlcRtc?
    ensures forall f: Fault :: f in errors <==> (f.KeyRequired? || f.KeyNotHex? || f.ProviderUnsupported?) && Has(p, f)
  {
    errors := [];
    if OrEmpty(p.auth.password) == "" {
      errors := errors + [KeyRequired];
    }
    if p.auth.password.Some? && !IsHexKey(p.auth.password.value) {
      errors := errors + [KeyNotHex];
    }
    if !ProviderOk(p) {
      errors := errors + [ProviderUnsupported];
    }
  }

  /** `validate` reports exactly the faults and warnings the profile has, and calls it valid exactly
      when there are no faults. */
  method Validate(p: Profile) returns (v: Validation)
    ensures forall f: Fault :: f in v.errors <==> Has(p, f)
    ensures forall w: Warning :: w in v.warnings <==> Warns(p, w)
    ensures v.valid <==> Acceptable(p)
  {
    var errors := CommonFaults(p);
    var more, warnings := ProtocolFaults(p);
    errors := errors + more;
    if p.reality.Some? && !p.protocol.Vless? {
      errors := errors + [RealityNeedsVless];
    }
    if p.transport.kind.Xhttp? {
      warnings := warnings + [XhttpVersion];
    }
    if p.protocol.OlcRtc? {
      warnings := warnings + [LocalClient];
    }
    v := Validation(errors == [], errors, warnings);
    if errors != [] {
      assert errors[0] in errors;
    }
  }

  // ----- import of generic URIs

  /** A parsed URI, with percent-decoding as a parameter of the import. */
  datatype Uri = Uri(
    scheme: string, host: Option<string>, username: string, password: Option<string>,
    port: Option<u16>, path: string, query: map<string, string>, fragment: Option<string>)

  datatype ImportError = UnsupportedScheme | HostRequired | RoomIdRequired

  datatype Imported<T> = Success(value: T) | Failure(error: ImportError)

  function ProtocolOf(scheme: string): Option<Protocol> {
    if scheme == "vless" then Some(Vless)
    else if scheme == "trojan" then Some(Trojan)
    else if scheme == "wireguard" || scheme == "wg" then Some(WireGuard)
    else if scheme == "hysteria" then Some(Hysteria)
    else if scheme == "hysteria2" || scheme == "hy2" then Some(Hysteria2)
    else if scheme == "tuic" then Some(Tuic)
    else if scheme == "socks" || scheme == "socks5" then Some(Socks)
    else if scheme == "http" || scheme == "https" then Some(Http)
    else if scheme == "olcrtc" || scheme == "olcrtc+wbstream" || scheme == "wbstream" then Some(OlcRtc)
    else None
  }

  function Get(query: map<string, string>, key: string): Option<string> {
    if key in query then Some(query[key]) else None
  }

  function OrElse<T>(a: Option<T>, b: Option<T>): Option<T> {
    if a.Some? then a else b
  }

  function TrimSlashes(path: string): string {
    if path != "" && path[0] == '/' then TrimSlashes(path[1..]) else path
  }

  function RoomId(u: Uri): Imported<string> {
    if "roomId" in u.query && Trim(u.query["roomId"]) != "" then Success(u.query["roomId"])
    else
      var host, path := OrEmpty(u.host), TrimSlashes(u.path);
      var id := if (host == "wb_stream" || host == "wbstream") && path != "" then path else host;
      if Trim(id) == "" then Failure(RoomIdRequired) else Success(id)
  }

  function AuthOf(protocol: Protocol, u: Uri, decode: string -> string): Auth {
    match protocol
    case Vless => Auth(Some(u.username), None, None, None)
    case Trojan | Hysteria | Hysteria2 | Tuic => Auth(Get(u.query, "uuid"), Some(decode(u.username)), None, None)
    case Socks | Http => Auth(None, u.password, None, if u.username == "" then None else Some(decode(u.username)))
    case OlcRtc =>
      Auth(None,
           OrElse(Get(u.query, "key"), OrElse(u.password, if u.username != "" then Some(decode(u.username)) else None)),
           None, None)
    case _ => Auth(None, OrElse(u.password, Some(decode(u.username))), None, None)
  }

  function TransportOf(query: map<string, string>): Transport {
    var name := OrElse(Get(query, "type"), Get(query, "security"));
    var kind :=
      if name == Some("ws") || name == Some("websocket") then WebSocket
      else if name == Some("grpc") then Grpc
      else if name == Some("httpupgrade") then HttpUpgrade
      else if name == Some("xhttp") then Xhttp
      else if name == Some("quic") then Quic
      else Tcp;
    Transport(kind, Get(query, "path"), Get(query, "host"),
              OrElse(Get(query, "serviceName"), Get(query, "service_name")), map[])
  }

  function TlsOf(query: map<string, string>, split: string -> seq<string>): Option<Tls> {
    var security := Get(query, "security");
    if security == Some("tls") || security == Some("reality") || "sni" in query then
      var insecure := OrElse(Get(query, "allowInsecure"), Get(query, "insecure"));
      Some(Tls(true, OrElse(Get(query, "sni"), Get(query, "peer")),
               if "alpn" in query then split(query["alpn"]) else [],
               insecure == Some("1") || insecure == Some("true"), Get(query, "fp")))
    else None
  }

  function RealityOf(query: map<string, string>): Option<Reality> {
    if Get(query, "security") == Some("reality") then Some(Reality(OrEmpty(Get(query, "pbk")), Get(query, "sid"))) else None
  }

  function DefaultPort(protocol: Protocol): u16 {
    match protocol
    case Shadowsocks => 8388
    case Socks => 1080
    case Http => 8080
    case _ => 443
  }

  /** `parse_url_profile` on an already parsed URI. */
  function ParseUrlProfile(u: Uri, decode: string -> string, split: string -> seq<string>): Imported<Profile> {
    match ProtocolOf(u.scheme)
    case None => Failure(UnsupportedScheme)
    case Some(protocol) =>
      var fragment := if u.fragment.Some? then decode(u.fragment.value) else "";
      var name := if Trim(fragment) != "" then fragment else if u.host.Some? then u.host.value else "OLC RTC";
      var server: Imported<string> :=
        if protocol.OlcRtc? then RoomId(u)
        else if u.host.Some? then Success(u.host.value) else Failure(HostRequired);
      match server
      case Failure(e) => Failure(e)
      case Success(s) =>
        Success(Profile(
          name, protocol, s,
          if u.port.Some? then u.port.value else DefaultPort(protocol),
          AuthOf(protocol, u, decode), TransportOf(u.query), TlsOf(u.query, split), RealityOf(u.query), None,
          map key | key in u.query :: String(u.query[key])))
  }
}
