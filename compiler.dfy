/**
 * Compiles an aggregate model, the inbound port, the sniffing snapshot and the
 * routing settings into the engine configuration document: one SOCKS inbound,
 * the proxy, direct and block outbounds, and the enabled routing rules.
 */
module Compiler {
  import opened Wrappers
  import opened Configuration
  import opened Document
  import Parser

  /** A compilation failure: the variant whose payload slot is empty, or an undecodable stored model. */
  datatype BuildError = BuildFailed(variant: string) | DecodeFailed

  // ---------------------------------------------------------------------------
  // Routing rules

  /** The stored routing settings: their other fields (kept opaque) and the rule list. */
  datatype RouteSnapshot = RouteSnapshot(options: Json, rules: seq<RouteRule>)

  /** The enabled rules, in their original order. */
  function EnabledRules(rules: seq<RouteRule>): (r: seq<RouteRule>)
    ensures |r| <= |rules|
    ensures forall x :: x in r <==> x in rules && x.enabled
    decreases |rules|
  {
    if |rules| == 0 then []
    else
      assert rules == [rules[0]] + rules[1..];
      (if rules[0].enabled then [rules[0]] else []) + EnabledRules(rules[1..])
  }

  /** Filtering distributes over concatenation, so the kept rules keep their relative order. */
  lemma {:induction false} EnabledRulesAppend(a: seq<RouteRule>, b: seq<RouteRule>)
    ensures EnabledRules(a + b) == EnabledRules(a) + EnabledRules(b)
    decreases |a|
  {
    if |a| > 0 {
      assert (a + b)[0] == a[0];
      assert (a + b)[1..] == a[1..] + b;
      EnabledRulesAppend(a[1..], b);
    } else {
      assert a + b == b;
    }
  }

  /** A list of enabled rules is left as it is; in particular, filtering twice is filtering once. */
  lemma {:induction false} EnabledRulesKeepsEnabled(rules: seq<RouteRule>)
    requires forall i :: 0 <= i < |rules| ==> rules[i].enabled
    ensures EnabledRules(rules) == rules
    decreases |rules|
  {
    if |rules| > 0 {
      EnabledRulesKeepsEnabled(rules[1..]);
      assert rules == [rules[0]] + rules[1..];
    }
  }

  lemma EnabledRulesIdempotent(rules: seq<RouteRule>)
    ensures EnabledRules(EnabledRules(rules)) == EnabledRules(rules)
  {
    var kept := EnabledRules(rules);
    forall i | 0 <= i < |kept| ensures kept[i].enabled {
      assert kept[i] in kept;
    }
    EnabledRulesKeepsEnabled(kept);
  }

  /** The routing model; building it drops the disabled rules in place. */
  class RouteModel {
    var options: Json
    var rules: seq<RouteRule>

    constructor (snapshot: RouteSnapshot)
      ensures options == snapshot.options && rules == snapshot.rules
    {
      options := snapshot.options;
      rules := snapshot.rules;
    }

    method Build() returns (doc: Json)
      modifies this
      ensures rules == EnabledRules(old(rules)) && options == old(options)
      ensures doc == Encoded(RouteValue(options, rules))
    {
      rules := EnabledRules(rules);
      doc := Encoded(RouteValue(options, rules));
    }
  }

  // ---------------------------------------------------------------------------
  // Variant selection

  /** The payload slot the protocol discriminator selects. */
  function ProtocolPayload(m: Model): Option<Encodable> {
    match m.protocolType
    case vless => if m.vless.Some? then Some(VLESSValue(m.vless.value)) else None
    case vmess => if m.vmess.Some? then Some(VMessValue(m.vmess.value)) else None
    case trojan => if m.trojan.Some? then Some(TrojanValue(m.trojan.value)) else None
    case shadowsocks => if m.shadowsocks.Some? then Some(ShadowsocksValue(m.shadowsocks.value)) else None
  }

  /** The payload slot the network discriminator selects. */
  function TransportPayload(m: Model): Option<Encodable> {
    match m.network
    case tcp => if m.tcp.Some? then Some(TCPValue(m.tcp.value)) else None
    case kcp => if m.kcp.Some? then Some(KCPValue(m.kcp.value)) else None
    case ws => if m.ws.Some? then Some(WSValue(m.ws.value)) else None
    case http => if m.http.Some? then Some(HTTPValue(m.http.value)) else None
    case quic => if m.quic.Some? then Some(QUICValue(m.quic.value)) else None
    case grpc => if m.grpc.Some? then Some(GRPCValue(m.grpc.value)) else None
  }

  /** The payload slot the security discriminator selects; `none` selects nothing. */
  function SecurityPayload(m: Model): Option<Encodable> {
    match m.security
    case none => None
    case tls => if m.tls.Some? then Some(TLSValue(m.tls.value)) else None
    case reality => if m.reality.Some? then Some(RealityValue(m.reality.value)) else None
  }

  /** The network and, unless it is `none`, the security layer find their payload slots filled. */
  predicate StreamBuildable(m: Model) {
    TransportPayload(m).Some? && (m.security != Security.none ==> SecurityPayload(m).Some?)
  }

  /** Every discriminator of the model finds its payload slot filled. */
  predicate Buildable(m: Model) {
    ProtocolPayload(m).Some? && StreamBuildable(m)
  }

  /** The discriminator reported when compilation fails: the first axis, in building order, with an empty slot. */
  function MissingVariant(m: Model): string {
    if ProtocolPayload(m).None? then m.protocolType.Raw()
    else if TransportPayload(m).None? then m.network.Raw()
    else m.security.Raw()
  }

  /** The settings key under which a protocol lists its servers. */
  function ServersKey(p: ProtocolType): string {
    match p
    case vless => "vnext"
    case vmess => "vnext"
    case trojan => "servers"
    case shadowsocks => "servers"
  }

  /** The stream-settings key that carries a transport's payload. */
  function TransportKey(t: Transport): string {
    match t
    case tcp => "tcpSettings"
    case kcp => "kcpSettings"
    case ws => "wsSettings"
    case http => "httpSettings"
    case quic => "quicSettings"
    case grpc => "grpcSettings"
  }

  /** The stream-settings keys that carry a security layer's payload: none for `none`. */
  function SecurityKeys(s: Security): set<string> {
    match s
    case none => {}
    case tls => {"tlsSettings"}
    case reality => {"realitySettings"}
  }

  // ---------------------------------------------------------------------------
  // The shape of the document

  predicate IsSocksInbound(j: Json, port: int, sniffing: Json) {
    && j.JObj?
    && j.fields.Keys == {"listen", "protocol", "settings", "tag", "port", "sniffing"}
    && j.fields["listen"] == JStr("[::1]")
    && j.fields["protocol"] == JStr("socks")
    && j.fields["settings"] == JObj(map["udp" := JBool(true), "auth" := JStr("noauth")])
    && j.fields["tag"] == JStr("socks-in")
    && j.fields["port"] == JInt(port)
    && j.fields["sniffing"] == sniffing
  }

  predicate IsStreamSettings(j: Json, m: Model)
    requires StreamBuildable(m)
  {
    && j.JObj?
    && j.fields.Keys == {"network", TransportKey(m.network), "security"} + SecurityKeys(m.security)
    && j.fields["network"] == JStr(m.network.Raw())
    && j.fields[TransportKey(m.network)] == Encoded(TransportPayload(m).value)
    && j.fields["security"] == JStr(m.security.Raw())
    && (m.security == Security.tls ==> j.fields["tlsSettings"] == Encoded(SecurityPayload(m).value))
    && (m.security == Security.reality ==> j.fields["realitySettings"] == Encoded(SecurityPayload(m).value))
  }

  predicate IsProxyOutbound(j: Json, m: Model)
    requires Buildable(m)
  {
    && j.JObj?
    && j.fields.Keys == {"tag", "protocol", "settings", "streamSettings"}
    && j.fields["tag"] == JStr("proxy")
    && j.fields["protocol"] == JStr(m.protocolType.Raw())
    && j.fields["settings"] == JObj(map[ServersKey(m.protocolType) := JArr([Encoded(ProtocolPayload(m).value)])])
    && IsStreamSettings(j.fields["streamSettings"], m)
  }

  /** The outbound that sends traffic out unproxied. */
  function DirectOutbound(): (j: Json)
    ensures j.JObj? && j.fields.Keys == {"tag", "protocol"}
    ensures j.fields["tag"] == JStr("direct") && j.fields["protocol"] == JStr("freedom")
  {
    JObj(map["tag" := JStr("direct"), "protocol" := JStr("freedom")])
  }

  /** The outbound that drops traffic. */
  function BlockOutbound(): (j: Json)
    ensures j.JObj? && j.fields.Keys == {"tag", "protocol"}
    ensures j.fields["tag"] == JStr("block") && j.fields["protocol"] == JStr("blackhole")
  {
    JObj(map["tag" := JStr("block"), "protocol" := JStr("blackhole")])
  }

  predicate IsConfigurationDocument(doc: Json, m: Model, port: int, sniffing: Json, route: RouteSnapshot)
    requires Buildable(m)
  {
    && doc.JObj?
    && doc.fields.Keys == {"inbounds", "outbounds", "routing"}
    && doc.fields["inbounds"].JArr? && |doc.fields["inbounds"].items| == 1
    && IsSocksInbound(doc.fields["inbounds"].items[0], port, sniffing)
    && doc.fields["outbounds"].JArr? && |doc.fields["outbounds"].items| == 3
    && IsProxyOutbound(doc.fields["outbounds"].items[0], m)
    && doc.fields["outbounds"].items[1] == DirectOutbound()
    && doc.fields["outbounds"].items[2] == BlockOutbound()
    && doc.fields["routing"] == Encoded(RouteValue(route.options, EnabledRules(route.rules)))
  }

  // ---------------------------------------------------------------------------
  // Building

  method BuildInbound(inboundPort: int, sniffing: Json) returns (inbound: Json)
    ensures IsSocksInbound(inbound, inboundPort, sniffing)
  {
    var fields: map<string, Json> := map[];
    fields := fields["listen" := JStr("[::1]")];
    fields := fields["protocol" := JStr("socks")];
    fields := fields["settings" := JObj(map["udp" := JBool(true), "auth" := JStr("noauth")])];
    fields := fields["tag" := JStr("socks-in")];
    fields := fields["port" := JInt(inboundPort)];
    fields := fields["sniffing" := sniffing];
    inbound := JObj(fields);
  }

  /** The `settings` object of the proxy outbound: the protocol payload in a one-server list. */
  method BuildProtocolSettings(model: Model) returns (r: Result<Json, BuildError>)
    ensures r.Success? <==> ProtocolPayload(model).Some?
    ensures r.Success? ==>
      r.value == JObj(map[ServersKey(model.protocolType) := JArr([Encoded(ProtocolPayload(model).value)])])
    ensures r.Failure? ==> r.error == BuildFailed(model.protocolType.Raw())
  {
    match model.protocolType {
      case vless =>
        if model.vless.None? {
          return Failure(BuildFailed(model.protocolType.Raw()));
        }
        r := Success(JObj(map["vnext" := JArr([Encoded(VLESSValue(model.vless.value))])]));
      case vmess =>
        if model.vmess.None? {
          return Failure(BuildFailed(model.protocolType.Raw()));
        }
        r := Success(JObj(map["vnext" := JArr([Encoded(VMessValue(model.vmess.value))])]));
      case trojan =>
        if model.trojan.None? {
          return Failure(BuildFailed(model.protocolType.Raw()));
        }
        r := Success(JObj(map["servers" := JArr([Encoded(TrojanValue(model.trojan.value))])]));
      case shadowsocks =>
        if model.shadowsocks.None? {
          return Failure(BuildFailed(model.protocolType.Raw()));
        }
        r := Success(JObj(map["servers" := JArr([Encoded(ShadowsocksValue(model.shadowsocks.value))])]));
    }
  }

  /** The `streamSettings` object: network, its transport payload, security and its payload. */
  method BuildStreamSettings(model: Model) returns (r: Result<Json, BuildError>)
    ensures r.Success? <==> StreamBuildable(model)
    ensures r.Success? ==> IsStreamSettings(r.value, model)
    ensures r.Failure? ==> r.error == BuildFailed(if TransportPayload(model).None? then model.network.Raw() else model.security.Raw())
  {
    var stream: map<string, Json> := map[];
    stream := stream["network" := JStr(model.network.Raw())];
    match model.network {
      case tcp =>
        if model.tcp.None? {
          return Failure(BuildFailed(model.network.Raw()));
        }
        stream := stream["tcpSettings" := Encoded(TCPValue(model.tcp.value))];
      case kcp =>
        if model.kcp.None? {
          return Failure(BuildFailed(model.network.Raw()));
        }
        stream := stream["kcpSettings" := Encoded(KCPValue(model.kcp.value))];
      case ws =>
        if model.ws.None? {
          return Failure(BuildFailed(model.network.Raw()));
        }
        stream := stream["wsSettings" := Encoded(WSValue(model.ws.value))];
      case http =>
        if model.http.None? {
          return Failure(BuildFailed(model.network.Raw()));
        }
        stream := stream["httpSettings" := Encoded(HTTPValue(model.http.value))];
      case quic =>
        if model.quic.None? {
          return Failure(BuildFailed(model.network.Raw()));
        }
        stream := stream["quicSettings" := Encoded(QUICValue(model.quic.value))];
      case grpc =>
        if model.grpc.None? {
          return Failure(BuildFailed(model.network.Raw()));
        }
        stream := stream["grpcSettings" := Encoded(GRPCValue(model.grpc.value))];
    }
    stream := stream["security" := JStr(model.security.Raw())];
    match model.security {
      case none =>
      case tls =>
        if model.tls.None? {
          return Failure(BuildFailed(model.security.Raw()));
        }
        stream := stream["tlsSettings" := Encoded(TLSValue(model.tls.value))];
      case reality =>
        if model.reality.None? {
          return Failure(BuildFailed(model.security.Raw()));
        }
        stream := stream["realitySettings" := Encoded(RealityValue(model.reality.value))];
    }
    return Success(JObj(stream));
  }

  method BuildProxyOutbound(model: Model) returns (r: Result<Json, BuildError>)
    ensures r.Success? <==> Buildable(model)
    ensures r.Success? ==> IsProxyOutbound(r.value, model)
    ensures r.Failure? ==> r.error == BuildFailed(MissingVariant(model))
  {
    var proxy: map<string, Json> := map[];
    proxy := proxy["tag" := JStr("proxy")];
    proxy := proxy["protocol" := JStr(model.protocolType.Raw())];
    var settings :- BuildProtocolSettings(model);
    proxy := proxy["settings" := settings];
    var stream :- BuildStreamSettings(model);
    proxy := proxy["streamSettings" := stream];
    return Success(JObj(proxy));
  }

  method BuildConfigurationData(model: Model, inboundPort: int, sniffing: Json, route: RouteSnapshot)
    returns (r: Result<Json, BuildError>)
    ensures r.Success? <==> Buildable(model)
    ensures r.Success? ==> IsConfigurationDocument(r.value, model, inboundPort, sniffing, route)
    ensures r.Failure? ==> r.error == BuildFailed(MissingVariant(model))
  {
    var configuration: map<string, Json> := map[];
    var inbound := BuildInbound(inboundPort, sniffing);
    configuration := configuration["inbounds" := JArr([inbound])];
    var routeModel := new RouteModel(route);
    var routing := routeModel.Build();
    configuration := configuration["routing" := routing];
    var proxy :- BuildProxyOutbound(model);
    configuration := configuration["outbounds" := JArr([proxy, DirectOutbound(), BlockOutbound()])];
    return Success(JObj(configuration));
  }

  /** What the engine is handed: the stored bytes as they are, or a compiled document. */
  datatype LoadedData = StoredBytes(bytes: seq<bv8>) | Compiled(document: Json)

  /**
   * Loads a stored configuration. `scheme` is the scheme of the link it was
   * imported from, `stored` the bytes of its file, and `decoded` the model
   * those bytes decode to, if they do.
   */
  method LoadData(scheme: Option<string>, stored: seq<bv8>, decoded: Option<Model>,
                  inboundPort: int, sniffing: Json, route: RouteSnapshot)
    returns (r: Result<LoadedData, BuildError>)
    ensures (scheme.None? || ProtocolType.FromRaw(scheme.value).None?) ==> r == Success(StoredBytes(stored))
    ensures scheme.Some? && ProtocolType.FromRaw(scheme.value).Some? && decoded.None? ==> r == Failure(DecodeFailed)
    ensures scheme.Some? && ProtocolType.FromRaw(scheme.value).Some? && decoded.Some? ==>
      && (r.Success? <==> Buildable(decoded.value))
      && (r.Success? ==> r.value.Compiled?
                         && IsConfigurationDocument(r.value.document, decoded.value, inboundPort, sniffing, route))
      && (r.Failure? ==> r.error == BuildFailed(MissingVariant(decoded.value)))
  {
    if scheme.None? || ProtocolType.FromRaw(scheme.value).None? {
      return Success(StoredBytes(stored));
    }
    if decoded.None? {
      return Failure(DecodeFailed);
    }
    var document :- BuildConfigurationData(decoded.value, inboundPort, sniffing, route);
    return Success(Compiled(document));
  }

  // ---------------------------------------------------------------------------
  // Properties of the document

  /** A model whose slots agree with its discriminators always compiles. */
  lemma ConsistentIsBuildable(m: Model)
    requires Consistent(m)
    ensures Buildable(m)
  {
  }

  /** Every model the share-link parser produces compiles. */
  lemma ParsedModelBuildable(link: Option<Parser.LinkParts>)
    requires Parser.ParseModel(link).Success?
    ensures Buildable(Parser.ParseModel(link).value)
  {
    ConsistentIsBuildable(Parser.ParseModel(link).value);
  }

  /** The stream settings carry the payload of the selected transport and of no other, and a security payload exactly when a security layer is selected. */
  lemma StreamSettingsSelect(j: Json, m: Model)
    requires StreamBuildable(m) && IsStreamSettings(j, m)
    ensures forall t: Transport :: TransportKey(t) in j.fields <==> t == m.network
    ensures "tlsSettings" in j.fields <==> m.security == Security.tls
    ensures "realitySettings" in j.fields <==> m.security == Security.reality
  {
    forall t: Transport ensures TransportKey(t) in j.fields <==> t == m.network {
      TransportKeyDistinct(t, m.network);
    }
  }

  lemma TransportKeyDistinct(t: Transport, u: Transport)
    ensures TransportKey(t) == TransportKey(u) <==> t == u
    ensures TransportKey(t) !in {"network", "security", "tlsSettings", "realitySettings"}
  {
  }

  /** The tag of an object, when it has one. */
  function TagOf(j: Json): Option<string> {
    if j.JObj? && "tag" in j.fields && j.fields["tag"].JStr? then Some(j.fields["tag"].s) else None
  }

  /** The outbounds are, in order, the proxy, the direct and the block outbound; the inbound is `socks-in`. */
  lemma OutboundTags(doc: Json, m: Model, port: int, sniffing: Json, route: RouteSnapshot)
    requires Buildable(m) && IsConfigurationDocument(doc, m, port, sniffing, route)
    ensures TagOf(doc.fields["inbounds"].items[0]) == Some("socks-in")
    ensures TagOf(doc.fields["outbounds"].items[0]) == Some("proxy")
    ensures TagOf(doc.fields["outbounds"].items[1]) == Some("direct")
    ensures TagOf(doc.fields["outbounds"].items[2]) == Some("block")
  {
  }

  /** The routing section holds exactly the enabled rules of the stored settings, in their stored order. */
  lemma RoutingRulesEnabled(doc: Json, m: Model, port: int, sniffing: Json, route: RouteSnapshot)
    requires Buildable(m) && IsConfigurationDocument(doc, m, port, sniffing, route)
    ensures doc.fields["routing"].Encoded? && doc.fields["routing"].value.RouteValue?
    ensures var rules := doc.fields["routing"].value.rules;
      && (forall x :: x in rules <==> x in route.rules && x.enabled)
      && EnabledRules(rules) == rules
  {
    EnabledRulesIdempotent(route.rules);
  }

  lemma TopKeyOrder()
    ensures SortedKeys({"inbounds", "outbounds", "routing"}) == ["inbounds", "outbounds", "routing"]
  {
    var top := ["inbounds", "outbounds", "routing"];
    assert Less(top[0], top[1]) && Less(top[1], top[2]);
    AdjacentSorted(top);
    SortedKeysAre({"inbounds", "outbounds", "routing"}, top);
  }

  lemma InboundKeyOrder()
    ensures SortedKeys({"listen", "protocol", "settings", "tag", "port", "sniffing"})
         == ["listen", "port", "protocol", "settings", "sniffing", "tag"]
  {
    var inbound := ["listen", "port", "protocol", "settings", "sniffing", "tag"];
    assert Less("port", "protocol") by {
      assert "port"[1..] == "ort" && "protocol"[1..] == "rotocol";
    }
    assert Less("settings", "sniffing") by {
      assert "settings"[1..] == "ettings" && "sniffing"[1..] == "niffing";
    }
    assert Less(inbound[0], inbound[1]) && Less(inbound[2], inbound[3]) && Less(inbound[4], inbound[5]);
    AdjacentSorted(inbound);
    SortedKeysAre({"listen", "protocol", "settings", "tag", "port", "sniffing"}, inbound);
  }

  lemma ProxyKeyOrder()
    ensures SortedKeys({"tag", "protocol", "settings", "streamSettings"})
         == ["protocol", "settings", "streamSettings", "tag"]
  {
    var proxy := ["protocol", "settings", "streamSettings", "tag"];
    assert Less("settings", "streamSettings") by {
      assert "settings"[1..] == "ettings" && "streamSettings"[1..] == "treamSettings";
    }
    assert Less(proxy[0], proxy[1]) && Less(proxy[2], proxy[3]);
    AdjacentSorted(proxy);
    SortedKeysAre({"tag", "protocol", "settings", "streamSettings"}, proxy);
  }

  /** The order in which the serialiser writes the keys of the document, of its inbound and of its proxy outbound. */
  lemma DocumentKeyOrder(doc: Json, m: Model, port: int, sniffing: Json, route: RouteSnapshot)
    requires Buildable(m) && IsConfigurationDocument(doc, m, port, sniffing, route)
    ensures SortedKeys(doc.fields.Keys) == ["inbounds", "outbounds", "routing"]
    ensures SortedKeys(doc.fields["inbounds"].items[0].fields.Keys)
         == ["listen", "port", "protocol", "settings", "sniffing", "tag"]
    ensures SortedKeys(doc.fields["outbounds"].items[0].fields.Keys)
         == ["protocol", "settings", "streamSettings", "tag"]
  {
    TopKeyOrder();
    InboundKeyOrder();
    ProxyKeyOrder();
  }
}
