/**
 * Concrete share links run through the model: what the parser and the
 * compiler make of them. Each link is taken in two steps, the link parser
 * (down to its components) and then the assembler.
 */
module Scenarios {
  import opened Wrappers
  import opened Configuration
  import opened Parser
  import opened Document
  import opened Compiler

  function Item(name: string, value: string): QueryItem {
    QueryItem(name, Some(value))
  }

  /** `<scheme>://UUID@example.com:443?<items>#<fragment>` */
  function Link(scheme: string, items: seq<QueryItem>, fragment: Option<string>): LinkParts {
    LinkParts(Some(scheme), Some("UUID"), Some("example.com"), Some(443), Some(items), fragment)
  }

  /** A link whose header passes and whose query names a known transport and security layer parses to its components. */
  lemma ParseLinkAccepts(parts: LinkParts, q: map<string, string>, network: Transport, security: Security)
    requires HeaderAccepted(parts)
    requires QueryMapping(parts.queryItems.GetOr([])) == q
    requires ParseNetwork(q) == Success(network) && ParseSecurity(q) == Success(security)
    ensures ParseLink(Some(parts))
         == Success(Components(ProtocolType.FromRaw(parts.scheme.value).value, parts.user.value, parts.host.value,
                               parts.port.value, q, network, security, parts.fragment.GetOr("")))
  {
  }

  // ---------------------------------------------------------------------------
  // vless://UUID@example.com:443?type=tcp&security=tls#Node-A

  function VLESSOverTLS(): LinkParts {
    Link("vless", [Item("type", "tcp"), Item("security", "tls")], Some("Node-A"))
  }

  function VLESSOverTLSComponents(): Components {
    Components(ProtocolType.vless, "UUID", "example.com", 443, map["type" := "tcp", "security" := "tls"],
               Transport.tcp, Security.tls, "Node-A")
  }

  /** The model of that link: server name, fingerprint and ALPN list all take their defaults. */
  function VLESSOverTLSModel(): Model {
    Model(ProtocolType.vless, Some(VLESS("example.com", 443, [VLESSUser("UUID", "none", Flow.none)])), None, None, None,
          Transport.tcp, Some(TCP), None, None, None, None, None,
          Security.tls, Some(TLS("example.com", Fingerprint.chrome, ALPN.AllCases())), None)
  }

  lemma VLESSOverTLSQuery()
    ensures QueryMapping(VLESSOverTLS().queryItems.value) == map["type" := "tcp", "security" := "tls"]
  {
    var items := VLESSOverTLS().queryItems.value;
    assert items[1..][1..] == [];
  }

  lemma VLESSOverTLSLink()
    ensures ParseLink(Some(VLESSOverTLS())) == Success(VLESSOverTLSComponents())
  {
    VLESSOverTLSQuery();
    VLESSOverTLSHeader();
    ParseLinkAccepts(VLESSOverTLS(), map["type" := "tcp", "security" := "tls"], Transport.tcp, Security.tls);
  }

  lemma VLESSOverTLSHeader()
    ensures HeaderAccepted(VLESSOverTLS())
    ensures ParseNetwork(map["type" := "tcp", "security" := "tls"]) == Success(Transport.tcp)
    ensures ParseSecurity(map["type" := "tcp", "security" := "tls"]) == Success(Security.tls)
  {
  }

  lemma VLESSOverTLSPayloads()
    ensures ParseVLESS(VLESSOverTLSComponents()) == Success(VLESSOverTLSModel().vless)
    ensures ParseTLS(VLESSOverTLSComponents()) == Success(VLESSOverTLSModel().tls)
  {
  }

  lemma VLESSOverTLSAssembles()
    ensures AssembleModel(VLESSOverTLSComponents()) == Success(VLESSOverTLSModel())
  {
    VLESSOverTLSPayloads();
  }

  lemma VLESSOverTLSParses()
    ensures ParseModel(Some(VLESSOverTLS())) == Success(VLESSOverTLSModel())
  {
    VLESSOverTLSLink();
    VLESSOverTLSAssembles();
  }

  /** That model compiled with inbound port 10808: a SOCKS inbound on that port, TCP with TLS. */
  lemma VLESSOverTLSCompiles(doc: Json, sniffing: Json, route: RouteSnapshot)
    requires IsConfigurationDocument(doc, VLESSOverTLSModel(), 10808, sniffing, route)
    ensures doc.fields["inbounds"].items[0].fields["port"] == JInt(10808)
    ensures doc.fields["inbounds"].items[0].fields["protocol"] == JStr("socks")
    ensures doc.fields["outbounds"].items[0].fields["streamSettings"].fields.Keys
         == {"network", "tcpSettings", "security", "tlsSettings"}
  {
  }

  // ---------------------------------------------------------------------------
  // The same link with &encryption=aes-128

  function VLESSWithEncryption(): LinkParts {
    Link("vless", [Item("type", "tcp"), Item("security", "tls"), Item("encryption", "aes-128")], Some("Node-A"))
  }

  lemma VLESSWithEncryptionQuery()
    ensures QueryMapping(VLESSWithEncryption().queryItems.value) == map["type" := "tcp", "security" := "tls", "encryption" := "aes-128"]
  {
    var items := VLESSWithEncryption().queryItems.value;
    assert items[1..][1..][1..] == [];
  }

  lemma VLESSWithEncryptionLink()
    ensures ParseLink(Some(VLESSWithEncryption()))
         == Success(Components(ProtocolType.vless, "UUID", "example.com", 443,
                               map["type" := "tcp", "security" := "tls", "encryption" := "aes-128"],
                               Transport.tcp, Security.tls, "Node-A"))
  {
    VLESSWithEncryptionQuery();
    VLESSWithEncryptionHeader();
    ParseLinkAccepts(VLESSWithEncryption(), map["type" := "tcp", "security" := "tls", "encryption" := "aes-128"], Transport.tcp, Security.tls);
  }

  lemma VLESSWithEncryptionHeader()
    ensures HeaderAccepted(VLESSWithEncryption())
    ensures ParseNetwork(map["type" := "tcp", "security" := "tls", "encryption" := "aes-128"]) == Success(Transport.tcp)
    ensures ParseSecurity(map["type" := "tcp", "security" := "tls", "encryption" := "aes-128"]) == Success(Security.tls)
  {
  }

  /** VLESS accepts no encryption method but `none`. */
  lemma VLESSRejectsEncryption()
    ensures ParseModel(Some(VLESSWithEncryption())) == Failure(UnsupportedValue("encryption", "aes-128"))
  {
    VLESSWithEncryptionLink();
  }

  // ---------------------------------------------------------------------------
  // vmess://UUID@example.com:443?type=ws&path=&host=cdn.example.com

  function VMessEmptyPath(): LinkParts {
    Link("vmess", [Item("type", "ws"), Item("path", ""), Item("host", "cdn.example.com")], None)
  }

  function VMessEmptyPathComponents(): Components {
    Components(ProtocolType.vmess, "UUID", "example.com", 443,
               map["type" := "ws", "path" := "", "host" := "cdn.example.com"], Transport.ws, Security.none, "")
  }

  lemma VMessEmptyPathQuery()
    ensures QueryMapping(VMessEmptyPath().queryItems.value) == map["type" := "ws", "path" := "", "host" := "cdn.example.com"]
  {
    var items := VMessEmptyPath().queryItems.value;
    assert items[1..][1..][1..] == [];
  }

  lemma VMessEmptyPathLink()
    ensures ParseLink(Some(VMessEmptyPath())) == Success(VMessEmptyPathComponents())
  {
    VMessEmptyPathQuery();
    VMessEmptyPathHeader();
    ParseLinkAccepts(VMessEmptyPath(), map["type" := "ws", "path" := "", "host" := "cdn.example.com"], Transport.ws, Security.none);
  }

  lemma VMessEmptyPathHeader()
    ensures HeaderAccepted(VMessEmptyPath())
    ensures ParseNetwork(map["type" := "ws", "path" := "", "host" := "cdn.example.com"]) == Success(Transport.ws)
    ensures ParseSecurity(map["type" := "ws", "path" := "", "host" := "cdn.example.com"]) == Success(Security.none)
  {
  }

  /** An empty WebSocket path is refused. */
  lemma VMessRejectsEmptyPath()
    ensures ParseModel(Some(VMessEmptyPath())) == Failure(EmptyField("path"))
  {
    VMessEmptyPathLink();
    VMessEmptyPathAssembly();
  }

  lemma VMessEmptyPathAssembly()
    ensures AssembleModel(VMessEmptyPathComponents()) == Failure(EmptyField("path"))
  {
    var c := VMessEmptyPathComponents();
    assert ParseVMess(c).Success?;
    assert ParseWS(c) == Failure(EmptyField("path"));
  }

  // ---------------------------------------------------------------------------
  // vless://UUID@example.com:443?type=kcp&headerType=none&seed=

  function VLESSEmptySeed(): LinkParts {
    Link("vless", [Item("type", "kcp"), Item("headerType", "none"), Item("seed", "")], None)
  }

  function VLESSEmptySeedComponents(): Components {
    Components(ProtocolType.vless, "UUID", "example.com", 443,
               map["type" := "kcp", "headerType" := "none", "seed" := ""], Transport.kcp, Security.none, "")
  }

  lemma VLESSEmptySeedQuery()
    ensures QueryMapping(VLESSEmptySeed().queryItems.value) == map["type" := "kcp", "headerType" := "none", "seed" := ""]
  {
    var items := VLESSEmptySeed().queryItems.value;
    assert items[1..][1..][1..] == [];
  }

  lemma VLESSEmptySeedLink()
    ensures ParseLink(Some(VLESSEmptySeed())) == Success(VLESSEmptySeedComponents())
  {
    VLESSEmptySeedQuery();
    VLESSEmptySeedHeader();
    ParseLinkAccepts(VLESSEmptySeed(), map["type" := "kcp", "headerType" := "none", "seed" := ""], Transport.kcp, Security.none);
  }

  lemma VLESSEmptySeedHeader()
    ensures HeaderAccepted(VLESSEmptySeed())
    ensures ParseNetwork(map["type" := "kcp", "headerType" := "none", "seed" := ""]) == Success(Transport.kcp)
    ensures ParseSecurity(map["type" := "kcp", "headerType" := "none", "seed" := ""]) == Success(Security.none)
  {
  }

  /** An empty KCP seed is refused. */
  lemma VLESSRejectsEmptySeed()
    ensures ParseModel(Some(VLESSEmptySeed())) == Failure(EmptyField("seed"))
  {
    VLESSEmptySeedLink();
    VLESSEmptySeedAssembly();
  }

  lemma VLESSEmptySeedAssembly()
    ensures AssembleModel(VLESSEmptySeedComponents()) == Failure(EmptyField("seed"))
  {
    var c := VLESSEmptySeedComponents();
    assert ParseVLESS(c).Success?;
    assert ParseKCP(c) == Failure(EmptyField("seed"));
  }

  // ---------------------------------------------------------------------------
  // trojan://UUID@example.com:443?type=tcp

  /** A Trojan link is refused before its query is looked at. */
  lemma TrojanLinkRejected()
    ensures ParseModel(Some(Link("trojan", [Item("type", "tcp")], None))) == Failure(ProtocolNotSupported(ProtocolType.trojan))
  {
  }
}
