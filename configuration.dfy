/**
 * The typed configuration model that a share link is turned into: the three
 * discriminators (protocol, transport, security), their string enumerations,
 * the payload of every variant, and the aggregate model with one optional
 * slot per variant.
 */
module Configuration {
  import opened Wrappers

  /** Proxy protocol families; the link scheme names one of them. */
  datatype ProtocolType = vless | vmess | trojan | shadowsocks {
    function Raw(): string {
      match this
      case vless => "vless"
      case vmess => "vmess"
      case trojan => "trojan"
      case shadowsocks => "shadowsocks"
    }

    static function FromRaw(s: string): (r: Option<ProtocolType>)
      ensures r.Some? ==> r.value.Raw() == s
      ensures r.None? ==> forall p: ProtocolType :: p.Raw() != s
    {
      if s == "vless" then Some(vless)
      else if s == "vmess" then Some(vmess)
      else if s == "trojan" then Some(trojan)
      else if s == "shadowsocks" then Some(shadowsocks)
      else None
    }
  }

  /** Transport kinds, selected by the `type` query key. */
  datatype Transport = tcp | kcp | ws | http | quic | grpc {
    function Raw(): string {
      match this
      case tcp => "tcp"
      case kcp => "kcp"
      case ws => "ws"
      case http => "http"
      case quic => "quic"
      case grpc => "grpc"
    }

    static function FromRaw(s: string): (r: Option<Transport>)
      ensures r.Some? ==> r.value.Raw() == s
      ensures r.None? ==> forall t: Transport :: t.Raw() != s
    {
      if s == "tcp" then Some(tcp)
      else if s == "kcp" then Some(kcp)
      else if s == "ws" then Some(ws)
      else if s == "http" then Some(http)
      else if s == "quic" then Some(quic)
      else if s == "grpc" then Some(grpc)
      else None
    }
  }

  /** Transport-security layers, selected by the `security` query key. */
  datatype Security = none | tls | reality {
    function Raw(): string {
      match this
      case none => "none"
      case tls => "tls"
      case reality => "reality"
    }

    static function FromRaw(s: string): (r: Option<Security>)
      ensures r.Some? ==> r.value.Raw() == s
      ensures r.None? ==> forall x: Security :: x.Raw() != s
    {
      if s == "none" then Some(Security.none)
      else if s == "tls" then Some(tls)
      else if s == "reality" then Some(reality)
      else None
    }
  }

  /** Cipher tags, used by a VMess user and by the QUIC transport. */
  datatype Encryption = aes128gcm | chacha20poly1305 | auto | none | zero {
    function Raw(): string {
      match this
      case aes128gcm => "aes-128-gcm"
      case chacha20poly1305 => "chacha20-poly1305"
      case auto => "auto"
      case none => "none"
      case zero => "zero"
    }

    static function FromRaw(s: string): (r: Option<Encryption>)
      ensures r.Some? ==> r.value.Raw() == s
      ensures r.None? ==> forall e: Encryption :: e.Raw() != s
    {
      if s == "aes-128-gcm" then Some(aes128gcm)
      else if s == "chacha20-poly1305" then Some(chacha20poly1305)
      else if s == "auto" then Some(auto)
      else if s == "none" then Some(Encryption.none)
      else if s == "zero" then Some(zero)
      else None
    }
  }

  /** VLESS flow-control modes. */
  datatype Flow = none | xtlsRprxVision | xtlsRprxVisionUdp443 {
    function Raw(): string {
      match this
      case none => "none"
      case xtlsRprxVision => "xtls-rprx-vision"
      case xtlsRprxVisionUdp443 => "xtls-rprx-vision-udp443"
    }

    static function FromRaw(s: string): (r: Option<Flow>)
      ensures r.Some? ==> r.value.Raw() == s
      ensures r.None? ==> forall f: Flow :: f.Raw() != s
    {
      if s == "none" then Some(Flow.none)
      else if s == "xtls-rprx-vision" then Some(xtlsRprxVision)
      else if s == "xtls-rprx-vision-udp443" then Some(xtlsRprxVisionUdp443)
      else None
    }
  }

  /** Packet-header obfuscation kinds of the KCP and QUIC transports. */
  datatype HeaderType = none | srtp | utp | wechatVideo | dtls | wireguard {
    function Raw(): string {
      match this
      case none => "none"
      case srtp => "srtp"
      case utp => "utp"
      case wechatVideo => "wechat-video"
      case dtls => "dtls"
      case wireguard => "wireguard"
    }

    static function FromRaw(s: string): (r: Option<HeaderType>)
      ensures r.Some? ==> r.value.Raw() == s
      ensures r.None? ==> forall h: HeaderType :: h.Raw() != s
    {
      if s == "none" then Some(HeaderType.none)
      else if s == "srtp" then Some(srtp)
      else if s == "utp" then Some(utp)
      else if s == "wechat-video" then Some(wechatVideo)
      else if s == "dtls" then Some(dtls)
      else if s == "wireguard" then Some(wireguard)
      else None
    }
  }

  /** TLS client fingerprints that the engine can imitate. */
  datatype Fingerprint = chrome | firefox | safari | ios | android | edge | qihoo360 | qq | random | randomized {
    function Raw(): string {
      match this
      case chrome => "chrome"
      case firefox => "firefox"
      case safari => "safari"
      case ios => "ios"
      case android => "android"
      case edge => "edge"
      case qihoo360 => "360"
      case qq => "qq"
      case random => "random"
      case randomized => "randomized"
    }

    static function FromRaw(s: string): (r: Option<Fingerprint>)
      ensures r.Some? ==> r.value.Raw() == s
      ensures r.None? ==> forall f: Fingerprint :: f.Raw() != s
    {
      if s == "chrome" then Some(chrome)
      else if s == "firefox" then Some(firefox)
      else if s == "safari" then Some(safari)
      else if s == "ios" then Some(ios)
      else if s == "android" then Some(android)
      else if s == "edge" then Some(edge)
      else if s == "360" then Some(qihoo360)
      else if s == "qq" then Some(qq)
      else if s == "random" then Some(random)
      else if s == "randomized" then Some(randomized)
      else None
    }
  }

  /** Application-layer protocols offered in the TLS handshake. */
  datatype ALPN = h2 | http11 {
    function Raw(): string {
      match this
      case h2 => "h2"
      case http11 => "http/1.1"
    }

    static function FromRaw(s: string): (r: Option<ALPN>)
      ensures r.Some? ==> r.value.Raw() == s
      ensures r.None? ==> forall a: ALPN :: a.Raw() != s
    {
      if s == "h2" then Some(h2)
      else if s == "http/1.1" then Some(http11)
      else None
    }

    /** Every case, in declaration order (Swift's `allCases`). */
    static function AllCases(): (r: seq<ALPN>)
      ensures h2 in r && http11 in r
      ensures |r| == 2
    {
      [h2, http11]
    }
  }

  // Protocol payloads.

  datatype VLESSUser = VLESSUser(id: string, encryption: string, flow: Flow)
  datatype VLESS = VLESS(address: string, port: int, users: seq<VLESSUser>)
  datatype VMessUser = VMessUser(id: string, security: Encryption)
  datatype VMess = VMess(address: string, port: int, users: seq<VMessUser>)
  /** Only the server endpoint of the two protocols that have no link parser is represented. */
  datatype Trojan = Trojan(address: string, port: int)
  datatype Shadowsocks = Shadowsocks(address: string, port: int)

  // Transport payloads.

  datatype TCP = TCP
  datatype KCP = KCP(headerType: HeaderType, seed: string)
  datatype WS = WS(headers: map<string, string>, path: string)
  datatype HTTP = HTTP(host: seq<string>, path: string)
  datatype QUIC = QUIC(security: Encryption, key: string, headerType: HeaderType)
  datatype GRPC = GRPC(serviceName: string, multiMode: bool)

  // Security payloads.

  datatype TLS = TLS(serverName: string, fingerprint: Fingerprint, alpn: seq<ALPN>)
  datatype Reality = Reality(publicKey: string, shortId: string, spiderX: string, serverName: string, fingerprint: Fingerprint)

  /** The aggregate model: three discriminators and one optional slot per variant of each axis. */
  datatype Model = Model(
    protocolType: ProtocolType,
    vless: Option<VLESS>,
    vmess: Option<VMess>,
    trojan: Option<Trojan>,
    shadowsocks: Option<Shadowsocks>,
    network: Transport,
    tcp: Option<TCP>,
    kcp: Option<KCP>,
    ws: Option<WS>,
    http: Option<HTTP>,
    quic: Option<QUIC>,
    grpc: Option<GRPC>,
    security: Security,
    tls: Option<TLS>,
    reality: Option<Reality>)

  /** Exactly one protocol slot is filled, the one the protocol discriminator names. */
  predicate ProtocolConsistent(m: Model) {
    && (m.vless.Some? <==> m.protocolType == ProtocolType.vless)
    && (m.vmess.Some? <==> m.protocolType == ProtocolType.vmess)
    && (m.trojan.Some? <==> m.protocolType == ProtocolType.trojan)
    && (m.shadowsocks.Some? <==> m.protocolType == ProtocolType.shadowsocks)
  }

  /** Exactly one transport slot is filled, the one the network discriminator names. */
  predicate TransportConsistent(m: Model) {
    && (m.tcp.Some? <==> m.network == Transport.tcp)
    && (m.kcp.Some? <==> m.network == Transport.kcp)
    && (m.ws.Some? <==> m.network == Transport.ws)
    && (m.http.Some? <==> m.network == Transport.http)
    && (m.quic.Some? <==> m.network == Transport.quic)
    && (m.grpc.Some? <==> m.network == Transport.grpc)
  }

  /** A security slot is filled exactly when the security discriminator names it; `none` has no slot. */
  predicate SecurityConsistent(m: Model) {
    && (m.tls.Some? <==> m.security == Security.tls)
    && (m.reality.Some? <==> m.security == Security.reality)
  }

  predicate Consistent(m: Model) {
    ProtocolConsistent(m) && TransportConsistent(m) && SecurityConsistent(m)
  }
}
