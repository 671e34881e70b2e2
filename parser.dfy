/**
 * Share-link parsing: the split link is checked and its query items folded
 * into a mapping (the intermediate components), then twelve variant parsers,
 * one per protocol, transport and security kind, each fill their own payload
 * slot of the aggregate model or answer "not applicable".
 */
module Parser {
  import opened Wrappers
  import opened Configuration

  /** One `name=value` query item; `value` is absent for a bare `name`. */
  datatype QueryItem = QueryItem(name: string, value: Option<string>)

  /**
   * The parts a generic URL is split into (scheme://user@host:port?query#fragment).
   * Splitting the raw string is done by the platform and is not part of this model.
   */
  datatype LinkParts = LinkParts(
    scheme: Option<string>,
    user: Option<string>,
    host: Option<string>,
    port: Option<int>,
    queryItems: Option<seq<QueryItem>>,
    fragment: Option<string>)

  /** The checked intermediate components of a share link. */
  datatype Components = Components(
    protocolType: ProtocolType,
    user: string,
    host: string,
    port: int,
    queryMapping: map<string, string>,
    network: Transport,
    security: Security,
    descriptive: string)

  /** Why a link or one of its fields was refused; field errors carry the query key. */
  datatype ParseError =
    | LinkInvalid
    | ProtocolNotSupported(protocolType: ProtocolType)
    | MissingField(key: string)
    | InvalidPort
    | EmptyField(key: string)
    | UnknownValue(key: string, value: string)
    | UnsupportedValue(key: string, value: string)
    | InvalidCombination(key: string)

  function Lookup(q: map<string, string>, key: string): Option<string> {
    if key in q then Some(q[key]) else None
  }

  /** The key is present with an empty value (`key=`). */
  predicate Blank(q: map<string, string>, key: string) {
    key in q && q[key] == ""
  }

  /** The key is present with a non-empty value. */
  predicate Given(q: map<string, string>, key: string) {
    key in q && q[key] != ""
  }

  // ---------------------------------------------------------------------------
  // The query mapping

  /** One step of the fold: a value assigns the key, a missing value removes it. */
  function Assign(m: map<string, string>, item: QueryItem): map<string, string> {
    match item.value
    case Some(v) => m[item.name := v]
    case None => m - {item.name}
  }

  function FoldQuery(acc: map<string, string>, items: seq<QueryItem>): map<string, string>
    decreases |items|
  {
    if items == [] then acc else FoldQuery(Assign(acc, items[0]), items[1..])
  }

  /** The binding of `key` left by the last item that names it, if any (read from the end). */
  function LastBinding(items: seq<QueryItem>, key: string): Option<string>
    decreases |items|
  {
    if items == [] then None
    else if items[|items| - 1].name == key then items[|items| - 1].value
    else LastBinding(items[..|items| - 1], key)
  }

  lemma {:induction false} FoldQueryAppend(acc: map<string, string>, items: seq<QueryItem>, item: QueryItem)
    ensures FoldQuery(acc, items + [item]) == Assign(FoldQuery(acc, items), item)
    decreases |items|
  {
    if items == [] {
      assert items + [item] == [item];
      assert [item][1..] == [];
    } else {
      assert (items + [item])[0] == items[0];
      assert (items + [item])[1..] == items[1..] + [item];
      FoldQueryAppend(Assign(acc, items[0]), items[1..], item);
    }
  }

  lemma {:induction false} FoldQueryLastWins(items: seq<QueryItem>, key: string)
    ensures Lookup(FoldQuery(map[], items), key) == LastBinding(items, key)
    decreases |items|
  {
    if items != [] {
      var prefix, last := items[..|items| - 1], items[|items| - 1];
      assert items == prefix + [last];
      FoldQueryAppend(map[], prefix, last);
      FoldQueryLastWins(prefix, key);
    }
  }

  /**
   * The query items folded into a mapping: for every key, the value left by
   * the last item naming it; `key=` keeps an empty string, a bare `key`
   * removes any earlier binding.
   */
  function QueryMapping(items: seq<QueryItem>): (q: map<string, string>)
    ensures forall key {:trigger Lookup(q, key)} :: Lookup(q, key) == LastBinding(items, key)
  {
    var q := FoldQuery(map[], items);
    assert forall key {:trigger Lookup(q, key)} :: Lookup(q, key) == LastBinding(items, key) by {
      forall key ensures Lookup(q, key) == LastBinding(items, key) {
        FoldQueryLastWins(items, key);
      }
    }
    q
  }

  // ---------------------------------------------------------------------------
  // The link parser

  /** The mandatory `type` key selects the transport; absent and empty fail alike. */
  function ParseNetwork(q: map<string, string>): (r: Result<Transport, ParseError>)
    ensures r.Success? <==> "type" in q && Transport.FromRaw(q["type"]).Some?
    ensures r.Success? ==> r.value.Raw() == q["type"]
    ensures !Given(q, "type") ==> r == Failure(MissingField("type"))
    ensures Given(q, "type") && r.Failure? ==> r.error == UnknownValue("type", q["type"])
  {
    if Given(q, "type") then
      match Transport.FromRaw(q["type"])
      case Some(t) => Success(t)
      case None => Failure(UnknownValue("type", q["type"]))
    else
      Failure(MissingField("type"))
  }

  /** The optional `security` key selects the security layer, `none` when absent. */
  function ParseSecurity(q: map<string, string>): (r: Result<Security, ParseError>)
    ensures "security" !in q ==> r == Success(Security.none)
    ensures Blank(q, "security") ==> r == Failure(EmptyField("security"))
    ensures Given(q, "security") ==> (r.Success? <==> Security.FromRaw(q["security"]).Some?)
    ensures Given(q, "security") && r.Failure? ==> r.error == UnknownValue("security", q["security"])
    ensures r.Success? ==> r.value.Raw() == Lookup(q, "security").GetOr("none")
  {
    Field(q, "security", Security.none, s => Known("security", s, Security.FromRaw(s)))
  }

  /** Only the schemes whose link parsing is implemented. */
  predicate LinkSupported(p: ProtocolType) {
    p == ProtocolType.vless || p == ProtocolType.vmess
  }

  /** The scheme of a split link names a protocol type the parser supports. */
  predicate SchemeAccepted(parts: LinkParts) {
    && parts.scheme.Some? && ProtocolType.FromRaw(parts.scheme.value).Some?
    && LinkSupported(ProtocolType.FromRaw(parts.scheme.value).value)
  }

  /** The header of a split link passes the scheme, user, host and port checks. */
  predicate HeaderAccepted(parts: LinkParts) {
    && SchemeAccepted(parts)
    && parts.user.Some? && parts.user.value != ""
    && parts.host.Some? && parts.host.value != ""
    && parts.port.Some? && 1 <= parts.port.value <= 65535
  }

  /**
   * Checks a split link and builds its components. `link` is `None` when the
   * string is not a well-formed URL.
   */
  function ParseLink(link: Option<LinkParts>): (r: Result<Components, ParseError>)
    ensures link.None? ==> r == Failure(LinkInvalid)
    ensures link.Some? && (link.value.scheme.None? || ProtocolType.FromRaw(link.value.scheme.value).None?)
      ==> r == Failure(LinkInvalid)
    ensures link.Some? && link.value.scheme.Some? && ProtocolType.FromRaw(link.value.scheme.value).Some?
      && !LinkSupported(ProtocolType.FromRaw(link.value.scheme.value).value)
      ==> r == Failure(ProtocolNotSupported(ProtocolType.FromRaw(link.value.scheme.value).value))
    ensures link.Some? && SchemeAccepted(link.value) && (link.value.user.None? || link.value.user.value == "")
      ==> r == Failure(MissingField("user"))
    ensures link.Some? && SchemeAccepted(link.value) && link.value.user.Some? && link.value.user.value != ""
      && (link.value.host.None? || link.value.host.value == "")
      ==> r == Failure(MissingField("host"))
    ensures link.Some? && SchemeAccepted(link.value) && link.value.user.Some? && link.value.user.value != ""
      && link.value.host.Some? && link.value.host.value != ""
      && (link.value.port.None? || !(1 <= link.value.port.value <= 65535))
      ==> r == Failure(InvalidPort)
    ensures r.Success? ==> link.Some? && HeaderAccepted(link.value)
    ensures r.Success? ==>
      var parts, c := link.value, r.value;
      && parts.scheme == Some(c.protocolType.Raw()) && LinkSupported(c.protocolType)
      && parts.user == Some(c.user) && c.user != ""
      && parts.host == Some(c.host) && c.host != ""
      && parts.port == Some(c.port) && 1 <= c.port <= 65535
      && c.queryMapping == QueryMapping(parts.queryItems.GetOr([]))
      && "type" in c.queryMapping && c.network.Raw() == c.queryMapping["type"]
      && c.security.Raw() == Lookup(c.queryMapping, "security").GetOr("none")
      && c.descriptive == parts.fragment.GetOr("")
    ensures link.Some? && HeaderAccepted(link.value) ==>
      var q := QueryMapping(link.value.queryItems.GetOr([]));
      && (r.Success? <==> ParseNetwork(q).Success? && ParseSecurity(q).Success?)
      && (ParseNetwork(q).Failure? ==> r == Failure(ParseNetwork(q).error))
      && (ParseNetwork(q).Success? && ParseSecurity(q).Failure? ==> r == Failure(ParseSecurity(q).error))
  {
    if link.None? then Failure(LinkInvalid)
    else
      var parts := link.value;
      if parts.scheme.None? || ProtocolType.FromRaw(parts.scheme.value).None? then Failure(LinkInvalid)
      else
        var protocolType := ProtocolType.FromRaw(parts.scheme.value).value;
        if !LinkSupported(protocolType) then Failure(ProtocolNotSupported(protocolType))
        else if parts.user.None? || parts.user.value == "" then Failure(MissingField("user"))
        else if parts.host.None? || parts.host.value == "" then Failure(MissingField("host"))
        else if parts.port.None? || !(1 <= parts.port.value <= 65535) then Failure(InvalidPort)
        else
          var q := QueryMapping(parts.queryItems.GetOr([]));
          var network :- ParseNetwork(q);
          var security :- ParseSecurity(q);
          Success(Components(protocolType, parts.user.value, parts.host.value, parts.port.value,
                             q, network, security, parts.fragment.GetOr("")))
  }

  // ---------------------------------------------------------------------------
  // The three-way rule shared by every optional query key

  /** Absent gives `default`, present but empty is an error, present and non-empty is validated. */
  function Field<T>(q: map<string, string>, key: string, default: T, validate: string -> Result<T, ParseError>)
    : (r: Result<T, ParseError>)
    ensures key !in q ==> r == Success(default)
    ensures Blank(q, key) ==> r == Failure(EmptyField(key))
    ensures Given(q, key) ==> r == validate(q[key])
  {
    if key !in q then Success(default)
    else if q[key] == "" then Failure(EmptyField(key))
    else validate(q[key])
  }

  /** A decoded enumeration value, or the error for an unrecognised raw value. */
  function Known<T>(key: string, raw: string, decoded: Option<T>): Result<T, ParseError> {
    match decoded
    case Some(v) => Success(v)
    case None => Failure(UnknownValue(key, raw))
  }

  function Text(s: string): Result<string, ParseError> {
    Success(s)
  }

  // ---------------------------------------------------------------------------
  // Protocol parsers

  function ParseVLESS(c: Components): (r: Result<Option<VLESS>, ParseError>)
    ensures c.protocolType != ProtocolType.vless ==> r == Success(None)
    ensures c.protocolType == ProtocolType.vless ==>
      var q := c.queryMapping;
      (r.Success? <==> ("encryption" !in q || q["encryption"] == "none")
                       && ("flow" !in q || Flow.FromRaw(q["flow"]).Some?))
    ensures c.protocolType == ProtocolType.vless && Blank(c.queryMapping, "encryption")
      ==> r == Failure(EmptyField("encryption"))
    ensures c.protocolType == ProtocolType.vless && Given(c.queryMapping, "encryption")
      && c.queryMapping["encryption"] != "none"
      ==> r == Failure(UnsupportedValue("encryption", c.queryMapping["encryption"]))
    ensures c.protocolType == ProtocolType.vless && Lookup(c.queryMapping, "encryption").GetOr("none") == "none" ==>
      && (Blank(c.queryMapping, "flow") ==> r == Failure(EmptyField("flow")))
      && (Given(c.queryMapping, "flow") && Flow.FromRaw(c.queryMapping["flow"]).None?
          ==> r == Failure(UnknownValue("flow", c.queryMapping["flow"])))
    ensures r.Success? ==> (r.value.Some? <==> c.protocolType == ProtocolType.vless)
    ensures r.Success? && r.value.Some? ==>
      var v := r.value.value;
      && v.address == c.host && v.port == c.port && |v.users| == 1
      && v.users[0].id == c.user && v.users[0].encryption == "none"
      && v.users[0].flow.Raw() == Lookup(c.queryMapping, "flow").GetOr("none")
  {
    if c.protocolType != ProtocolType.vless then Success(None)
    else
      var q := c.queryMapping;
      var encryption :- Field(q, "encryption", "none",
                              s => if s == "none" then Success(s) else Failure(UnsupportedValue("encryption", s)));
      var flow :- Field(q, "flow", Flow.none, s => Known("flow", s, Flow.FromRaw(s)));
      Success(Some(VLESS(c.host, c.port, [VLESSUser(c.user, encryption, flow)])))
  }

  function ParseVMess(c: Components): (r: Result<Option<VMess>, ParseError>)
    ensures c.protocolType != ProtocolType.vmess ==> r == Success(None)
    ensures c.protocolType == ProtocolType.vmess ==>
      (r.Success? <==> "encryption" !in c.queryMapping || Encryption.FromRaw(c.queryMapping["encryption"]).Some?)
    ensures c.protocolType == ProtocolType.vmess && Blank(c.queryMapping, "encryption")
      ==> r == Failure(EmptyField("encryption"))
    ensures c.protocolType == ProtocolType.vmess && Given(c.queryMapping, "encryption")
      && Encryption.FromRaw(c.queryMapping["encryption"]).None?
      ==> r == Failure(UnknownValue("encryption", c.queryMapping["encryption"]))
    ensures r.Success? ==> (r.value.Some? <==> c.protocolType == ProtocolType.vmess)
    ensures r.Success? && r.value.Some? ==>
      var v := r.value.value;
      && v.address == c.host && v.port == c.port && |v.users| == 1 && v.users[0].id == c.user
      && v.users[0].security.Raw() == Lookup(c.queryMapping, "encryption").GetOr("auto")
  {
    if c.protocolType != ProtocolType.vmess then Success(None)
    else
      var security :- Field(c.queryMapping, "encryption", Encryption.auto,
                            s => Known("encryption", s, Encryption.FromRaw(s)));
      Success(Some(VMess(c.host, c.port, [VMessUser(c.user, security)])))
  }

  /** Trojan links are not parsed: never applicable, whatever the link says. */
  function ParseTrojan(c: Components): (r: Result<Option<Trojan>, ParseError>)
    ensures r.Success? && r.value.None?
  {
    Success(None)
  }

  /** Shadowsocks links are not parsed: never applicable, whatever the link says. */
  function ParseShadowsocks(c: Components): (r: Result<Option<Shadowsocks>, ParseError>)
    ensures r.Success? && r.value.None?
  {
    Success(None)
  }

  // ---------------------------------------------------------------------------
  // Transport parsers

  function ParseTCP(c: Components): (r: Result<Option<TCP>, ParseError>)
    ensures r.Success? && (r.value.Some? <==> c.network == Transport.tcp)
  {
    if c.network != Transport.tcp then Success(None) else Success(Some(TCP))
  }

  function ParseKCP(c: Components): (r: Result<Option<KCP>, ParseError>)
    ensures c.network != Transport.kcp ==> r == Success(None)
    ensures c.network == Transport.kcp ==>
      var q := c.queryMapping;
      (r.Success? <==> ("headerType" !in q || HeaderType.FromRaw(q["headerType"]).Some?) && !Blank(q, "seed"))
    ensures c.network == Transport.kcp && Blank(c.queryMapping, "headerType")
      ==> r == Failure(EmptyField("headerType"))
    ensures c.network == Transport.kcp && Given(c.queryMapping, "headerType")
      && HeaderType.FromRaw(c.queryMapping["headerType"]).None?
      ==> r == Failure(UnknownValue("headerType", c.queryMapping["headerType"]))
    ensures c.network == Transport.kcp && !Blank(c.queryMapping, "headerType") && Blank(c.queryMapping, "seed")
      && ("headerType" in c.queryMapping ==> HeaderType.FromRaw(c.queryMapping["headerType"]).Some?)
      ==> r == Failure(EmptyField("seed"))
    ensures r.Success? ==> (r.value.Some? <==> c.network == Transport.kcp)
    ensures r.Success? && r.value.Some? ==>
      && r.value.value.headerType.Raw() == Lookup(c.queryMapping, "headerType").GetOr("none")
      && r.value.value.seed == Lookup(c.queryMapping, "seed").GetOr("")
  {
    if c.network != Transport.kcp then Success(None)
    else
      var q := c.queryMapping;
      var headerType :- Field(q, "headerType", HeaderType.none, s => Known("headerType", s, HeaderType.FromRaw(s)));
      var seed :- Field(q, "seed", "", Text);
      Success(Some(KCP(headerType, seed)))
  }

  function ParseWS(c: Components): (r: Result<Option<WS>, ParseError>)
    ensures c.network != Transport.ws ==> r == Success(None)
    ensures c.network == Transport.ws ==> (r.Success? <==> !Blank(c.queryMapping, "host") && !Blank(c.queryMapping, "path"))
    ensures c.network == Transport.ws && Blank(c.queryMapping, "host") ==> r == Failure(EmptyField("host"))
    ensures c.network == Transport.ws && !Blank(c.queryMapping, "host") && Blank(c.queryMapping, "path")
      ==> r == Failure(EmptyField("path"))
    ensures r.Success? ==> (r.value.Some? <==> c.network == Transport.ws)
    ensures r.Success? && r.value.Some? ==>
      && r.value.value.headers == map["Host" := Lookup(c.queryMapping, "host").GetOr(c.host)]
      && r.value.value.path == Lookup(c.queryMapping, "path").GetOr("/")
  {
    if c.network != Transport.ws then Success(None)
    else
      var q := c.queryMapping;
      var host :- Field(q, "host", c.host, Text);
      var path :- Field(q, "path", "/", Text);
      Success(Some(WS(map["Host" := host], path)))
  }

  function ParseHTTP(c: Components): (r: Result<Option<HTTP>, ParseError>)
    ensures c.network != Transport.http ==> r == Success(None)
    ensures c.network == Transport.http ==> (r.Success? <==> !Blank(c.queryMapping, "host") && !Blank(c.queryMapping, "path"))
    ensures c.network == Transport.http && Blank(c.queryMapping, "host") ==> r == Failure(EmptyField("host"))
    ensures c.network == Transport.http && !Blank(c.queryMapping, "host") && Blank(c.queryMapping, "path")
      ==> r == Failure(EmptyField("path"))
    ensures r.Success? ==> (r.value.Some? <==> c.network == Transport.http)
    ensures r.Success? && r.value.Some? ==>
      && r.value.value.host == [Lookup(c.queryMapping, "host").GetOr(c.host)]
      && r.value.value.path == Lookup(c.queryMapping, "path").GetOr("/")
  {
    if c.network != Transport.http then Success(None)
    else
      var q := c.queryMapping;
      var host :- Field(q, "host", c.host, Text);
      var path :- Field(q, "path", "/", Text);
      Success(Some(HTTP([host], path)))
  }

  /** A `key` is only allowed beside a QUIC security other than `none`; checked before its emptiness. */
  function QuicKey(q: map<string, string>, security: Encryption): (r: Result<string, ParseError>)
    ensures "key" !in q ==> r == Success("")
    ensures "key" in q && security == Encryption.none ==> r == Failure(InvalidCombination("key"))
    ensures "key" in q && security != Encryption.none ==>
      r == (if q["key"] == "" then Failure(EmptyField("key")) else Success(q["key"]))
  {
    if "key" in q && security == Encryption.none then Failure(InvalidCombination("key"))
    else Field(q, "key", "", Text)
  }

  function ParseQUIC(c: Components): (r: Result<Option<QUIC>, ParseError>)
    ensures c.network != Transport.quic ==> r == Success(None)
    ensures c.network == Transport.quic ==>
      var q := c.queryMapping;
      (r.Success? <==>
        && ("quicSecurity" !in q || Encryption.FromRaw(q["quicSecurity"]).Some?)
        && ("key" !in q || (Given(q, "key") && Lookup(q, "quicSecurity").GetOr("none") != "none"))
        && ("headerType" !in q || HeaderType.FromRaw(q["headerType"]).Some?))
    ensures c.network == Transport.quic && Blank(c.queryMapping, "quicSecurity")
      ==> r == Failure(EmptyField("quicSecurity"))
    ensures c.network == Transport.quic && Given(c.queryMapping, "quicSecurity")
      && Encryption.FromRaw(c.queryMapping["quicSecurity"]).None?
      ==> r == Failure(UnknownValue("quicSecurity", c.queryMapping["quicSecurity"]))
    ensures c.network == Transport.quic && "key" in c.queryMapping
      && Lookup(c.queryMapping, "quicSecurity").GetOr("none") == "none"
      ==> r == Failure(InvalidCombination("key"))
    ensures c.network == Transport.quic && Encryption.FromRaw(Lookup(c.queryMapping, "quicSecurity").GetOr("none")).Some?
      && Blank(c.queryMapping, "key") && Lookup(c.queryMapping, "quicSecurity").GetOr("none") != "none"
      ==> r == Failure(EmptyField("key"))
    ensures c.network == Transport.quic && Encryption.FromRaw(Lookup(c.queryMapping, "quicSecurity").GetOr("none")).Some?
      && ("key" !in c.queryMapping || (Given(c.queryMapping, "key") && Lookup(c.queryMapping, "quicSecurity").GetOr("none") != "none"))
      && "headerType" in c.queryMapping && HeaderType.FromRaw(c.queryMapping["headerType"]).None?
      ==> r == Failure(if c.queryMapping["headerType"] == "" then EmptyField("headerType")
                       else UnknownValue("headerType", c.queryMapping["headerType"]))
    ensures r.Success? ==> (r.value.Some? <==> c.network == Transport.quic)
    ensures r.Success? && r.value.Some? ==>
      && r.value.value.security.Raw() == Lookup(c.queryMapping, "quicSecurity").GetOr("none")
      && r.value.value.key == Lookup(c.queryMapping, "key").GetOr("")
      && r.value.value.headerType.Raw() == Lookup(c.queryMapping, "headerType").GetOr("none")
  {
    if c.network != Transport.quic then Success(None)
    else
      var q := c.queryMapping;
      var security :- Field(q, "quicSecurity", Encryption.none, s => Known("quicSecurity", s, Encryption.FromRaw(s)));
      var key :- QuicKey(q, security);
      var headerType :- Field(q, "headerType", HeaderType.none, s => Known("headerType", s, HeaderType.FromRaw(s)));
      Success(Some(QUIC(security, key, headerType)))
  }

  function ParseGRPC(c: Components): (r: Result<Option<GRPC>, ParseError>)
    ensures c.network != Transport.grpc ==> r == Success(None)
    ensures c.network == Transport.grpc ==>
      (r.Success? <==> !Blank(c.queryMapping, "serviceName") && !Blank(c.queryMapping, "mode"))
    ensures c.network == Transport.grpc && Blank(c.queryMapping, "serviceName") ==> r == Failure(EmptyField("serviceName"))
    ensures c.network == Transport.grpc && !Blank(c.queryMapping, "serviceName") && Blank(c.queryMapping, "mode")
      ==> r == Failure(EmptyField("mode"))
    ensures r.Success? ==> (r.value.Some? <==> c.network == Transport.grpc)
    ensures r.Success? && r.value.Some? ==>
      && r.value.value.serviceName == Lookup(c.queryMapping, "serviceName").GetOr("")
      && (r.value.value.multiMode <==> Lookup(c.queryMapping, "mode") == Some("multi"))
  {
    if c.network != Transport.grpc then Success(None)
    else
      var q := c.queryMapping;
      var serviceName :- Field(q, "serviceName", "", Text);
      var multiMode :- Field(q, "mode", false, s => Success(s == "multi"));
      Success(Some(GRPC(serviceName, multiMode)))
  }

  // ---------------------------------------------------------------------------
  // The ALPN list: split on commas, unknown entries dropped

  /** The pieces of `s` between occurrences of `sep` (Foundation's `components(separatedBy:)`). */
  function Split(s: string, sep: char): (r: seq<string>)
    ensures |r| >= 1
    ensures forall i :: 0 <= i < |r| ==> sep !in r[i]
    decreases |s|
  {
    if |s| == 0 then [""]
    else
      var rest := Split(s[1..], sep);
      if s[0] == sep then [""] + rest
      else [[s[0]] + rest[0]] + rest[1..]
  }

  /** The pieces joined with `sep` between neighbours. */
  function Join(pieces: seq<string>, sep: char): string
    decreases |pieces|
  {
    if |pieces| == 0 then ""
    else if |pieces| == 1 then pieces[0]
    else pieces[0] + [sep] + Join(pieces[1..], sep)
  }

  lemma {:induction false} JoinSplit(s: string, sep: char)
    ensures Join(Split(s, sep), sep) == s
    decreases |s|
  {
    if |s| > 0 {
      var rest := Split(s[1..], sep);
      JoinSplit(s[1..], sep);
      if s[0] == sep {
        assert ([""] + rest)[1..] == rest;
      } else if |rest| > 1 {
        assert ([[s[0]] + rest[0]] + rest[1..])[1..] == rest[1..];
        assert Join(rest, sep) == rest[0] + [sep] + Join(rest[1..], sep);
        assert s == [s[0]] + s[1..];
      } else {
        assert s == [s[0]] + s[1..];
      }
    }
  }

  /** Splitting a word that holds no separator keeps it at the head of the first piece. */
  lemma {:induction false} SplitPrefix(w: string, t: string, sep: char)
    requires sep !in w
    ensures Split(w + t, sep) == [w + Split(t, sep)[0]] + Split(t, sep)[1..]
    decreases |w|
  {
    if |w| > 0 {
      assert (w + t)[0] == w[0];
      assert (w + t)[1..] == w[1..] + t;
      SplitPrefix(w[1..], t, sep);
      assert [w[0]] + (w[1..] + Split(t, sep)[0]) == w + Split(t, sep)[0];
    } else {
      var pieces := Split(t, sep);
      assert w + t == t;
      assert w + pieces[0] == pieces[0];
      assert [pieces[0]] + pieces[1..] == pieces;
    }
  }

  lemma {:induction false} SplitJoin(pieces: seq<string>, sep: char)
    requires |pieces| >= 1
    requires forall i :: 0 <= i < |pieces| ==> sep !in pieces[i]
    ensures Split(Join(pieces, sep), sep) == pieces
    decreases |pieces|
  {
    if |pieces| == 1 {
      SplitPrefix(pieces[0], "", sep);
      assert pieces[0] + "" == pieces[0];
    } else {
      var tail := [sep] + Join(pieces[1..], sep);
      assert Join(pieces, sep) == pieces[0] + tail;
      SplitPrefix(pieces[0], tail, sep);
      SplitJoin(pieces[1..], sep);
      assert tail[0] == sep && tail[1..] == Join(pieces[1..], sep);
      assert Split(tail, sep) == [""] + pieces[1..];
      assert pieces[0] + "" == pieces[0];
    }
  }

  lemma ALPNRoundTrip(a: ALPN)
    ensures ALPN.FromRaw(a.Raw()) == Some(a)
  {
  }

  /** The ALPN tags that the pieces name, in order; unknown pieces are dropped. */
  function KnownALPNs(pieces: seq<string>): (r: seq<ALPN>)
    ensures |r| <= |pieces|
    ensures forall a: ALPN :: a in r <==> a.Raw() in pieces
    decreases |pieces|
  {
    if |pieces| == 0 then []
    else
      var rest := KnownALPNs(pieces[1..]);
      assert pieces == [pieces[0]] + pieces[1..];
      match ALPN.FromRaw(pieces[0])
      case Some(a) => [a] + rest
      case None => rest
  }

  /** Dropping unknown pieces works piece by piece: each keeps its place or vanishes. */
  lemma {:induction false} KnownALPNsAppend(a: seq<string>, b: seq<string>)
    ensures KnownALPNs(a + b) == KnownALPNs(a) + KnownALPNs(b)
    decreases |a|
  {
    if |a| > 0 {
      assert (a + b)[0] == a[0] && (a + b)[1..] == a[1..] + b;
      KnownALPNsAppend(a[1..], b);
    } else {
      assert a + b == b;
    }
  }

  function RawALPNs(alpns: seq<ALPN>): (r: seq<string>)
    ensures |r| == |alpns|
    ensures forall i :: 0 <= i < |r| ==> r[i] == alpns[i].Raw()
    decreases |alpns|
  {
    if |alpns| == 0 then [] else [alpns[0].Raw()] + RawALPNs(alpns[1..])
  }

  /** The `alpn` value decoded: split on commas, unrecognised entries silently dropped. */
  function ParseALPNList(value: string): (r: seq<ALPN>)
    ensures forall a: ALPN :: a in r <==> a.Raw() in Split(value, ',')
  {
    KnownALPNs(Split(value, ','))
  }

  lemma {:induction false} KnownRawALPNs(alpns: seq<ALPN>)
    ensures KnownALPNs(RawALPNs(alpns)) == alpns
    decreases |alpns|
  {
    if |alpns| > 0 {
      var raws := RawALPNs(alpns);
      assert raws == [alpns[0].Raw()] + RawALPNs(alpns[1..]);
      assert raws[0] == alpns[0].Raw() && raws[1..] == RawALPNs(alpns[1..]);
      ALPNRoundTrip(alpns[0]);
      KnownRawALPNs(alpns[1..]);
      calc {
        KnownALPNs(raws);
        [alpns[0]] + KnownALPNs(raws[1..]);
        [alpns[0]] + alpns[1..];
        alpns;
      }
    }
  }

  /** Writing a non-empty ALPN list as a comma-separated value and decoding it gives it back. */
  lemma {:induction false} ALPNListRoundTrip(alpns: seq<ALPN>)
    requires |alpns| >= 1
    ensures ParseALPNList(Join(RawALPNs(alpns), ',')) == alpns
  {
    var raws := RawALPNs(alpns);
    forall i | 0 <= i < |raws| ensures ',' !in raws[i] {
      ALPNHasNoComma(alpns[i]);
    }
    SplitJoin(raws, ',');
    KnownRawALPNs(alpns);
  }

  lemma ALPNHasNoComma(a: ALPN)
    ensures ',' !in a.Raw()
  {
    match a
    case h2 => assert "h2" == ['h', '2'];
    case http11 => assert "http/1.1" == ['h', 't', 't', 'p', '/', '1', '.', '1'];
  }

  // ---------------------------------------------------------------------------
  // Security parsers

  function ParseTLS(c: Components): (r: Result<Option<TLS>, ParseError>)
    ensures c.security != Security.tls ==> r == Success(None)
    ensures c.security == Security.tls ==>
      var q := c.queryMapping;
      (r.Success? <==> !Blank(q, "sni") && ("fp" !in q || Fingerprint.FromRaw(q["fp"]).Some?) && !Blank(q, "alpn"))
    ensures c.security == Security.tls && Blank(c.queryMapping, "sni") ==> r == Failure(EmptyField("sni"))
    ensures c.security == Security.tls && !Blank(c.queryMapping, "sni") && Given(c.queryMapping, "fp")
      && Fingerprint.FromRaw(c.queryMapping["fp"]).None?
      ==> r == Failure(UnknownValue("fp", c.queryMapping["fp"]))
    ensures c.security == Security.tls && !Blank(c.queryMapping, "sni") && Blank(c.queryMapping, "fp")
      ==> r == Failure(EmptyField("fp"))
    ensures c.security == Security.tls && !Blank(c.queryMapping, "sni")
      && ("fp" !in c.queryMapping || Fingerprint.FromRaw(c.queryMapping["fp"]).Some?) && Blank(c.queryMapping, "alpn")
      ==> r == Failure(EmptyField("alpn"))
    ensures r.Success? ==> (r.value.Some? <==> c.security == Security.tls)
    ensures r.Success? && r.value.Some? ==>
      var t := r.value.value;
      && t.serverName == Lookup(c.queryMapping, "sni").GetOr(c.host)
      && t.fingerprint.Raw() == Lookup(c.queryMapping, "fp").GetOr("chrome")
      && t.alpn == (if "alpn" in c.queryMapping then ParseALPNList(c.queryMapping["alpn"]) else ALPN.AllCases())
  {
    if c.security != Security.tls then Success(None)
    else
      var q := c.queryMapping;
      var serverName :- Field(q, "sni", c.host, Text);
      var fingerprint :- Field(q, "fp", Fingerprint.chrome, s => Known("fp", s, Fingerprint.FromRaw(s)));
      var alpn :- Field(q, "alpn", ALPN.AllCases(), s => Success(ParseALPNList(s)));
      Success(Some(TLS(serverName, fingerprint, alpn)))
  }

  function ParseReality(c: Components): (r: Result<Option<Reality>, ParseError>)
    ensures c.security != Security.reality ==> r == Success(None)
    ensures c.security == Security.reality ==>
      var q := c.queryMapping;
      (r.Success? <==> Given(q, "pbk") && !Blank(q, "sni") && ("fp" !in q || Fingerprint.FromRaw(q["fp"]).Some?))
    ensures c.security == Security.reality && !Given(c.queryMapping, "pbk") ==> r == Failure(MissingField("pbk"))
    ensures c.security == Security.reality && Given(c.queryMapping, "pbk") && Blank(c.queryMapping, "sni")
      ==> r == Failure(EmptyField("sni"))
    ensures c.security == Security.reality && Given(c.queryMapping, "pbk") && !Blank(c.queryMapping, "sni")
      && "fp" in c.queryMapping && Fingerprint.FromRaw(c.queryMapping["fp"]).None?
      ==> r == Failure(if c.queryMapping["fp"] == "" then EmptyField("fp") else UnknownValue("fp", c.queryMapping["fp"]))
    ensures r.Success? ==> (r.value.Some? <==> c.security == Security.reality)
    ensures r.Success? && r.value.Some? ==>
      var v := r.value.value;
      && v.publicKey == c.queryMapping["pbk"] && v.publicKey != ""
      && v.shortId == Lookup(c.queryMapping, "sid").GetOr("")
      && v.spiderX == Lookup(c.queryMapping, "spx").GetOr("")
      && v.serverName == Lookup(c.queryMapping, "sni").GetOr(c.host)
      && v.fingerprint.Raw() == Lookup(c.queryMapping, "fp").GetOr("chrome")
  {
    if c.security != Security.reality then Success(None)
    else
      var q := c.queryMapping;
      if !Given(q, "pbk") then Failure(MissingField("pbk"))
      else
        var serverName :- Field(q, "sni", c.host, Text);
        var fingerprint :- Field(q, "fp", Fingerprint.chrome, s => Known("fp", s, Fingerprint.FromRaw(s)));
        Success(Some(Reality(q["pbk"], Lookup(q, "sid").GetOr(""), Lookup(q, "spx").GetOr(""), serverName, fingerprint)))
  }

  // ---------------------------------------------------------------------------
  // Model assembly

  function ErrorOf<T>(r: Result<T, ParseError>): Option<ParseError> {
    if r.Failure? then Some(r.error) else None
  }

  /** The first error of a sequence of outcomes, in order. */
  function FirstError(errors: seq<Option<ParseError>>): Option<ParseError>
    decreases |errors|
  {
    if |errors| == 0 then None
    else if errors[0].Some? then errors[0]
    else FirstError(errors[1..])
  }

  /** The outcomes of the protocol parsers, in the order the assembler runs them. */
  function ProtocolErrors(c: Components): seq<Option<ParseError>> {
    [ErrorOf(ParseVLESS(c)), ErrorOf(ParseVMess(c)), ErrorOf(ParseTrojan(c)), ErrorOf(ParseShadowsocks(c))]
  }

  /** The outcomes of the transport parsers, in the order the assembler runs them. */
  function TransportErrors(c: Components): seq<Option<ParseError>> {
    [ErrorOf(ParseTCP(c)), ErrorOf(ParseKCP(c)), ErrorOf(ParseWS(c)), ErrorOf(ParseHTTP(c)),
     ErrorOf(ParseQUIC(c)), ErrorOf(ParseGRPC(c))]
  }

  /** The outcomes of the security parsers, in the order the assembler runs them. */
  function SecurityErrors(c: Components): seq<Option<ParseError>> {
    [ErrorOf(ParseTLS(c)), ErrorOf(ParseReality(c))]
  }

  /** The outcomes of all twelve parsers, in the order the assembler runs them. */
  function ParserErrors(c: Components): seq<Option<ParseError>> {
    ProtocolErrors(c) + TransportErrors(c) + SecurityErrors(c)
  }

  /**
   * Runs every variant parser in a fixed order (protocols, transports,
   * securities) and fills each slot with its parser's answer; the first
   * error aborts the assembly.
   */
  function AssembleModel(c: Components): (r: Result<Model, ParseError>)
    ensures r.Success? ==>
      var m := r.value;
      && m.protocolType == c.protocolType && m.network == c.network && m.security == c.security
      && TransportConsistent(m) && SecurityConsistent(m)
      && m.trojan.None? && m.shadowsocks.None?
      && (LinkSupported(c.protocolType) ==> ProtocolConsistent(m))
  {
    var vless :- ParseVLESS(c);
    var vmess :- ParseVMess(c);
    // These three parsers never fail, so their results are taken directly.
    var trojan := ParseTrojan(c).value;
    var shadowsocks := ParseShadowsocks(c).value;
    var tcp := ParseTCP(c).value;
    var kcp :- ParseKCP(c);
    var ws :- ParseWS(c);
    var http :- ParseHTTP(c);
    var quic :- ParseQUIC(c);
    var grpc :- ParseGRPC(c);
    var tls :- ParseTLS(c);
    var reality :- ParseReality(c);
    Success(Model(c.protocolType, vless, vmess, trojan, shadowsocks,
                  c.network, tcp, kcp, ws, http, quic, grpc,
                  c.security, tls, reality))
  }

  lemma {:induction false} FirstErrorAt(errors: seq<Option<ParseError>>, k: nat)
    requires k < |errors| && errors[k].Some?
    requires forall i :: 0 <= i < k ==> errors[i].None?
    ensures FirstError(errors) == errors[k]
    decreases k
  {
    if k > 0 {
      FirstErrorAt(errors[1..], k - 1);
    }
  }

  lemma {:induction false} FirstErrorNone(errors: seq<Option<ParseError>>)
    requires forall i :: 0 <= i < |errors| ==> errors[i].None?
    ensures FirstError(errors) == None
    decreases |errors|
  {
    if |errors| > 0 {
      FirstErrorNone(errors[1..]);
    }
  }

  /** The first error of two runs in sequence: the first run's, if it has one. */
  lemma {:induction false} FirstErrorConcat(a: seq<Option<ParseError>>, b: seq<Option<ParseError>>)
    ensures FirstError(a + b) == if FirstError(a).Some? then FirstError(a) else FirstError(b)
    decreases |a|
  {
    if |a| > 0 {
      assert (a + b)[0] == a[0];
      assert (a + b)[1..] == a[1..] + b;
      FirstErrorConcat(a[1..], b);
    } else {
      assert a + b == b;
    }
  }

  predicate ProtocolParsersSucceed(c: Components) {
    ParseVLESS(c).Success? && ParseVMess(c).Success?
  }

  predicate TransportParsersSucceed(c: Components) {
    ParseKCP(c).Success? && ParseWS(c).Success? && ParseHTTP(c).Success? && ParseQUIC(c).Success? && ParseGRPC(c).Success?
  }

  lemma ProtocolFirstError(c: Components)
    ensures ParseVLESS(c).Failure? ==> FirstError(ProtocolErrors(c)) == Some(ParseVLESS(c).error)
    ensures ParseVLESS(c).Success? && ParseVMess(c).Failure? ==> FirstError(ProtocolErrors(c)) == Some(ParseVMess(c).error)
    ensures ProtocolParsersSucceed(c) ==> FirstError(ProtocolErrors(c)) == None
  {
    var errors := ProtocolErrors(c);
    if ParseVLESS(c).Failure? {
      FirstErrorAt(errors, 0);
    } else if ParseVMess(c).Failure? {
      FirstErrorAt(errors, 1);
    } else {
      FirstErrorNone(errors);
    }
  }

  /** The first failing transport parser, if any: the one the assembler stops at. */
  function TransportFailure(c: Components): Option<ParseError> {
    if ParseKCP(c).Failure? then Some(ParseKCP(c).error)
    else if ParseWS(c).Failure? then Some(ParseWS(c).error)
    else if ParseHTTP(c).Failure? then Some(ParseHTTP(c).error)
    else if ParseQUIC(c).Failure? then Some(ParseQUIC(c).error)
    else if ParseGRPC(c).Failure? then Some(ParseGRPC(c).error)
    else None
  }

  lemma TransportFirstError(c: Components)
    ensures FirstError(TransportErrors(c)) == TransportFailure(c)
  {
    var errors := TransportErrors(c);
    if ParseKCP(c).Failure? {
      FirstErrorAt(errors, 1);
    } else if ParseWS(c).Failure? {
      FirstErrorAt(errors, 2);
    } else if ParseHTTP(c).Failure? {
      FirstErrorAt(errors, 3);
    } else if ParseQUIC(c).Failure? {
      FirstErrorAt(errors, 4);
    } else if ParseGRPC(c).Failure? {
      FirstErrorAt(errors, 5);
    } else {
      FirstErrorNone(errors);
    }
  }

  lemma SecurityFirstError(c: Components)
    ensures ParseTLS(c).Failure? ==> FirstError(SecurityErrors(c)) == Some(ParseTLS(c).error)
    ensures ParseTLS(c).Success? && ParseReality(c).Failure? ==> FirstError(SecurityErrors(c)) == Some(ParseReality(c).error)
    ensures ParseTLS(c).Success? && ParseReality(c).Success? ==> FirstError(SecurityErrors(c)) == None
  {
    var errors := SecurityErrors(c);
    if ParseTLS(c).Failure? {
      FirstErrorAt(errors, 0);
    } else if ParseReality(c).Failure? {
      FirstErrorAt(errors, 1);
    } else {
      FirstErrorNone(errors);
    }
  }

  /** A failing protocol parser stops the assembly with its error. */
  lemma AssemblyProtocolError(c: Components)
    requires !ProtocolParsersSucceed(c)
    ensures ErrorOf(AssembleModel(c)) == FirstError(ProtocolErrors(c))
  {
    ProtocolFirstError(c);
    if ParseVLESS(c).Failure? {
      assert AssembleModel(c) == Failure(ParseVLESS(c).error);
    } else {
      assert AssembleModel(c) == Failure(ParseVMess(c).error);
    }
  }

  /** One of the first three transport parsers (KCP, WS, HTTP) fails: its error is the result. */
  lemma AssemblyEarlyTransportError(c: Components)
    requires ProtocolParsersSucceed(c)
    requires ParseKCP(c).Failure? || ParseWS(c).Failure? || ParseHTTP(c).Failure?
    ensures ErrorOf(AssembleModel(c)) == TransportFailure(c)
  {
    if ParseKCP(c).Failure? {
      assert AssembleModel(c) == Failure(ParseKCP(c).error);
    } else if ParseWS(c).Failure? {
      assert AssembleModel(c) == Failure(ParseWS(c).error);
    } else {
      assert AssembleModel(c) == Failure(ParseHTTP(c).error);
    }
  }

  /** The first three transport parsers pass and QUIC or gRPC fails: its error is the result. */
  lemma AssemblyLateTransportError(c: Components)
    requires ProtocolParsersSucceed(c) && ParseKCP(c).Success? && ParseWS(c).Success? && ParseHTTP(c).Success?
    requires ParseQUIC(c).Failure? || ParseGRPC(c).Failure?
    ensures ErrorOf(AssembleModel(c)) == TransportFailure(c)
  {
    if ParseQUIC(c).Failure? {
      assert AssembleModel(c) == Failure(ParseQUIC(c).error);
    } else {
      assert AssembleModel(c) == Failure(ParseGRPC(c).error);
    }
  }

  lemma AssemblySecurityOutcome(c: Components)
    requires ProtocolParsersSucceed(c) && TransportParsersSucceed(c)
    ensures ErrorOf(AssembleModel(c)) == FirstError(SecurityErrors(c))
  {
    SecurityFirstError(c);
    if ParseTLS(c).Failure? {
      assert AssembleModel(c) == Failure(ParseTLS(c).error);
    } else if ParseReality(c).Failure? {
      assert AssembleModel(c) == Failure(ParseReality(c).error);
    } else {
      assert AssembleModel(c).Success?;
    }
  }

  /** The assembly fails with the error of the first parser, in running order, that fails, and only then. */
  lemma AssemblyStopsAtFirstError(c: Components)
    ensures ErrorOf(AssembleModel(c)) == FirstError(ParserErrors(c))
  {
    var p, t, s := ProtocolErrors(c), TransportErrors(c), SecurityErrors(c);
    FirstErrorConcat(p + t, s);
    FirstErrorConcat(p, t);
    ProtocolFirstError(c);
    TransportFirstError(c);
    if !ProtocolParsersSucceed(c) {
      AssemblyProtocolError(c);
    } else if ParseKCP(c).Failure? || ParseWS(c).Failure? || ParseHTTP(c).Failure? {
      AssemblyEarlyTransportError(c);
    } else if !TransportParsersSucceed(c) {
      AssemblyLateTransportError(c);
    } else {
      AssemblySecurityOutcome(c);
    }
  }

  /** Each slot of an assembled model holds exactly what its own parser returned. */
  lemma AssembledSlots(c: Components)
    requires AssembleModel(c).Success?
    ensures
      var m := AssembleModel(c).value;
      && ParseVLESS(c) == Success(m.vless) && ParseVMess(c) == Success(m.vmess)
      && ParseKCP(c) == Success(m.kcp) && ParseWS(c) == Success(m.ws) && ParseHTTP(c) == Success(m.http)
      && ParseQUIC(c) == Success(m.quic) && ParseGRPC(c) == Success(m.grpc)
      && ParseTLS(c) == Success(m.tls) && ParseReality(c) == Success(m.reality)
      && ParseTCP(c) == Success(m.tcp) && ParseTrojan(c) == Success(m.trojan)
      && ParseShadowsocks(c) == Success(m.shadowsocks)
  {
  }

  /** A share link all the way to a model: the link parser, then the assembler. */
  function ParseModel(link: Option<LinkParts>): (r: Result<Model, ParseError>)
    ensures r.Success? ==> Consistent(r.value) && LinkSupported(r.value.protocolType)
    ensures r.Success? ==> ParseLink(link).Success? && r == AssembleModel(ParseLink(link).value)
    ensures ParseLink(link).Success? ==> r == AssembleModel(ParseLink(link).value)
    ensures ParseLink(link).Failure? ==> r == Failure(ParseLink(link).error)
  {
    var c :- ParseLink(link);
    AssembleModel(c)
  }
}
