# Mango share links and Xray configuration — a Dafny model

Mango is an iOS proxy client that drives the Xray core. This project models
two parts of it and proves properties of them.

1. **Share-link parsing** (`Mango/MGConfigurationParser.swift`). A link such as
   `vless://UUID@example.com:443?type=tcp&security=tls#Node-A` is split into
   scheme, user, host, port, query items and fragment. These are checked and
   the query items are folded into a mapping, giving the *components*. Then
   twelve variant parsers run in a fixed order: VLESS, VMess, Trojan,
   Shadowsocks, TCP, KCP, WebSocket, HTTP, QUIC, gRPC, TLS and Reality. Each
   fills its own payload slot of the aggregate *model* or answers "not
   applicable".
2. **Configuration compilation** (`XrayTunnel/PacketTunnelProvider.swift`).
   A stored model, the local SOCKS port, the sniffing settings and the
   routing settings become the engine configuration document. It holds:
   - one SOCKS inbound;
   - the proxy, direct and block outbounds;
   - the routing section, which keeps only the enabled rules.

   It is serialised with sorted keys. `loadData` compiles only configurations
   imported from a protocol link. Any other stored configuration is handed
   over byte for byte.

Modules:
- `Wrappers` (wrappers.dfy): `Option` and `Result`.
- `Configuration` (configuration.dfy): the enumerations with their raw
  values, the payload records, the aggregate `Model`, and the predicates
  saying that its slots agree with its discriminators.
- `Parser` (parser.dfy): the query fold, the link parser, the three-way rule
  for optional query keys, the twelve variant parsers, the ALPN list, and
  model assembly with its error order.
- `Document` (document.dfy): the JSON tree. Values produced by the JSON
  encoder appear as an `Encoded` leaf. The file also holds the lexicographic
  key order and the sorted-key view of an object.
- `Compiler` (compiler.dfy): the document builders, written as methods that
  fill dictionaries key by key. It also holds the routing model as a class
  whose `Build` drops disabled rules in place, and `LoadData`.
- `Scenarios` (scenarios.dfy): concrete links run through parser and compiler.

Every error the link parser and the proxy builder throw is a `ParseError`
or `BuildError` value; encoding and file-read failures are not modelled. Each such value
names the query key involved, not the message text. Where the source throws
one message for two situations, the model uses one error value for both:
- a string that is not a URL and a scheme that is not a protocol type both
  give `LinkInvalid`;
- an absent and an empty `type` both give `MissingField("type")`.

## Model

| member | source | states |
|---|---|---|
| Configuration.ProtocolType.FromRaw | Mango/MGConfigurationParser.swift:18 | decoding a scheme is the inverse of the raw value: a result has that raw value, and `None` means no protocol type has it |
| Configuration.Transport.FromRaw | Mango/MGConfigurationParser.swift:38 | a decoded transport has the given raw value; `None` means no transport has it |
| Configuration.Security.FromRaw | Mango/MGConfigurationParser.swift:51 | a decoded security layer has the given raw value; `None` means none has it |
| Configuration.Encryption.FromRaw | Mango/MGConfigurationParser.swift:134 | a decoded encryption method has the given raw value; `None` means none has it |
| Configuration.Flow.FromRaw | Mango/MGConfigurationParser.swift:107 | a decoded flow has the given raw value; `None` means none has it |
| Configuration.HeaderType.FromRaw | Mango/MGConfigurationParser.swift:182 | a decoded header type has the given raw value; `None` means none has it |
| Configuration.Fingerprint.FromRaw | Mango/MGConfigurationParser.swift:360 | a decoded fingerprint has the given raw value; `None` means none has it |
| Configuration.ALPN.FromRaw | Mango/MGConfigurationParser.swift:373 | a decoded ALPN tag has the given raw value; `None` means none has it |
| Configuration.ALPN.AllCases | Mango/MGConfigurationParser.swift:376 | the default ALPN list has exactly two entries and holds both `h2` and `http/1.1` |
| Parser.FoldQueryAppend | Mango/MGConfigurationParser.swift:33-35 | folding one more item applies that item's assignment, or its removal, to the mapping already built |
| Parser.FoldQueryLastWins | Mango/MGConfigurationParser.swift:33-35 | the fold leaves, for every key, the binding of the last item naming it; a bare name removes an earlier value |
| Parser.QueryMapping | Mango/MGConfigurationParser.swift:33-35 | the query mapping agrees on every key with the read-from-the-end reference `LastBinding`: the last occurrence wins, `key=` keeps `""`, a bare `key` leaves the key absent |
| Parser.ParseNetwork | Mango/MGConfigurationParser.swift:36-45 | succeeds exactly when `type` is present and names a transport, whose raw value it then is; absent or empty gives `MissingField("type")`; an unknown name gives `UnknownValue` |
| Parser.ParseSecurity | Mango/MGConfigurationParser.swift:46-59 | absent gives `none`; empty gives `EmptyField`; otherwise it succeeds exactly when the value names a security layer, else `UnknownValue` |
| Parser.ParseLink | Mango/MGConfigurationParser.swift:16-68 | unparsable link or unknown scheme gives `LinkInvalid`; trojan and shadowsocks give `ProtocolNotSupported`. Then, in this order, a missing or empty user gives `MissingField("user")`, a missing or empty host gives `MissingField("host")`, and a missing port or one outside 1..65535 gives `InvalidPort`. On success: user and host are non-empty; the port is in 1..65535; the components are tied field by field to the link parts; the descriptive name is the fragment or `""`. When the header passes, success holds exactly when network and security parse, with their errors in that order |
| Parser.Field | Mango/MGConfigurationParser.swift:86-116 | the three-way rule for an optional key: absent gives the default, present and empty gives `EmptyField(key)`, present and non-empty is validated |
| Parser.ParseVLESS | Mango/MGConfigurationParser.swift:80-118 | not applicable unless the scheme is vless. Succeeds exactly when `encryption` is absent or `none` and `flow` is absent or known. Empty encryption gives `EmptyField`; any other value gives `UnsupportedValue`. Empty flow gives `EmptyField`; an unknown flow gives `UnknownValue`. The payload has host, port and one user with the link's id, encryption `none` and the flow (default `none`) |
| Parser.ParseVMess | Mango/MGConfigurationParser.swift:120-145 | not applicable unless the scheme is vmess. `encryption` follows the three-way rule with default `auto`. The payload has host, port and one user with the link's id and that security |
| Parser.ParseTrojan | Mango/MGConfigurationParser.swift:147-152 | always succeeds with "not applicable" |
| Parser.ParseShadowsocks | Mango/MGConfigurationParser.swift:154-159 | always succeeds with "not applicable" |
| Parser.ParseTCP | Mango/MGConfigurationParser.swift:161-169 | never fails; yields a payload exactly when the network is tcp |
| Parser.ParseKCP | Mango/MGConfigurationParser.swift:171-202 | not applicable unless kcp. Success holds exactly when `headerType` is absent or known and `seed` is not empty. Errors, in that order: empty headerType, unknown headerType, empty seed. Defaults are header `none` and seed `""` |
| Parser.ParseWS | Mango/MGConfigurationParser.swift:204-231 | not applicable unless ws. Success holds exactly when neither `host` nor `path` is empty, with host checked first. The `Host` header defaults to the link host and the path to `/` |
| Parser.ParseHTTP | Mango/MGConfigurationParser.swift:233-260 | not applicable unless http. Success holds exactly when neither `host` nor `path` is empty, with host checked first. The host list defaults to the link host alone and the path to `/` |
| Parser.QuicKey | Mango/MGConfigurationParser.swift:282-293 | a present `key` with QUIC security `none` gives `InvalidCombination`, checked before its emptiness; absent gives `""` |
| Parser.ParseQUIC | Mango/MGConfigurationParser.swift:262-309 | not applicable unless quic. Success holds exactly when `quicSecurity` is absent or known, any key is non-empty beside a security other than `none`, and `headerType` is absent or known. Errors, in checking order: an empty `quicSecurity` gives `EmptyField` and an unknown one `UnknownValue`; a `key` beside security `none` gives `InvalidCombination`, and an empty key beside another security gives `EmptyField("key")`; an empty `headerType` gives `EmptyField` and an unknown one `UnknownValue`. Defaults are `none`, `""` and `none` |
| Parser.ParseGRPC | Mango/MGConfigurationParser.swift:311-338 | not applicable unless grpc. Success holds exactly when neither `serviceName` nor `mode` is empty. `multiMode` holds exactly when mode is `multi`; any other value gives false and is not an error. `serviceName` defaults to `""` |
| Parser.Split | Mango/MGConfigurationParser.swift:373 | splitting on a separator yields at least one piece, and no piece holds the separator |
| Parser.JoinSplit | Mango/MGConfigurationParser.swift:373 | joining the pieces of a split gives back the original value |
| Parser.SplitJoin | Mango/MGConfigurationParser.swift:373 | splitting the join of separator-free pieces gives back the pieces |
| Parser.KnownALPNs | Mango/MGConfigurationParser.swift:373 | keeps exactly the tags whose raw value is one of the pieces, and is never longer than the pieces; unknown entries are dropped, never rejected |
| Parser.ParseALPNList | Mango/MGConfigurationParser.swift:373 | a tag is in the decoded list exactly when its raw value is one of the comma-separated entries |
| Parser.KnownALPNsAppend | Mango/MGConfigurationParser.swift:373 | dropping unknown entries distributes over concatenation: each entry contributes its own tag or nothing, in place, so order and repetitions among the known entries are kept even when unknown entries are mixed in |
| Parser.KnownRawALPNs | Mango/MGConfigurationParser.swift:373 | decoding the raw values of a tag list gives back that list, in order |
| Parser.ALPNListRoundTrip | Mango/MGConfigurationParser.swift:369-377 | a non-empty tag list written comma-separated is decoded back to itself |
| Parser.ParseTLS | Mango/MGConfigurationParser.swift:340-380 | not applicable unless tls. Success holds exactly when `sni` is not empty, `fp` is absent or known, and `alpn` is not empty. `sni` defaults to the host and `fp` to `chrome`. `alpn` is the decoded list, or every tag when absent. Errors, in checking order: an empty `sni` gives `EmptyField("sni")`; an empty `fp` gives `EmptyField("fp")` and an unknown one `UnknownValue("fp", …)`; an empty `alpn` gives `EmptyField("alpn")` |
| Parser.ParseReality | Mango/MGConfigurationParser.swift:382-420 | not applicable unless reality. An absent or empty `pbk` gives `MissingField("pbk")`. `sid` and `spx` default to `""` and may be empty. After `pbk`: an empty `sni` gives `EmptyField("sni")`; an empty `fp` gives `EmptyField("fp")` and an unknown one `UnknownValue("fp", …)`. `sni` defaults to the host and `fp` to `chrome` |
| Parser.AssembleModel | Mango/MGConfigurationParser.swift:422-441 | an assembled model keeps the three discriminators. Exactly the matching transport slot and security slot are filled. For vless and vmess, exactly the matching protocol slot is filled |
| Parser.FirstErrorConcat | Mango/MGConfigurationParser.swift:424-439 | the first error of two runs in sequence is the first run's error, if it has one |
| Parser.ProtocolFirstError | Mango/MGConfigurationParser.swift:426-429 | the first protocol-parser error is VLESS's if it fails, else VMess's, else none |
| Parser.TransportFirstError | Mango/MGConfigurationParser.swift:431-436 | the first transport-parser error is that of the first failing parser among KCP, WS, HTTP, QUIC and gRPC |
| Parser.SecurityFirstError | Mango/MGConfigurationParser.swift:438-439 | the first security-parser error is TLS's if it fails, else Reality's, else none |
| Parser.AssemblyStopsAtFirstError | Mango/MGConfigurationParser.swift:424-439 | the assembly fails exactly when some parser fails, and then with the error of the first failing parser in running order: protocols, then transports, then securities |
| Parser.AssembledSlots | Mango/MGConfigurationParser.swift:424-439 | every slot of an assembled model holds exactly what its own parser returned |
| Parser.ParseModel | Mango/Subscribe/List/MGConfigurationListView.swift:52-57 | link parsing then assembly. A link-parse error propagates. After a successful link parse the result is exactly the assembler's, its error included. A resulting model is consistent on all three axes and has a vless or vmess discriminator |
| Document.LessIrreflexive | XrayTunnel/PacketTunnelProvider.swift:193 | no key sorts before itself |
| Document.LessTransitive | XrayTunnel/PacketTunnelProvider.swift:193 | the key order is transitive |
| Document.LessTotal | XrayTunnel/PacketTunnelProvider.swift:193 | of two distinct keys, one sorts before the other |
| Document.AdjacentSorted | XrayTunnel/PacketTunnelProvider.swift:193 | a listing whose neighbours are in order is strictly sorted |
| Document.LeastKey | XrayTunnel/PacketTunnelProvider.swift:193 | every non-empty key set has a least key |
| Document.SortedKeys | XrayTunnel/PacketTunnelProvider.swift:193 | the key listing holds each key of the object once, in strictly increasing `Less` order, which is the serialiser's order on the key sets compiled here |
| Document.SortedUnique | XrayTunnel/PacketTunnelProvider.swift:193 | two strictly sorted listings of the same keys are equal, so the written order is determined by the key set |
| Compiler.EnabledRules | XrayTunnel/PacketTunnelProvider.swift:338 | a rule is kept exactly when it is in the list and enabled; the result is never longer |
| Compiler.EnabledRulesAppend | XrayTunnel/PacketTunnelProvider.swift:338 | filtering distributes over concatenation, so kept rules keep their relative order |
| Compiler.EnabledRulesKeepsEnabled | XrayTunnel/PacketTunnelProvider.swift:338 | a list of enabled rules passes through unchanged |
| Compiler.EnabledRulesIdempotent | XrayTunnel/PacketTunnelProvider.swift:338 | filtering twice is filtering once |
| Compiler.RouteModel.constructor | XrayTunnel/PacketTunnelProvider.swift:186 | the working copy starts with the stored routing settings |
| Compiler.RouteModel.Build | XrayTunnel/PacketTunnelProvider.swift:335-341 | replaces the rules in place with the enabled ones and leaves the other settings alone. Returns the encoding of the updated routing model |
| Compiler.DirectOutbound | XrayTunnel/PacketTunnelProvider.swift:289-294 | exactly the keys `tag` and `protocol`: `direct` and `freedom` |
| Compiler.BlockOutbound | XrayTunnel/PacketTunnelProvider.swift:296-301 | exactly the keys `tag` and `protocol`: `block` and `blackhole` |
| Compiler.BuildInbound | XrayTunnel/PacketTunnelProvider.swift:196-208 | exactly six keys: `listen "[::1]"`, `protocol "socks"`, settings `{udp: true, auth: "noauth"}`, `tag "socks-in"`, the given port and the given sniffing settings |
| Compiler.BuildProtocolSettings | XrayTunnel/PacketTunnelProvider.swift:213-235 | the protocol payload as a one-element list under `vnext` for vless and vmess, or under `servers` for trojan and shadowsocks. Fails, naming the protocol, exactly when the selected slot is empty |
| Compiler.BuildStreamSettings | XrayTunnel/PacketTunnelProvider.swift:236-284 | network and security are the raw values. Exactly one transport key, the selected one, carries its payload. `tlsSettings` or `realitySettings` is present only for that security. Reads only the network and security axes. Fails exactly when the network's slot is empty, or the security's slot is empty for a security other than `none`. The error names the network if its slot is empty, otherwise the security |
| Compiler.BuildProxyOutbound | XrayTunnel/PacketTunnelProvider.swift:210-287 | succeeds exactly when every selected slot is filled. It is then `{tag "proxy", protocol <raw>, settings, streamSettings}` as above. Otherwise it fails naming the first empty axis |
| Compiler.BuildConfigurationData | XrayTunnel/PacketTunnelProvider.swift:183-194 | succeeds exactly when the model is buildable. The document then has exactly `inbounds` (the SOCKS inbound on the given port), `outbounds` (proxy, direct, block in that order) and `routing` (the stored rules with disabled ones removed). On failure no document is produced |
| Compiler.LoadData | XrayTunnel/PacketTunnelProvider.swift:168-178 | without a protocol scheme, returns the stored bytes unchanged. With one: an undecodable model gives `DecodeFailed`; otherwise the result is the compiled document, with the same success condition |
| Compiler.ConsistentIsBuildable | XrayTunnel/PacketTunnelProvider.swift:216-284 | a model whose slots agree with its discriminators always compiles |
| Compiler.ParsedModelBuildable | XrayTunnel/PacketTunnelProvider.swift:216-284 | every model the share-link parser produces compiles, so the build-failure errors cannot arise for parsed links |
| Compiler.StreamSettingsSelect | XrayTunnel/PacketTunnelProvider.swift:236-284 | a transport key is present exactly for the selected transport. `tlsSettings` is present exactly for tls, and `realitySettings` exactly for reality |
| Compiler.TransportKeyDistinct | XrayTunnel/PacketTunnelProvider.swift:243-268 | the six transport keys are pairwise distinct and differ from the other stream-settings keys |
| Compiler.OutboundTags | XrayTunnel/PacketTunnelProvider.swift:188-192 | the inbound is tagged `socks-in`; the outbounds are tagged `proxy`, `direct` and `block`, in that order |
| Compiler.RoutingRulesEnabled | XrayTunnel/PacketTunnelProvider.swift:186-187 | the routing section holds exactly the enabled stored rules, and filtering it again changes nothing |
| Compiler.TopKeyOrder | XrayTunnel/PacketTunnelProvider.swift:193 | the top-level keys are written as `inbounds`, `outbounds`, `routing` |
| Compiler.InboundKeyOrder | XrayTunnel/PacketTunnelProvider.swift:193 | the inbound keys are written as `listen`, `port`, `protocol`, `settings`, `sniffing`, `tag` |
| Compiler.ProxyKeyOrder | XrayTunnel/PacketTunnelProvider.swift:193 | the proxy outbound keys are written as `protocol`, `settings`, `streamSettings`, `tag` |
| Compiler.DocumentKeyOrder | XrayTunnel/PacketTunnelProvider.swift:183-193 | in every compiled document, the top level, the inbound and the proxy outbound are written in those orders |
| Scenarios.ParseLinkAccepts | Mango/MGConfigurationParser.swift:16-68 | a link whose header passes and whose query names a known transport and security layer parses to exactly its components |
| Scenarios.VLESSOverTLSParses | Mango/MGConfigurationParser.swift:340-380 | `vless://UUID@example.com:443?type=tcp&security=tls#Node-A` gives a VLESS/TCP/TLS model. Server name is `example.com`, fingerprint `chrome`, and ALPN both tags |
| Scenarios.VLESSOverTLSCompiles | XrayTunnel/PacketTunnelProvider.swift:196-284 | compiled on port 10808, that model's inbound is `socks` on 10808. Its stream settings hold exactly network, `tcpSettings`, security and `tlsSettings` |
| Scenarios.VLESSRejectsEncryption | Mango/MGConfigurationParser.swift:90-99 | the same link with `encryption=aes-128` fails with `UnsupportedValue` |
| Scenarios.VMessRejectsEmptyPath | Mango/MGConfigurationParser.swift:220-223 | a VMess/WebSocket link with `path=` fails with `EmptyField("path")` |
| Scenarios.VLESSRejectsEmptySeed | Mango/MGConfigurationParser.swift:191-194 | a VLESS/KCP link with `seed=` fails with `EmptyField("seed")` |
| Scenarios.TrojanLinkRejected | Mango/MGConfigurationParser.swift:21-23 | a trojan link fails with `ProtocolNotSupported(trojan)` |

## Left out

- Splitting the link string into scheme, user, host, port, query items and fragment is platform code. The model takes the split parts as input; `None` stands for a string the platform cannot split.
- JSON encoding and decoding of the payload records and of the routing model is left out. An encoded value is the `Encoded` leaf. The bytes of the document are represented only by its tree and the sorted-key order of its objects.
- The `MGConfiguration` type declarations are not part of this model. They hold the raw values of the enumerations and the full field lists of the payload records. The raw values used are Xray's configuration names. The records carry only the fields the parsers set.
- Trojan and Shadowsocks payloads carry only address and port. The parser never fills them; the compiler only passes them through.
- The WebSocket record starts with no headers; the parser then sets `Host`. Any other default headers of the record are not modelled.
- The sniffing settings and the routing settings other than the rule list are opaque values. Each routing rule is modelled only by its `__enabled__` flag.
- `MGSniffingModel.build` is not modelled. The inbound embeds the encoded sniffing model directly and never calls it.
- Reading the stored sniffing and routing settings (`MGSniffingModel.current`, `MGRouteModel.current`) is replaced by parameters.
- In `loadData`, reading the configuration file and decoding it are replaced by parameters: the stored bytes and the decoded model, if any.
- A failure to encode the sniffing settings inside `buildInbound` cannot happen in the model, so `Compiler.BuildInbound` returns no error.
- Error message texts are left out. `BuildFailed` carries the raw value of the discriminator whose slot is empty, not its display description.
- The tunnel lifecycle is I/O and foreign calls, all left out: network settings, DNS, routes, starting Xray and the SOCKS tunnel, stop reasons and logging.
- Parser.KnownALPNs: its own contract states membership and length, not order. Order and repetitions are stated by `Parser.KnownALPNsAppend` for every list of pieces, known and unknown mixed, and by `Parser.KnownRawALPNs` for lists of known tags.
- Parser.ParseALPNList: its own contract states membership only. It is `Parser.KnownALPNs` of the comma-split value, so `Parser.KnownALPNsAppend` gives its order and repetitions.
- Document.SortedKeys: `Document.Less` is plain character-code order. Foundation's sorted-keys output may instead compare keys case-insensitively and digit runs numerically, so `B` before `a` or `k9` before `k10` can differ. On every key set this model compiles, any two keys first differ at a pair of lower-case letters, so the two orders agree.
