/** The four protocol configurations: validation, printing and loading (src/protocol/ProtocolConfigLoader.cpp). Loading
    what was saved gives the same configuration back exactly when its texts can stand on a line, its ports are not 0
    and its transport is in lower case. */
module ProtocolConfig {
  import opened Foundation
  import opened Bytes
  import opened Text
  import opened SimpleYaml
  import opened YamlTree
  import opened ConfigPrinter
  import opened ConfigValues

  datatype LocalConfig = LocalConfig(
    deviceId: string, domain: string, ip: string, port: u16, password: string,
    manufacturer: string, model: string, firmware: string)

  datatype ChannelConfig = ChannelConfig(id: string, name: string)

  datatype ServerConfig = ServerConfig(id: string, domain: string, ip: string, port: u16, password: string)

  datatype RegisterConfig = RegisterConfig(expiresSec: int32, retryIntervalSec: int32)

  datatype KeepaliveConfig = KeepaliveConfig(intervalSec: int32, timeoutSec: int32)

  datatype MediaConfig = MediaConfig(rtpLocalPort: u16, ssrc: string, transport: string)

  datatype Gb28181Config = Gb28181Config(
    enable: bool, local: LocalConfig, channel: ChannelConfig, server: ServerConfig,
    reg: RegisterConfig, keepalive: KeepaliveConfig, media: MediaConfig)

  datatype OnvifConfig = OnvifConfig(
    enable: bool, listenIp: string, listenPort: u16, authEnable: bool, username: string, password: string,
    rtspAdvertiseIp: string, rtspPort: u16, rtspPath: string)

  datatype PrivateApiConfig = PrivateApiConfig(
    enable: bool, listenIp: string, listenPort: u16, authEnable: bool, username: string, password: string)

  datatype RtspConfig = RtspConfig(
    enable: bool, bindIp: string, advertiseIp: string, port: u16, path: string,
    authEnable: bool, username: string, password: string)

  // ---------------------------------------------------------------- defaults and validation

  const DEFAULT_LOCAL := LocalConfig(
    "34020000001320000001", "3402000000", "0.0.0.0", 5060, "12345678", "TriFusion", "TriFusion-Camera", "1.0.0")
  const DEFAULT_CHANNEL := ChannelConfig("34020000001320000001", "Tri-Fusion MainStream")
  const DEFAULT_SERVER := ServerConfig("41010500002000000001", "4101050000", "192.168.1.153", 8118, "12345678")
  const DEFAULT_REGISTER := RegisterConfig(3600, 5)
  const DEFAULT_KEEPALIVE := KeepaliveConfig(60, 3)
  const DEFAULT_MEDIA := MediaConfig(30000, "0000000001", "udp")
  const DEFAULT_ONVIF :=
    OnvifConfig(true, "0.0.0.0", 8080, false, "admin", "admin", "0.0.0.0", 8554, "/live/main")
  const DEFAULT_PRIVATE := PrivateApiConfig(true, "0.0.0.0", 18080, false, "admin", "admin")
  const DEFAULT_RTSP := RtspConfig(true, "0.0.0.0", "0.0.0.0", 8554, "/live/main", false, "admin", "admin")

  predicate NotEmpty(s: string) { Trim(s) != "" }

  predicate ValidGb28181(c: Gb28181Config) {
    c.enable ==>
      && NotEmpty(c.local.deviceId) && NotEmpty(c.local.domain) && NotEmpty(c.local.ip) && IsValidPort(c.local.port)
      && NotEmpty(c.server.id) && NotEmpty(c.server.domain) && NotEmpty(c.server.ip) && IsValidPort(c.server.port)
      && c.reg.expiresSec > 0 && c.keepalive.intervalSec > 0
      && c.media.transport in ["udp", "tcp"]
  }

  predicate ValidOnvif(c: OnvifConfig) {
    c.enable ==> NotEmpty(c.listenIp) && IsValidPort(c.listenPort) && NotEmpty(c.rtspPath) && IsValidPort(c.rtspPort)
  }

  predicate ValidPrivateApi(c: PrivateApiConfig) { c.enable ==> NotEmpty(c.listenIp) && IsValidPort(c.listenPort) }

  predicate ValidRtsp(c: RtspConfig) {
    c.enable ==> NotEmpty(c.bindIp) && NotEmpty(c.path) && IsValidPort(c.port)
  }

  /** Every validation failure is reported as a configuration error. */
  function Checked<T>(valid: bool, c: T): Result<T> { if valid then Ok(c) else Err(ConfigError) }

  // ---------------------------------------------------------------- saving

  function LocalPairs(c: LocalConfig): seq<Pair> {
    IdentityPairs(c) + DevicePairs(c)
  }

  function IdentityPairs(c: LocalConfig): seq<Pair> {
    [("device_id", Quote(c.deviceId)), ("domain", Quote(c.domain)), ("ip", Quote(c.ip)), ("port", IntText(c.port))]
  }

  function DevicePairs(c: LocalConfig): seq<Pair> {
    [("password", Quote(c.password)), ("manufacturer", Quote(c.manufacturer)), ("model", Quote(c.model)),
     ("firmware", Quote(c.firmware))]
  }

  function ChannelPairs(c: ChannelConfig): seq<Pair> { [("id", Quote(c.id)), ("name", Quote(c.name))] }

  function ServerPairs(c: ServerConfig): seq<Pair> {
    [("id", Quote(c.id)), ("domain", Quote(c.domain)), ("ip", Quote(c.ip)), ("port", IntText(c.port)),
     ("password", Quote(c.password))]
  }

  function RegisterPairs(c: RegisterConfig): seq<Pair> {
    [("expires_sec", IntText(c.expiresSec)), ("retry_interval_sec", IntText(c.retryIntervalSec))]
  }

  function KeepalivePairs(c: KeepaliveConfig): seq<Pair> {
    [("interval_sec", IntText(c.intervalSec)), ("timeout_sec", IntText(c.timeoutSec))]
  }

  function MediaPairs(c: MediaConfig): seq<Pair> {
    [("rtp_local_port", IntText(c.rtpLocalPort)), ("ssrc", Quote(c.ssrc)), ("transport", Quote(c.transport))]
  }

  function Gb28181Parts(c: Gb28181Config): seq<Part> {
    IdentityParts(c) + SessionParts(c)
  }

  function IdentityParts(c: Gb28181Config): seq<Part> {
    [One(("enable", BoolText(c.enable))), Group("local", LocalPairs(c.local)),
     Group("channel", ChannelPairs(c.channel)), Group("server", ServerPairs(c.server))]
  }

  function SessionParts(c: Gb28181Config): seq<Part> {
    [Group("register", RegisterPairs(c.reg)), Group("keepalive", KeepalivePairs(c.keepalive)),
     Group("media", MediaPairs(c.media))]
  }

  function EndpointPairs(ip: string, port: u16): seq<Pair> { [("ip", Quote(ip)), ("port", IntText(port))] }

  function AuthPairs(enable: bool, username: string, password: string): seq<Pair> {
    [("enable", BoolText(enable)), ("username", Quote(username)), ("password", Quote(password))]
  }

  function AdvertisePairs(c: OnvifConfig): seq<Pair> {
    [("advertise_ip", Quote(c.rtspAdvertiseIp)), ("port", IntText(c.rtspPort)), ("path", Quote(c.rtspPath))]
  }

  function OnvifParts(c: OnvifConfig): seq<Part> {
    [One(("enable", BoolText(c.enable))), Group("listen", EndpointPairs(c.listenIp, c.listenPort)),
     Group("auth", AuthPairs(c.authEnable, c.username, c.password)), Group("rtsp", AdvertisePairs(c))]
  }

  function PrivateApiParts(c: PrivateApiConfig): seq<Part> {
    [One(("enable", BoolText(c.enable))), Group("listen", EndpointPairs(c.listenIp, c.listenPort)),
     Group("auth", AuthPairs(c.authEnable, c.username, c.password))]
  }

  function RtspParts(c: RtspConfig): seq<Part> {
    AddressParts(c) + StreamParts(c)
  }

  function AddressParts(c: RtspConfig): seq<Part> {
    [One(("enable", BoolText(c.enable))), One(("bind_ip", Quote(c.bindIp))),
     One(("advertise_ip", Quote(c.advertiseIp)))]
  }

  function StreamParts(c: RtspConfig): seq<Part> {
    [One(("port", IntText(c.port))), One(("path", Quote(c.path))),
     Group("auth", AuthPairs(c.authEnable, c.username, c.password))]
  }

  /** The text written to the file; only the GB28181 writer puts blank lines between the parts. */
  function SaveGb28181(c: Gb28181Config): Result<string> {
    if ValidGb28181(c) then Ok(Printed("gb28181", Gb28181Parts(c), true)) else Err(ConfigError)
  }

  function SaveOnvif(c: OnvifConfig): Result<string> {
    if ValidOnvif(c) then Ok(Printed("onvif", OnvifParts(c), false)) else Err(ConfigError)
  }

  function SavePrivateApi(c: PrivateApiConfig): Result<string> {
    if ValidPrivateApi(c) then Ok(Printed("private_api", PrivateApiParts(c), false)) else Err(ConfigError)
  }

  function SaveRtsp(c: RtspConfig): Result<string> {
    if ValidRtsp(c) then Ok(Printed("rtsp", RtspParts(c), false)) else Err(ConfigError)
  }

  // ---------------------------------------------------------------- loading

  type Flat = map<string, string>

  function LocalFrom(m: Flat): LocalConfig {
    var d := DEFAULT_LOCAL;
    LocalConfig(
      Get(m, ["gb28181", "local", "device_id"], d.deviceId), Get(m, ["gb28181", "local", "domain"], d.domain),
      Get(m, ["gb28181", "local", "ip"], d.ip), ToPort(m, ["gb28181", "local", "port"], d.port),
      Get(m, ["gb28181", "local", "password"], d.password),
      Get(m, ["gb28181", "local", "manufacturer"], d.manufacturer),
      Get(m, ["gb28181", "local", "model"], d.model), Get(m, ["gb28181", "local", "firmware"], d.firmware))
  }

  function ChannelFrom(m: Flat): ChannelConfig {
    ChannelConfig(Get(m, ["gb28181", "channel", "id"], DEFAULT_CHANNEL.id),
                  Get(m, ["gb28181", "channel", "name"], DEFAULT_CHANNEL.name))
  }

  function ServerFrom(m: Flat): ServerConfig {
    var d := DEFAULT_SERVER;
    ServerConfig(
      Get(m, ["gb28181", "server", "id"], d.id), Get(m, ["gb28181", "server", "domain"], d.domain),
      Get(m, ["gb28181", "server", "ip"], d.ip), ToPort(m, ["gb28181", "server", "port"], d.port),
      Get(m, ["gb28181", "server", "password"], d.password))
  }

  function RegisterFrom(m: Flat): RegisterConfig {
    RegisterConfig(ToInt(m, ["gb28181", "register", "expires_sec"], DEFAULT_REGISTER.expiresSec),
                   ToInt(m, ["gb28181", "register", "retry_interval_sec"], DEFAULT_REGISTER.retryIntervalSec))
  }

  function KeepaliveFrom(m: Flat): KeepaliveConfig {
    KeepaliveConfig(ToInt(m, ["gb28181", "keepalive", "interval_sec"], DEFAULT_KEEPALIVE.intervalSec),
                    ToInt(m, ["gb28181", "keepalive", "timeout_sec"], DEFAULT_KEEPALIVE.timeoutSec))
  }

  function MediaFrom(m: Flat): MediaConfig {
    MediaConfig(ToPort(m, ["gb28181", "media", "rtp_local_port"], DEFAULT_MEDIA.rtpLocalPort),
                Get(m, ["gb28181", "media", "ssrc"], DEFAULT_MEDIA.ssrc),
                LowerText(Get(m, ["gb28181", "media", "transport"], DEFAULT_MEDIA.transport)))
  }

  function Gb28181From(m: Flat): Gb28181Config {
    Gb28181Config(ToBool(m, ["gb28181", "enable"], true), LocalFrom(m), ChannelFrom(m), ServerFrom(m),
                  RegisterFrom(m), KeepaliveFrom(m), MediaFrom(m))
  }

  function OnvifFrom(m: Flat): OnvifConfig {
    var d := DEFAULT_ONVIF;
    OnvifConfig(
      ToBool(m, ["onvif", "enable"], d.enable), Get(m, ["onvif", "listen", "ip"], d.listenIp),
      ToPort(m, ["onvif", "listen", "port"], d.listenPort), ToBool(m, ["onvif", "auth", "enable"], d.authEnable),
      Get(m, ["onvif", "auth", "username"], d.username), Get(m, ["onvif", "auth", "password"], d.password),
      Get(m, ["onvif", "rtsp", "advertise_ip"], d.rtspAdvertiseIp), ToPort(m, ["onvif", "rtsp", "port"], d.rtspPort),
      Get(m, ["onvif", "rtsp", "path"], d.rtspPath))
  }

  function PrivateApiFrom(m: Flat): PrivateApiConfig {
    var d := DEFAULT_PRIVATE;
    PrivateApiConfig(
      ToBool(m, ["private_api", "enable"], d.enable), Get(m, ["private_api", "listen", "ip"], d.listenIp),
      ToPort(m, ["private_api", "listen", "port"], d.listenPort),
      ToBool(m, ["private_api", "auth", "enable"], d.authEnable),
      Get(m, ["private_api", "auth", "username"], d.username), Get(m, ["private_api", "auth", "password"], d.password))
  }

  function RtspFrom(m: Flat): RtspConfig {
    var d := DEFAULT_RTSP;
    RtspConfig(
      ToBool(m, ["rtsp", "enable"], d.enable), Get(m, ["rtsp", "bind_ip"], d.bindIp),
      Get(m, ["rtsp", "advertise_ip"], d.advertiseIp), ToPort(m, ["rtsp", "port"], d.port),
      Get(m, ["rtsp", "path"], d.path), ToBool(m, ["rtsp", "auth", "enable"], d.authEnable),
      Get(m, ["rtsp", "auth", "username"], d.username), Get(m, ["rtsp", "auth", "password"], d.password))
  }

  /** A missing or unreadable file counts as an empty one. */
  method ParseOptionalYaml(file: Option<string>) returns (m: Flat)
    ensures m == FlatOf(file)
  {
    if file.None? { return map[]; }
    m := ParseSimpleYaml(file.value);
  }

  function FlatOf(file: Option<string>): Flat { if file.None? then map[] else Parse(file.value) }

  function LoadedGb28181(file: Option<string>): Result<Gb28181Config> {
    var c := Gb28181From(FlatOf(file));
    Checked(ValidGb28181(c), c)
  }

  function LoadedOnvif(file: Option<string>): Result<OnvifConfig> {
    var c := OnvifFrom(FlatOf(file));
    Checked(ValidOnvif(c), c)
  }

  function LoadedPrivateApi(file: Option<string>): Result<PrivateApiConfig> {
    var c := PrivateApiFrom(FlatOf(file));
    Checked(ValidPrivateApi(c), c)
  }

  function LoadedRtsp(file: Option<string>): Result<RtspConfig> {
    var c := RtspFrom(FlatOf(file));
    Checked(ValidRtsp(c), c)
  }

  method LoadGb28181(file: Option<string>) returns (r: Result<Gb28181Config>)
    ensures r == LoadedGb28181(file)
  {
    var m := ParseOptionalYaml(file);
    var out := Gb28181From(m);
    return Checked(ValidGb28181(out), out);
  }

  method LoadOnvif(file: Option<string>) returns (r: Result<OnvifConfig>)
    ensures r == LoadedOnvif(file)
  {
    var m := ParseOptionalYaml(file);
    var out := OnvifFrom(m);
    return Checked(ValidOnvif(out), out);
  }

  method LoadPrivateApi(file: Option<string>) returns (r: Result<PrivateApiConfig>)
    ensures r == LoadedPrivateApi(file)
  {
    var m := ParseOptionalYaml(file);
    var out := PrivateApiFrom(m);
    return Checked(ValidPrivateApi(out), out);
  }

  method LoadRtsp(file: Option<string>) returns (r: Result<RtspConfig>)
    ensures r == LoadedRtsp(file)
  {
    var m := ParseOptionalYaml(file);
    var out := RtspFrom(m);
    return Checked(ValidRtsp(out), out);
  }

  // ---------------------------------------------------------------- what a file can represent

  predicate LocalRepresentable(c: LocalConfig) {
    && Clean(c.deviceId) && Clean(c.domain) && Clean(c.ip) && c.port != 0
    && Clean(c.password) && Clean(c.manufacturer) && Clean(c.model) && Clean(c.firmware)
  }

  predicate ChannelRepresentable(c: ChannelConfig) { Clean(c.id) && Clean(c.name) }

  predicate ServerRepresentable(c: ServerConfig) {
    Clean(c.id) && Clean(c.domain) && Clean(c.ip) && c.port != 0 && Clean(c.password)
  }

  predicate MediaRepresentable(c: MediaConfig) {
    c.rtpLocalPort != 0 && Clean(c.ssrc) && Clean(c.transport) && LowerText(c.transport) == c.transport
  }

  predicate Gb28181Representable(c: Gb28181Config) {
    && LocalRepresentable(c.local) && ChannelRepresentable(c.channel) && ServerRepresentable(c.server)
    && MediaRepresentable(c.media)
  }

  predicate OnvifRepresentable(c: OnvifConfig) {
    && Clean(c.listenIp) && c.listenPort != 0 && Clean(c.username) && Clean(c.password)
    && Clean(c.rtspAdvertiseIp) && c.rtspPort != 0 && Clean(c.rtspPath)
  }

  predicate PrivateApiRepresentable(c: PrivateApiConfig) {
    Clean(c.listenIp) && c.listenPort != 0 && Clean(c.username) && Clean(c.password)
  }

  predicate RtspRepresentable(c: RtspConfig) {
    && Clean(c.bindIp) && Clean(c.advertiseIp) && c.port != 0 && Clean(c.path)
    && Clean(c.username) && Clean(c.password)
  }

  // ---------------------------------------------------------------- the printed parts are well formed

  /** A key of lower-case letters, digits and underscores. */
  predicate PlainKey(key: string) {
    key != "" && forall k :: 0 <= k < |key| ==> 'a' <= key[k] <= 'z' || IsDigit(key[k]) || key[k] == '_'
  }

  lemma PlainKeyOk(key: string)
    requires PlainKey(key)
    ensures KeyOk(key) && Clean(key)
  {
    assert (key + ":")[0] != '-' && "- "[0] == '-';
  }

  lemma IdentityKeysPlain()
    ensures forall key :: key in {"device_id", "domain", "ip", "port"} ==> PlainKey(key)
  {
    assert PlainKey("device_id");
    assert PlainKey("domain");
    assert PlainKey("ip");
    assert PlainKey("port");
  }

  lemma DeviceKeysPlain()
    ensures forall key :: key in {"password", "manufacturer", "model", "firmware"} ==> PlainKey(key)
  {
    assert PlainKey("password");
    assert PlainKey("manufacturer");
    assert PlainKey("model");
    assert PlainKey("firmware");
  }

  lemma MediaKeysPlain()
    ensures forall key :: key in {"rtp_local_port", "ssrc", "transport"} ==> PlainKey(key)
  {
    assert PlainKey("rtp_local_port");
    assert PlainKey("ssrc");
    assert PlainKey("transport");
  }

  lemma TimingKeysPlain()
    ensures forall key :: key in {"expires_sec", "retry_interval_sec"} ==> PlainKey(key)
  {
    assert PlainKey("expires_sec");
    assert PlainKey("retry_interval_sec");
  }

  lemma KeepaliveKeysPlain()
    ensures forall key :: key in {"interval_sec", "timeout_sec"} ==> PlainKey(key)
  {
    assert PlainKey("interval_sec");
    assert PlainKey("timeout_sec");
  }

  lemma AccessKeysPlain()
    ensures forall key :: key in {"id", "name", "username", "enable"} ==> PlainKey(key)
  {
    assert PlainKey("id");
    assert PlainKey("name");
    assert PlainKey("username");
    assert PlainKey("enable");
  }

  lemma RtspKeysPlain()
    ensures forall key :: key in {"advertise_ip", "path", "bind_ip"} ==> PlainKey(key)
  {
    assert PlainKey("advertise_ip");
    assert PlainKey("path");
    assert PlainKey("bind_ip");
  }

  lemma SectionKeysPlain()
    ensures forall key :: key in {"local", "channel", "server", "register", "keepalive", "media"} ==> PlainKey(key)
  {
    assert PlainKey("local");
    assert PlainKey("channel");
    assert PlainKey("server");
    assert PlainKey("register");
    assert PlainKey("keepalive");
    assert PlainKey("media");
  }

  lemma OtherSectionKeysPlain()
    ensures forall key :: key in {"listen", "auth", "rtsp"} ==> PlainKey(key)
  {
    assert PlainKey("listen");
    assert PlainKey("auth");
    assert PlainKey("rtsp");
  }

  lemma RootKeysPlain()
    ensures forall key :: key in {"gb28181", "onvif", "private_api"} ==> PlainKey(key)
  {
    assert PlainKey("gb28181");
    assert PlainKey("onvif");
    assert PlainKey("private_api");
  }

  lemma TextPairOk(key: string, s: string)
    requires PlainKey(key) && Clean(s)
    ensures PairOk((key, Quote(s)))
  {
    PlainKeyOk(key);
    QuoteReadsBack(s);
  }

  lemma IntPairOk(key: string, n: int32)
    requires PlainKey(key)
    ensures PairOk((key, IntText(n)))
  {
    PlainKeyOk(key);
    IntReadsBack(n);
  }

  lemma BoolPairOk(key: string, b: bool)
    requires PlainKey(key)
    ensures PairOk((key, BoolText(b)))
  {
    PlainKeyOk(key);
    BoolReadsBack(b, b);
  }

  /** Two lists of pairs in a row, when no key is in both. */
  lemma PairsAppend(a: seq<Pair>, b: seq<Pair>)
    requires PairsOk(a) && PairsOk(b)
    requires forall i, j :: 0 <= i < |a| && 0 <= j < |b| ==> a[i].0 != b[j].0
    ensures PairsOk(a + b)
  {
  }

  lemma IdentityPairsOk(c: LocalConfig)
    requires LocalRepresentable(c)
    ensures PairsOk(IdentityPairs(c))
  {
    hide PlainKey;
    IdentityKeysPlain();
    TextPairOk("device_id", c.deviceId);
    TextPairOk("domain", c.domain);
    TextPairOk("ip", c.ip);
    IntPairOk("port", c.port);
    hide PairOk, Clean, Quote, IntText;
  }

  lemma DevicePairsOk(c: LocalConfig)
    requires LocalRepresentable(c)
    ensures PairsOk(DevicePairs(c))
  {
    hide PlainKey;
    DeviceKeysPlain();
    TextPairOk("password", c.password);
    TextPairOk("manufacturer", c.manufacturer);
    TextPairOk("model", c.model);
    TextPairOk("firmware", c.firmware);
    assert "password"[0] != "firmware"[0];
    hide PairOk, Clean, Quote, IntText;
  }

  lemma LocalPairsOk(c: LocalConfig)
    requires LocalRepresentable(c)
    ensures PairsOk(LocalPairs(c))
  {
    IdentityPairsOk(c);
    DevicePairsOk(c);
    hide PairsOk, Quote, IntText;
    var a, b := IdentityPairs(c), DevicePairs(c);
    assert forall i :: 0 <= i < |a| ==> |a[i].0| in {2, 4, 6, 9};
    assert forall j :: 0 <= j < |b| ==> |b[j].0| in {5, 8, 12};
    PairsAppend(a, b);
  }

  lemma ChannelPairsOk(c: ChannelConfig)
    requires ChannelRepresentable(c)
    ensures PairsOk(ChannelPairs(c))
  {
    hide PlainKey;
    AccessKeysPlain();
    TextPairOk("id", c.id);
    TextPairOk("name", c.name);
    hide PairOk, Quote;
  }

  lemma ServerPairsOk(c: ServerConfig)
    requires ServerRepresentable(c)
    ensures PairsOk(ServerPairs(c))
  {
    hide PlainKey;
    AccessKeysPlain();
    IdentityKeysPlain();
    DeviceKeysPlain();
    TextPairOk("id", c.id);
    TextPairOk("domain", c.domain);
    TextPairOk("ip", c.ip);
    IntPairOk("port", c.port);
    TextPairOk("password", c.password);
    assert "id"[1] != "ip"[1];
    hide PairOk, Clean, Quote, IntText;
  }

  lemma RegisterPairsOk(c: RegisterConfig)
    ensures PairsOk(RegisterPairs(c))
  {
    hide PlainKey;
    TimingKeysPlain();
    IntPairOk("expires_sec", c.expiresSec);
    IntPairOk("retry_interval_sec", c.retryIntervalSec);
    hide PairOk, IntText;
  }

  lemma KeepalivePairsOk(c: KeepaliveConfig)
    ensures PairsOk(KeepalivePairs(c))
  {
    hide PlainKey;
    KeepaliveKeysPlain();
    IntPairOk("interval_sec", c.intervalSec);
    IntPairOk("timeout_sec", c.timeoutSec);
    hide PairOk, IntText;
  }

  lemma MediaPairsOk(c: MediaConfig)
    requires MediaRepresentable(c)
    ensures PairsOk(MediaPairs(c))
  {
    hide PlainKey;
    MediaKeysPlain();
    IntPairOk("rtp_local_port", c.rtpLocalPort);
    TextPairOk("ssrc", c.ssrc);
    TextPairOk("transport", c.transport);
    hide PairOk, Clean, Quote, IntText;
  }

  lemma EndpointPairsOk(ip: string, port: u16)
    requires Clean(ip)
    ensures PairsOk(EndpointPairs(ip, port))
  {
    hide PlainKey;
    IdentityKeysPlain();
    TextPairOk("ip", ip);
    IntPairOk("port", port);
    hide PairOk, Quote, IntText;
  }

  lemma AuthPairsOk(enable: bool, username: string, password: string)
    requires Clean(username) && Clean(password)
    ensures PairsOk(AuthPairs(enable, username, password))
  {
    hide PlainKey;
    AccessKeysPlain();
    DeviceKeysPlain();
    BoolPairOk("enable", enable);
    TextPairOk("username", username);
    TextPairOk("password", password);
    assert "username"[0] != "password"[0];
    hide PairOk, Clean, Quote, BoolText;
  }

  lemma AdvertisePairsOk(c: OnvifConfig)
    requires OnvifRepresentable(c)
    ensures PairsOk(AdvertisePairs(c))
  {
    hide PlainKey;
    IdentityKeysPlain();
    RtspKeysPlain();
    TextPairOk("advertise_ip", c.rtspAdvertiseIp);
    IntPairOk("port", c.rtspPort);
    TextPairOk("path", c.rtspPath);
    assert "port"[1] != "path"[1];
    hide PairOk, Clean, Quote, IntText;
  }

  lemma GroupOk(key: string, pairs: seq<Pair>)
    requires PlainKey(key) && PairsOk(pairs)
    ensures PartOk(Group(key, pairs))
  {
    PlainKeyOk(key);
  }

  lemma OneOk(pair: Pair)
    requires PairOk(pair)
    ensures PartOk(One(pair))
  {
  }

  lemma PartsAppend(a: seq<Part>, b: seq<Part>)
    requires PartsOk(a) && PartsOk(b)
    requires forall i, j :: 0 <= i < |a| && 0 <= j < |b| ==> KeyOf(a[i]) != KeyOf(b[j])
    ensures PartsOk(a + b)
  {
  }

  lemma IdentityPartsOk(c: Gb28181Config)
    requires Gb28181Representable(c)
    ensures PartsOk(IdentityParts(c))
  {
    hide PlainKey, PairOk, PairsOk, PartOk, Clean, BoolText, LocalPairs, ChannelPairs, ServerPairs;
    AccessKeysPlain();
    SectionKeysPlain();
    BoolPairOk("enable", c.enable);
    LocalPairsOk(c.local);
    ChannelPairsOk(c.channel);
    ServerPairsOk(c.server);
    GroupOk("local", LocalPairs(c.local));
    GroupOk("channel", ChannelPairs(c.channel));
    GroupOk("server", ServerPairs(c.server));
    OneOk(("enable", BoolText(c.enable)));
    assert "enable"[0] != "server"[0];
  }

  lemma SessionPartsOk(c: Gb28181Config)
    requires Gb28181Representable(c)
    ensures PartsOk(SessionParts(c))
  {
    hide PlainKey, PairsOk, PartOk, Clean, RegisterPairs, KeepalivePairs, MediaPairs;
    SectionKeysPlain();
    RegisterPairsOk(c.reg);
    KeepalivePairsOk(c.keepalive);
    MediaPairsOk(c.media);
    GroupOk("register", RegisterPairs(c.reg));
    GroupOk("keepalive", KeepalivePairs(c.keepalive));
    GroupOk("media", MediaPairs(c.media));
  }

  lemma Gb28181PartsOk(c: Gb28181Config)
    requires Gb28181Representable(c)
    ensures PartsOk(Gb28181Parts(c))
  {
    hide PartsOk, BoolText, LocalPairs, ChannelPairs, ServerPairs, RegisterPairs, KeepalivePairs, MediaPairs;
    IdentityPartsOk(c);
    SessionPartsOk(c);
    var a, b := IdentityParts(c), SessionParts(c);
    assert "local"[0] != "media"[0];
    assert forall i :: 0 <= i < |a| ==> KeyOf(a[i]) in {"enable", "local", "channel", "server"};
    assert forall j :: 0 <= j < |b| ==> KeyOf(b[j]) in {"register", "keepalive", "media"};
    PartsAppend(a, b);
  }

  lemma OnvifPartsOk(c: OnvifConfig)
    requires OnvifRepresentable(c)
    ensures PartsOk(OnvifParts(c))
  {
    hide PlainKey, PairOk, PairsOk, PartOk, Clean, BoolText, EndpointPairs, AuthPairs, AdvertisePairs;
    AccessKeysPlain();
    OtherSectionKeysPlain();
    BoolPairOk("enable", c.enable);
    EndpointPairsOk(c.listenIp, c.listenPort);
    AuthPairsOk(c.authEnable, c.username, c.password);
    AdvertisePairsOk(c);
    GroupOk("listen", EndpointPairs(c.listenIp, c.listenPort));
    GroupOk("auth", AuthPairs(c.authEnable, c.username, c.password));
    GroupOk("rtsp", AdvertisePairs(c));
    OneOk(("enable", BoolText(c.enable)));
    assert "enable"[0] != "listen"[0] && "auth"[0] != "rtsp"[0];
  }

  lemma PrivateApiPartsOk(c: PrivateApiConfig)
    requires PrivateApiRepresentable(c)
    ensures PartsOk(PrivateApiParts(c))
  {
    hide PlainKey, PairOk, PairsOk, PartOk, Clean, BoolText, EndpointPairs, AuthPairs;
    AccessKeysPlain();
    OtherSectionKeysPlain();
    BoolPairOk("enable", c.enable);
    EndpointPairsOk(c.listenIp, c.listenPort);
    AuthPairsOk(c.authEnable, c.username, c.password);
    GroupOk("listen", EndpointPairs(c.listenIp, c.listenPort));
    GroupOk("auth", AuthPairs(c.authEnable, c.username, c.password));
    OneOk(("enable", BoolText(c.enable)));
    assert "enable"[0] != "listen"[0];
  }

  lemma AddressPartsOk(c: RtspConfig)
    requires RtspRepresentable(c)
    ensures PartsOk(AddressParts(c))
  {
    hide PlainKey, PairOk, Clean, BoolText, Quote, PartOk;
    AccessKeysPlain();
    RtspKeysPlain();
    BoolPairOk("enable", c.enable);
    TextPairOk("bind_ip", c.bindIp);
    TextPairOk("advertise_ip", c.advertiseIp);
    OneOk(("enable", BoolText(c.enable)));
    OneOk(("bind_ip", Quote(c.bindIp)));
    OneOk(("advertise_ip", Quote(c.advertiseIp)));
  }

  lemma StreamPartsOk(c: RtspConfig)
    requires RtspRepresentable(c)
    ensures PartsOk(StreamParts(c))
  {
    hide PlainKey, PairOk, PairsOk, PartOk, Clean, Quote, IntText, AuthPairs;
    IdentityKeysPlain();
    RtspKeysPlain();
    OtherSectionKeysPlain();
    IntPairOk("port", c.port);
    TextPairOk("path", c.path);
    AuthPairsOk(c.authEnable, c.username, c.password);
    GroupOk("auth", AuthPairs(c.authEnable, c.username, c.password));
    OneOk(("port", IntText(c.port)));
    OneOk(("path", Quote(c.path)));
    assert "port"[1] != "path"[1] && "port"[0] != "auth"[0] && "path"[0] != "auth"[0];
  }

  lemma RtspPartsOk(c: RtspConfig)
    requires RtspRepresentable(c)
    ensures PartsOk(RtspParts(c))
  {
    AddressPartsOk(c);
    StreamPartsOk(c);
    hide PartsOk, BoolText, Quote, IntText, AuthPairs;
    var a, b := AddressParts(c), StreamParts(c);
    assert forall i :: 0 <= i < |a| ==> |KeyOf(a[i])| in {6, 7, 12};
    assert forall j :: 0 <= j < |b| ==> |KeyOf(b[j])| == 4;
    PartsAppend(a, b);
  }

  // ---------------------------------------------------------------- reading the sections back

  lemma TextAt(m: Flat, root: string, key: string, pairs: seq<Pair>, j: nat, name: string, s: string, d: string)
    requires GroupStored(m, root, key, pairs) && j < |pairs| && pairs[j] == (name, Quote(s))
    ensures Get(m, [root, key, name], d) == s
  {
    ReadsText(m, [root, key, pairs[j].0], s, d);
  }

  lemma IntAt(m: Flat, root: string, key: string, pairs: seq<Pair>, j: nat, name: string, n: int32, d: int32)
    requires GroupStored(m, root, key, pairs) && j < |pairs| && pairs[j] == (name, IntText(n))
    ensures ToInt(m, [root, key, name], d) == n
  {
    ReadsInt(m, [root, key, pairs[j].0], n, d);
  }

  lemma PortAt(m: Flat, root: string, key: string, pairs: seq<Pair>, j: nat, name: string, port: u16, d: u16)
    requires GroupStored(m, root, key, pairs) && j < |pairs| && pairs[j] == (name, IntText(port)) && port != 0
    ensures ToPort(m, [root, key, name], d) == port
  {
    ReadsPort(m, [root, key, pairs[j].0], port, d);
  }

  lemma BoolAt(m: Flat, root: string, key: string, pairs: seq<Pair>, j: nat, name: string, b: bool, d: bool)
    requires GroupStored(m, root, key, pairs) && j < |pairs| && pairs[j] == (name, BoolText(b))
    ensures ToBool(m, [root, key, name], d) == b
  {
    ReadsBool(m, [root, key, pairs[j].0], b, d);
  }

  lemma LocalLoads(m: Flat, c: LocalConfig)
    requires LocalRepresentable(c)
    requires GroupStored(m, "gb28181", "local", LocalPairs(c))
    ensures LocalFrom(m) == c
  {
    hide Join, Clean, Get, ToInt, ToPort, ToBool, Quote, IntText, BoolText, GroupStored;
    var pairs := LocalPairs(c);
    TextAt(m, "gb28181", "local", pairs, 0, "device_id", c.deviceId, DEFAULT_LOCAL.deviceId);
    TextAt(m, "gb28181", "local", pairs, 1, "domain", c.domain, DEFAULT_LOCAL.domain);
    TextAt(m, "gb28181", "local", pairs, 2, "ip", c.ip, DEFAULT_LOCAL.ip);
    PortAt(m, "gb28181", "local", pairs, 3, "port", c.port, DEFAULT_LOCAL.port);
    TextAt(m, "gb28181", "local", pairs, 4, "password", c.password, DEFAULT_LOCAL.password);
    TextAt(m, "gb28181", "local", pairs, 5, "manufacturer", c.manufacturer, DEFAULT_LOCAL.manufacturer);
    TextAt(m, "gb28181", "local", pairs, 6, "model", c.model, DEFAULT_LOCAL.model);
    TextAt(m, "gb28181", "local", pairs, 7, "firmware", c.firmware, DEFAULT_LOCAL.firmware);
  }

  lemma ChannelLoads(m: Flat, c: ChannelConfig)
    requires GroupStored(m, "gb28181", "channel", ChannelPairs(c))
    ensures ChannelFrom(m) == c
  {
    hide Join, Clean, Get, ToInt, ToPort, ToBool, Quote, IntText, BoolText, GroupStored;
    var pairs := ChannelPairs(c);
    TextAt(m, "gb28181", "channel", pairs, 0, "id", c.id, DEFAULT_CHANNEL.id);
    TextAt(m, "gb28181", "channel", pairs, 1, "name", c.name, DEFAULT_CHANNEL.name);
  }

  lemma ServerLoads(m: Flat, c: ServerConfig)
    requires ServerRepresentable(c)
    requires GroupStored(m, "gb28181", "server", ServerPairs(c))
    ensures ServerFrom(m) == c
  {
    hide Join, Clean, Get, ToInt, ToPort, ToBool, Quote, IntText, BoolText, GroupStored;
    var pairs := ServerPairs(c);
    TextAt(m, "gb28181", "server", pairs, 0, "id", c.id, DEFAULT_SERVER.id);
    TextAt(m, "gb28181", "server", pairs, 1, "domain", c.domain, DEFAULT_SERVER.domain);
    TextAt(m, "gb28181", "server", pairs, 2, "ip", c.ip, DEFAULT_SERVER.ip);
    PortAt(m, "gb28181", "server", pairs, 3, "port", c.port, DEFAULT_SERVER.port);
    TextAt(m, "gb28181", "server", pairs, 4, "password", c.password, DEFAULT_SERVER.password);
  }

  lemma RegisterLoads(m: Flat, c: RegisterConfig)
    requires GroupStored(m, "gb28181", "register", RegisterPairs(c))
    ensures RegisterFrom(m) == c
  {
    hide Join, Clean, Get, ToInt, ToPort, ToBool, Quote, IntText, BoolText, GroupStored;
    var pairs := RegisterPairs(c);
    IntAt(m, "gb28181", "register", pairs, 0, "expires_sec", c.expiresSec, DEFAULT_REGISTER.expiresSec);
    IntAt(m, "gb28181", "register", pairs, 1, "retry_interval_sec", c.retryIntervalSec,
          DEFAULT_REGISTER.retryIntervalSec);
  }

  lemma KeepaliveLoads(m: Flat, c: KeepaliveConfig)
    requires GroupStored(m, "gb28181", "keepalive", KeepalivePairs(c))
    ensures KeepaliveFrom(m) == c
  {
    hide Join, Clean, Get, ToInt, ToPort, ToBool, Quote, IntText, BoolText, GroupStored;
    var pairs := KeepalivePairs(c);
    IntAt(m, "gb28181", "keepalive", pairs, 0, "interval_sec", c.intervalSec, DEFAULT_KEEPALIVE.intervalSec);
    IntAt(m, "gb28181", "keepalive", pairs, 1, "timeout_sec", c.timeoutSec, DEFAULT_KEEPALIVE.timeoutSec);
  }

  lemma MediaLoads(m: Flat, c: MediaConfig)
    requires MediaRepresentable(c)
    requires GroupStored(m, "gb28181", "media", MediaPairs(c))
    ensures MediaFrom(m) == c
  {
    hide Join, Clean, Get, ToInt, ToPort, ToBool, Quote, IntText, BoolText, GroupStored;
    var pairs := MediaPairs(c);
    PortAt(m, "gb28181", "media", pairs, 0, "rtp_local_port", c.rtpLocalPort, DEFAULT_MEDIA.rtpLocalPort);
    TextAt(m, "gb28181", "media", pairs, 1, "ssrc", c.ssrc, DEFAULT_MEDIA.ssrc);
    TextAt(m, "gb28181", "media", pairs, 2, "transport", c.transport, DEFAULT_MEDIA.transport);
  }

  lemma EndpointLoads(m: Flat, root: string, ip: string, port: u16, ip': string, port': u16)
    requires port != 0
    requires GroupStored(m, root, "listen", EndpointPairs(ip, port))
    ensures Get(m, [root, "listen", "ip"], ip') == ip && ToPort(m, [root, "listen", "port"], port') == port
  {
    hide Join, Clean, Get, ToInt, ToPort, ToBool, Quote, IntText, BoolText, GroupStored;
    var pairs := EndpointPairs(ip, port);
    TextAt(m, root, "listen", pairs, 0, "ip", ip, ip');
    PortAt(m, root, "listen", pairs, 1, "port", port, port');
  }

  lemma AuthLoads(m: Flat, root: string, enable: bool, username: string, password: string)
    requires GroupStored(m, root, "auth", AuthPairs(enable, username, password))
    ensures ToBool(m, [root, "auth", "enable"], false) == enable
    ensures Get(m, [root, "auth", "username"], "admin") == username
    ensures Get(m, [root, "auth", "password"], "admin") == password
  {
    hide Join, Clean, Get, ToInt, ToPort, ToBool, Quote, IntText, BoolText, GroupStored;
    var pairs := AuthPairs(enable, username, password);
    BoolAt(m, root, "auth", pairs, 0, "enable", enable, false);
    TextAt(m, root, "auth", pairs, 1, "username", username, "admin");
    TextAt(m, root, "auth", pairs, 2, "password", password, "admin");
  }

  lemma AdvertiseLoads(m: Flat, c: OnvifConfig)
    requires OnvifRepresentable(c)
    requires GroupStored(m, "onvif", "rtsp", AdvertisePairs(c))
    ensures Get(m, ["onvif", "rtsp", "advertise_ip"], DEFAULT_ONVIF.rtspAdvertiseIp) == c.rtspAdvertiseIp
    ensures ToPort(m, ["onvif", "rtsp", "port"], DEFAULT_ONVIF.rtspPort) == c.rtspPort
    ensures Get(m, ["onvif", "rtsp", "path"], DEFAULT_ONVIF.rtspPath) == c.rtspPath
  {
    hide Join, Clean, Get, ToInt, ToPort, ToBool, Quote, IntText, BoolText, GroupStored;
    var pairs := AdvertisePairs(c);
    TextAt(m, "onvif", "rtsp", pairs, 0, "advertise_ip", c.rtspAdvertiseIp, DEFAULT_ONVIF.rtspAdvertiseIp);
    PortAt(m, "onvif", "rtsp", pairs, 1, "port", c.rtspPort, DEFAULT_ONVIF.rtspPort);
    TextAt(m, "onvif", "rtsp", pairs, 2, "path", c.rtspPath, DEFAULT_ONVIF.rtspPath);
  }

  /** All parts of a printed file are found in it. */
  lemma AllStored(root: string, parts: seq<Part>, spaced: bool)
    requires PlainKey(root) && PartsOk(parts)
    ensures forall i :: 0 <= i < |parts| ==> PartStored(Parse(Printed(root, parts, spaced)), root, parts[i])
  {
    PlainKeyOk(root);
    hide *;
    forall i: nat | i < |parts| { PrintedIsStored(root, parts, spaced, i); }
  }

  // ---------------------------------------------------------------- saving and loading

  lemma Gb28181Loads(c: Gb28181Config)
    requires ValidGb28181(c) && Gb28181Representable(c)
    ensures Gb28181From(Parse(SaveGb28181(c).value)) == c
  {
    var m := Parse(SaveGb28181(c).value);
    var parts := Gb28181Parts(c);
    RootKeysPlain();
    Gb28181PartsOk(c);
    hide PlainKey, Parse, Printed, PartsOk, GroupStored, Join;
    AllStored("gb28181", parts, true);
    assert PartStored(m, "gb28181", parts[0]) && PartStored(m, "gb28181", parts[1])
      && PartStored(m, "gb28181", parts[2]) && PartStored(m, "gb28181", parts[3])
      && PartStored(m, "gb28181", parts[4]) && PartStored(m, "gb28181", parts[5])
      && PartStored(m, "gb28181", parts[6]);
    hide LocalPairs, ServerPairs, ChannelPairs, RegisterPairs, KeepalivePairs, MediaPairs, Clean;
    ReadsBool(m, ["gb28181", "enable"], c.enable, true);
    LocalLoads(m, c.local);
    ChannelLoads(m, c.channel);
    ServerLoads(m, c.server);
    RegisterLoads(m, c.reg);
    KeepaliveLoads(m, c.keepalive);
    MediaLoads(m, c.media);
    hide LocalFrom, ServerFrom, ChannelFrom, RegisterFrom, KeepaliveFrom, MediaFrom, ToBool;
  }

  lemma OnvifLoads(c: OnvifConfig)
    requires ValidOnvif(c) && OnvifRepresentable(c)
    ensures OnvifFrom(Parse(SaveOnvif(c).value)) == c
  {
    var m, d := Parse(SaveOnvif(c).value), DEFAULT_ONVIF;
    var parts := OnvifParts(c);
    RootKeysPlain();
    OnvifPartsOk(c);
    hide PlainKey, Parse, Printed, PartsOk, GroupStored, Join;
    AllStored("onvif", parts, false);
    assert PartStored(m, "onvif", parts[0]) && PartStored(m, "onvif", parts[1])
      && PartStored(m, "onvif", parts[2]) && PartStored(m, "onvif", parts[3]);
    hide EndpointPairs, AuthPairs, AdvertisePairs, Clean;
    ReadsBool(m, ["onvif", "enable"], c.enable, d.enable);
    EndpointLoads(m, "onvif", c.listenIp, c.listenPort, d.listenIp, d.listenPort);
    AuthLoads(m, "onvif", c.authEnable, c.username, c.password);
    AdvertiseLoads(m, c);
    hide Get, ToPort, ToBool;
  }

  lemma PrivateApiLoads(c: PrivateApiConfig)
    requires ValidPrivateApi(c) && PrivateApiRepresentable(c)
    ensures PrivateApiFrom(Parse(SavePrivateApi(c).value)) == c
  {
    var m, d := Parse(SavePrivateApi(c).value), DEFAULT_PRIVATE;
    var parts := PrivateApiParts(c);
    RootKeysPlain();
    PrivateApiPartsOk(c);
    hide PlainKey, Parse, Printed, PartsOk, GroupStored, Join;
    AllStored("private_api", parts, false);
    assert PartStored(m, "private_api", parts[0]) && PartStored(m, "private_api", parts[1])
      && PartStored(m, "private_api", parts[2]);
    hide EndpointPairs, AuthPairs, Clean;
    ReadsBool(m, ["private_api", "enable"], c.enable, d.enable);
    EndpointLoads(m, "private_api", c.listenIp, c.listenPort, d.listenIp, d.listenPort);
    AuthLoads(m, "private_api", c.authEnable, c.username, c.password);
    hide Get, ToPort, ToBool;
  }

  /** The values that stand alone under the root. */
  lemma SinglesLoad(m: Flat, c: RtspConfig)
    requires c.port != 0
    requires Holds(m, ["rtsp", "enable"], BoolText(c.enable)) && Holds(m, ["rtsp", "bind_ip"], Quote(c.bindIp))
    requires Holds(m, ["rtsp", "advertise_ip"], Quote(c.advertiseIp)) && Holds(m, ["rtsp", "port"], IntText(c.port))
    requires Holds(m, ["rtsp", "path"], Quote(c.path))
    ensures ToBool(m, ["rtsp", "enable"], DEFAULT_RTSP.enable) == c.enable
    ensures Get(m, ["rtsp", "bind_ip"], DEFAULT_RTSP.bindIp) == c.bindIp
    ensures Get(m, ["rtsp", "advertise_ip"], DEFAULT_RTSP.advertiseIp) == c.advertiseIp
    ensures ToPort(m, ["rtsp", "port"], DEFAULT_RTSP.port) == c.port
    ensures Get(m, ["rtsp", "path"], DEFAULT_RTSP.path) == c.path
  {
    hide Holds, ToBool, Get, ToPort, BoolText, Quote, IntText;
    ReadsBool(m, ["rtsp", "enable"], c.enable, DEFAULT_RTSP.enable);
    ReadsText(m, ["rtsp", "bind_ip"], c.bindIp, DEFAULT_RTSP.bindIp);
    ReadsText(m, ["rtsp", "advertise_ip"], c.advertiseIp, DEFAULT_RTSP.advertiseIp);
    ReadsPort(m, ["rtsp", "port"], c.port, DEFAULT_RTSP.port);
    ReadsText(m, ["rtsp", "path"], c.path, DEFAULT_RTSP.path);
  }

  lemma SinglesStored(m: Flat, c: RtspConfig)
    requires forall i :: 0 <= i < |RtspParts(c)| ==> PartStored(m, "rtsp", RtspParts(c)[i])
    ensures Holds(m, ["rtsp", "enable"], BoolText(c.enable)) && Holds(m, ["rtsp", "bind_ip"], Quote(c.bindIp))
    ensures Holds(m, ["rtsp", "advertise_ip"], Quote(c.advertiseIp)) && Holds(m, ["rtsp", "port"], IntText(c.port))
    ensures Holds(m, ["rtsp", "path"], Quote(c.path))
    ensures GroupStored(m, "rtsp", "auth", AuthPairs(c.authEnable, c.username, c.password))
  {
    hide Join, GroupStored, AuthPairs, BoolText, Quote, IntText;
    var parts := RtspParts(c);
    assert PartStored(m, "rtsp", parts[0]) && PartStored(m, "rtsp", parts[1]) && PartStored(m, "rtsp", parts[2]);
    assert PartStored(m, "rtsp", parts[3]) && PartStored(m, "rtsp", parts[4]) && PartStored(m, "rtsp", parts[5]);
  }

  lemma RtspLoads(c: RtspConfig)
    requires ValidRtsp(c) && RtspRepresentable(c)
    ensures RtspFrom(Parse(SaveRtsp(c).value)) == c
  {
    hide PlainKey, Parse, Printed, PartsOk, PartStored, GroupStored, Holds, RtspParts, AuthPairs, Get, ToPort, ToBool,
      Clean, NotEmpty;
    OtherSectionKeysPlain();
    RtspPartsOk(c);
    var m := Parse(SaveRtsp(c).value);
    AllStored("rtsp", RtspParts(c), false);
    SinglesStored(m, c);
    SinglesLoad(m, c);
    AuthLoads(m, "rtsp", c.authEnable, c.username, c.password);
  }

  // ---------------------------------------------------------------- nothing else is ever loaded

  lemma DeviceIdClean()
    ensures Clean("34020000001320000001")
  {
  }

  lemma ChannelNameClean()
    ensures Clean("Tri-Fusion MainStream")
  {
  }

  lemma DeviceDefaultsClean()
    ensures Clean("TriFusion") && Clean("TriFusion-Camera")
  {
  }

  lemma LocalDefaultRepresentable()
    ensures LocalRepresentable(DEFAULT_LOCAL)
  {
    DeviceIdClean();
    DeviceDefaultsClean();
    assert Clean("3402000000") && Clean("0.0.0.0") && Clean("12345678") && Clean("1.0.0");
    hide Clean;
  }

  lemma ChannelDefaultRepresentable()
    ensures ChannelRepresentable(DEFAULT_CHANNEL)
  {
    hide Clean;
    DeviceIdClean();
    ChannelNameClean();
  }

  lemma ServerIdClean()
    ensures Clean("41010500002000000001")
  {
  }

  lemma ServerDefaultRepresentable()
    ensures ServerRepresentable(DEFAULT_SERVER)
  {
    ServerIdClean();
    assert Clean("4101050000") && Clean("192.168.1.153") && Clean("12345678");
    hide Clean;
  }

  lemma MediaDefaultRepresentable()
    ensures MediaRepresentable(DEFAULT_MEDIA)
  {
    LowerOfLower("udp");
  }

  lemma OnvifDefaultRepresentable()
    ensures OnvifRepresentable(DEFAULT_ONVIF)
  {
  }

  lemma PrivateApiDefaultRepresentable()
    ensures PrivateApiRepresentable(DEFAULT_PRIVATE)
  {
  }

  lemma RtspDefaultRepresentable()
    ensures RtspRepresentable(DEFAULT_RTSP)
  {
  }

  lemma LocalFromRepresentable(m: Flat)
    requires ValuesClean(m)
    ensures LocalRepresentable(LocalFrom(m))
  {
    LocalDefaultRepresentable();
    hide Join, Clean, ValuesClean, Get, LowerText, ToInt, ToBool;
    GetClean(m, ["gb28181", "local", "device_id"], DEFAULT_LOCAL.deviceId);
    GetClean(m, ["gb28181", "local", "domain"], DEFAULT_LOCAL.domain);
    GetClean(m, ["gb28181", "local", "ip"], DEFAULT_LOCAL.ip);
    GetClean(m, ["gb28181", "local", "password"], DEFAULT_LOCAL.password);
    GetClean(m, ["gb28181", "local", "manufacturer"], DEFAULT_LOCAL.manufacturer);
    GetClean(m, ["gb28181", "local", "model"], DEFAULT_LOCAL.model);
    GetClean(m, ["gb28181", "local", "firmware"], DEFAULT_LOCAL.firmware);
  }

  lemma ChannelFromRepresentable(m: Flat)
    requires ValuesClean(m)
    ensures ChannelRepresentable(ChannelFrom(m))
  {
    ChannelDefaultRepresentable();
    hide Join, Clean, ValuesClean, Get, LowerText, ToInt, ToBool;
    GetClean(m, ["gb28181", "channel", "id"], DEFAULT_CHANNEL.id);
    GetClean(m, ["gb28181", "channel", "name"], DEFAULT_CHANNEL.name);
  }

  lemma ServerFromRepresentable(m: Flat)
    requires ValuesClean(m)
    ensures ServerRepresentable(ServerFrom(m))
  {
    ServerDefaultRepresentable();
    hide Join, Clean, ValuesClean, Get, LowerText, ToInt, ToBool;
    GetClean(m, ["gb28181", "server", "id"], DEFAULT_SERVER.id);
    GetClean(m, ["gb28181", "server", "domain"], DEFAULT_SERVER.domain);
    GetClean(m, ["gb28181", "server", "ip"], DEFAULT_SERVER.ip);
    GetClean(m, ["gb28181", "server", "password"], DEFAULT_SERVER.password);
  }

  lemma MediaFromRepresentable(m: Flat)
    requires ValuesClean(m)
    ensures MediaRepresentable(MediaFrom(m))
  {
    MediaDefaultRepresentable();
    hide Join, Clean, ValuesClean, Get, LowerText, ToInt, ToBool;
    GetClean(m, ["gb28181", "media", "ssrc"], DEFAULT_MEDIA.ssrc);
    GetClean(m, ["gb28181", "media", "transport"], DEFAULT_MEDIA.transport);
    var transport := Get(m, ["gb28181", "media", "transport"], DEFAULT_MEDIA.transport);
    LowerClean(transport);
    LowerTwice(transport);
  }

  lemma Gb28181FromRepresentable(m: Flat, text: string)
    requires m == Parse(text)
    ensures Gb28181Representable(Gb28181From(m))
  {
    ParsedValuesClean(text);
    hide Parse, ValuesClean;
    LocalFromRepresentable(m);
    ChannelFromRepresentable(m);
    ServerFromRepresentable(m);
    MediaFromRepresentable(m);
    hide LocalFrom, ChannelFrom, ServerFrom, MediaFrom, RegisterFrom, KeepaliveFrom, ToBool,
      LocalRepresentable, ChannelRepresentable, ServerRepresentable, MediaRepresentable;
  }

  lemma OnvifFromRepresentable(m: Flat, text: string)
    requires m == Parse(text)
    ensures OnvifRepresentable(OnvifFrom(m))
  {
    ParsedValuesClean(text);
    hide Parse;
    OnvifDefaultRepresentable();
    hide Join, Clean, ValuesClean, Get, LowerText, ToInt, ToBool;
    GetClean(m, ["onvif", "listen", "ip"], DEFAULT_ONVIF.listenIp);
    GetClean(m, ["onvif", "auth", "username"], DEFAULT_ONVIF.username);
    GetClean(m, ["onvif", "auth", "password"], DEFAULT_ONVIF.password);
    GetClean(m, ["onvif", "rtsp", "advertise_ip"], DEFAULT_ONVIF.rtspAdvertiseIp);
    GetClean(m, ["onvif", "rtsp", "path"], DEFAULT_ONVIF.rtspPath);
  }

  lemma PrivateApiFromRepresentable(m: Flat, text: string)
    requires m == Parse(text)
    ensures PrivateApiRepresentable(PrivateApiFrom(m))
  {
    ParsedValuesClean(text);
    hide Parse;
    PrivateApiDefaultRepresentable();
    hide Join, Clean, ValuesClean, Get, LowerText, ToInt, ToBool;
    GetClean(m, ["private_api", "listen", "ip"], DEFAULT_PRIVATE.listenIp);
    GetClean(m, ["private_api", "auth", "username"], DEFAULT_PRIVATE.username);
    GetClean(m, ["private_api", "auth", "password"], DEFAULT_PRIVATE.password);
  }

  lemma RtspFromRepresentable(m: Flat, text: string)
    requires m == Parse(text)
    ensures RtspRepresentable(RtspFrom(m))
  {
    ParsedValuesClean(text);
    hide Parse;
    RtspDefaultRepresentable();
    hide Join, Clean, ValuesClean, Get, LowerText, ToInt, ToBool;
    GetClean(m, ["rtsp", "bind_ip"], DEFAULT_RTSP.bindIp);
    GetClean(m, ["rtsp", "advertise_ip"], DEFAULT_RTSP.advertiseIp);
    GetClean(m, ["rtsp", "path"], DEFAULT_RTSP.path);
    GetClean(m, ["rtsp", "auth", "username"], DEFAULT_RTSP.username);
    GetClean(m, ["rtsp", "auth", "password"], DEFAULT_RTSP.password);
  }

  // ---------------------------------------------------------------- the round trips

  /** For every configuration that can be saved: loading the file gives it back if and only if its texts hold no '#'
      and no line break, its three ports are not 0 and its transport is in lower case. */
  lemma Gb28181RoundTrip(c: Gb28181Config)
    requires SaveGb28181(c).Ok?
    ensures LoadedGb28181(Some(SaveGb28181(c).value)) == Ok(c) <==> Gb28181Representable(c)
  {
    var text := SaveGb28181(c).value;
    var m := Parse(text);
    assert ValidGb28181(c) && FlatOf(Some(text)) == m;
    Gb28181FromRepresentable(m, text);
    if Gb28181Representable(c) { Gb28181Loads(c); }
    hide Parse, SaveGb28181, ValidGb28181, FlatOf, Gb28181From, Gb28181Representable;
  }

  lemma OnvifRoundTrip(c: OnvifConfig)
    requires SaveOnvif(c).Ok?
    ensures LoadedOnvif(Some(SaveOnvif(c).value)) == Ok(c) <==> OnvifRepresentable(c)
  {
    var text := SaveOnvif(c).value;
    var m := Parse(text);
    assert ValidOnvif(c) && FlatOf(Some(text)) == m;
    OnvifFromRepresentable(m, text);
    if OnvifRepresentable(c) { OnvifLoads(c); }
    hide Parse, SaveOnvif, ValidOnvif, FlatOf, OnvifFrom, OnvifRepresentable;
  }

  lemma PrivateApiRoundTrip(c: PrivateApiConfig)
    requires SavePrivateApi(c).Ok?
    ensures LoadedPrivateApi(Some(SavePrivateApi(c).value)) == Ok(c) <==> PrivateApiRepresentable(c)
  {
    var text := SavePrivateApi(c).value;
    var m := Parse(text);
    assert ValidPrivateApi(c) && FlatOf(Some(text)) == m;
    PrivateApiFromRepresentable(m, text);
    if PrivateApiRepresentable(c) { PrivateApiLoads(c); }
    hide Parse, SavePrivateApi, ValidPrivateApi, FlatOf, PrivateApiFrom, PrivateApiRepresentable;
  }

  lemma RtspRoundTrip(c: RtspConfig)
    requires SaveRtsp(c).Ok?
    ensures LoadedRtsp(Some(SaveRtsp(c).value)) == Ok(c) <==> RtspRepresentable(c)
  {
    var text := SaveRtsp(c).value;
    var m := Parse(text);
    assert ValidRtsp(c) && FlatOf(Some(text)) == m;
    RtspFromRepresentable(m, text);
    if RtspRepresentable(c) { RtspLoads(c); }
    hide Parse, SaveRtsp, ValidRtsp, FlatOf, RtspFrom, RtspRepresentable;
  }

  /** A concrete loss: the writer accepts the default settings with RTP port 0, and loading gives another port. */
  lemma PortZeroIsLost()
    ensures var c := Gb28181Config(true, DEFAULT_LOCAL, DEFAULT_CHANNEL, DEFAULT_SERVER, DEFAULT_REGISTER,
                                   DEFAULT_KEEPALIVE, DEFAULT_MEDIA.(rtpLocalPort := 0));
            SaveGb28181(c).Ok? && LoadedGb28181(Some(SaveGb28181(c).value)) != Ok(c)
  {
    hide LoadedGb28181, Printed, Trim, LocalRepresentable, ServerRepresentable, ChannelRepresentable, Clean, LowerText;
    var c := Gb28181Config(true, DEFAULT_LOCAL, DEFAULT_CHANNEL, DEFAULT_SERVER, DEFAULT_REGISTER,
                           DEFAULT_KEEPALIVE, DEFAULT_MEDIA.(rtpLocalPort := 0));
    TrimOfTrimmed(DEFAULT_LOCAL.deviceId);
    TrimOfTrimmed(DEFAULT_LOCAL.domain);
    TrimOfTrimmed(DEFAULT_LOCAL.ip);
    TrimOfTrimmed(DEFAULT_SERVER.id);
    TrimOfTrimmed(DEFAULT_SERVER.domain);
    TrimOfTrimmed(DEFAULT_SERVER.ip);
    Gb28181RoundTrip(c);
  }
}
