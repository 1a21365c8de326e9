/** What loading a protocol configuration gives, for every file that spells a tree, said on the tree alone: each field
    is what its path says, or the default where nothing is there (src/protocol/ProtocolConfigLoader.cpp). The defaults,
    the keys and the conditions are written out here once more, independently of the loader. */
module ProtocolReading {
  import opened Foundation
  import opened Bytes
  import opened Text
  import opened SimpleYaml
  import opened YamlTree
  import opened ConfigPrinter
  import opened ConfigValues
  import opened ConfigMeaning
  import opened ProtocolConfig

  // ---------------------------------------------------------------- what the sections mean

  ghost predicate LocalMeans(nodes: seq<Node>, c: LocalConfig) {
    && TextMeans(Lookup(nodes, ["gb28181", "local", "device_id"]), c.deviceId, "34020000001320000001")
    && TextMeans(Lookup(nodes, ["gb28181", "local", "domain"]), c.domain, "3402000000")
    && TextMeans(Lookup(nodes, ["gb28181", "local", "ip"]), c.ip, "0.0.0.0")
    && PortMeans(Lookup(nodes, ["gb28181", "local", "port"]), c.port, 5060)
    && TextMeans(Lookup(nodes, ["gb28181", "local", "password"]), c.password, "12345678")
    && TextMeans(Lookup(nodes, ["gb28181", "local", "manufacturer"]), c.manufacturer, "TriFusion")
    && TextMeans(Lookup(nodes, ["gb28181", "local", "model"]), c.model, "TriFusion-Camera")
    && TextMeans(Lookup(nodes, ["gb28181", "local", "firmware"]), c.firmware, "1.0.0")
  }

  ghost predicate ChannelMeans(nodes: seq<Node>, c: ChannelConfig) {
    && TextMeans(Lookup(nodes, ["gb28181", "channel", "id"]), c.id, "34020000001320000001")
    && TextMeans(Lookup(nodes, ["gb28181", "channel", "name"]), c.name, "Tri-Fusion MainStream")
  }

  ghost predicate ServerMeans(nodes: seq<Node>, c: ServerConfig) {
    && TextMeans(Lookup(nodes, ["gb28181", "server", "id"]), c.id, "41010500002000000001")
    && TextMeans(Lookup(nodes, ["gb28181", "server", "domain"]), c.domain, "4101050000")
    && TextMeans(Lookup(nodes, ["gb28181", "server", "ip"]), c.ip, "192.168.1.153")
    && PortMeans(Lookup(nodes, ["gb28181", "server", "port"]), c.port, 8118)
    && TextMeans(Lookup(nodes, ["gb28181", "server", "password"]), c.password, "12345678")
  }

  ghost predicate RegisterMeans(nodes: seq<Node>, c: RegisterConfig) {
    && IntMeans(Lookup(nodes, ["gb28181", "register", "expires_sec"]), c.expiresSec, 3600)
    && IntMeans(Lookup(nodes, ["gb28181", "register", "retry_interval_sec"]), c.retryIntervalSec, 5)
  }

  ghost predicate KeepaliveMeans(nodes: seq<Node>, c: KeepaliveConfig) {
    && IntMeans(Lookup(nodes, ["gb28181", "keepalive", "interval_sec"]), c.intervalSec, 60)
    && IntMeans(Lookup(nodes, ["gb28181", "keepalive", "timeout_sec"]), c.timeoutSec, 3)
  }

  ghost predicate MediaMeans(nodes: seq<Node>, c: MediaConfig) {
    && PortMeans(Lookup(nodes, ["gb28181", "media", "rtp_local_port"]), c.rtpLocalPort, 30000)
    && TextMeans(Lookup(nodes, ["gb28181", "media", "ssrc"]), c.ssrc, "0000000001")
    && SmallTextMeans(Lookup(nodes, ["gb28181", "media", "transport"]), c.transport, "udp")
  }

  ghost predicate Gb28181Means(nodes: seq<Node>, c: Gb28181Config) {
    && FlagMeans(Lookup(nodes, ["gb28181", "enable"]), c.enable, true)
    && LocalMeans(nodes, c.local) && ChannelMeans(nodes, c.channel) && ServerMeans(nodes, c.server)
    && RegisterMeans(nodes, c.reg) && KeepaliveMeans(nodes, c.keepalive) && MediaMeans(nodes, c.media)
  }

  ghost predicate OnvifMeans(nodes: seq<Node>, c: OnvifConfig) {
    && FlagMeans(Lookup(nodes, ["onvif", "enable"]), c.enable, true)
    && TextMeans(Lookup(nodes, ["onvif", "listen", "ip"]), c.listenIp, "0.0.0.0")
    && PortMeans(Lookup(nodes, ["onvif", "listen", "port"]), c.listenPort, 8080)
    && FlagMeans(Lookup(nodes, ["onvif", "auth", "enable"]), c.authEnable, false)
    && TextMeans(Lookup(nodes, ["onvif", "auth", "username"]), c.username, "admin")
    && TextMeans(Lookup(nodes, ["onvif", "auth", "password"]), c.password, "admin")
    && TextMeans(Lookup(nodes, ["onvif", "rtsp", "advertise_ip"]), c.rtspAdvertiseIp, "0.0.0.0")
    && PortMeans(Lookup(nodes, ["onvif", "rtsp", "port"]), c.rtspPort, 8554)
    && TextMeans(Lookup(nodes, ["onvif", "rtsp", "path"]), c.rtspPath, "/live/main")
  }

  ghost predicate PrivateApiMeans(nodes: seq<Node>, c: PrivateApiConfig) {
    && FlagMeans(Lookup(nodes, ["private_api", "enable"]), c.enable, true)
    && TextMeans(Lookup(nodes, ["private_api", "listen", "ip"]), c.listenIp, "0.0.0.0")
    && PortMeans(Lookup(nodes, ["private_api", "listen", "port"]), c.listenPort, 18080)
    && FlagMeans(Lookup(nodes, ["private_api", "auth", "enable"]), c.authEnable, false)
    && TextMeans(Lookup(nodes, ["private_api", "auth", "username"]), c.username, "admin")
    && TextMeans(Lookup(nodes, ["private_api", "auth", "password"]), c.password, "admin")
  }

  ghost predicate RtspMeans(nodes: seq<Node>, c: RtspConfig) {
    && FlagMeans(Lookup(nodes, ["rtsp", "enable"]), c.enable, true)
    && TextMeans(Lookup(nodes, ["rtsp", "bind_ip"]), c.bindIp, "0.0.0.0")
    && TextMeans(Lookup(nodes, ["rtsp", "advertise_ip"]), c.advertiseIp, "0.0.0.0")
    && PortMeans(Lookup(nodes, ["rtsp", "port"]), c.port, 8554)
    && TextMeans(Lookup(nodes, ["rtsp", "path"]), c.path, "/live/main")
    && FlagMeans(Lookup(nodes, ["rtsp", "auth", "enable"]), c.authEnable, false)
    && TextMeans(Lookup(nodes, ["rtsp", "auth", "username"]), c.username, "admin")
    && TextMeans(Lookup(nodes, ["rtsp", "auth", "password"]), c.password, "admin")
  }

  // ---------------------------------------------------------------- which records are accepted

  /** The text is more than blanks. */
  predicate HasText(s: string) { exists k :: 0 <= k < |s| && !IsSpace(s[k]) }

  predicate Gb28181Accepted(c: Gb28181Config) {
    c.enable ==>
      && HasText(c.local.deviceId) && HasText(c.local.domain) && HasText(c.local.ip) && c.local.port >= 1
      && HasText(c.server.id) && HasText(c.server.domain) && HasText(c.server.ip) && c.server.port >= 1
      && c.reg.expiresSec >= 1 && c.keepalive.intervalSec >= 1
      && (c.media.transport == "udp" || c.media.transport == "tcp")
  }

  predicate OnvifAccepted(c: OnvifConfig) {
    c.enable ==> HasText(c.listenIp) && c.listenPort >= 1 && HasText(c.rtspPath) && c.rtspPort >= 1
  }

  predicate PrivateApiAccepted(c: PrivateApiConfig) { c.enable ==> HasText(c.listenIp) && c.listenPort >= 1 }

  predicate RtspAccepted(c: RtspConfig) { c.enable ==> HasText(c.bindIp) && HasText(c.path) && c.port >= 1 }

  lemma {:induction false} TrimRightKeeps(s: string)
    ensures TrimRight(s) != "" <==> HasText(s)
  {
    if s != "" {
      var front, last := s[..|s| - 1], s[|s| - 1];
      if IsSpace(last) {
        TrimRightKeeps(front);
        assert forall k :: 0 <= k < |front| ==> front[k] == s[k];
        if HasText(s) {
          var k :| 0 <= k < |s| && !IsSpace(s[k]);
          assert front[k] == s[k];
        }
      }
    }
  }

  lemma {:induction false} TrimLeftKeeps(s: string)
    ensures HasText(TrimLeft(s)) <==> HasText(s)
  {
    if s != "" && IsSpace(s[0]) {
      TrimLeftKeeps(s[1..]);
      assert forall k :: 0 < k < |s| ==> s[k] == s[1..][k - 1];
    }
  }

  lemma NotEmptyHasText(s: string)
    ensures NotEmpty(s) <==> HasText(s)
  {
    TrimLeftKeeps(s);
    TrimRightKeeps(TrimLeft(s));
    hide TrimLeft, TrimRight, HasText;
  }

  lemma Gb28181Checked(c: Gb28181Config)
    ensures ValidGb28181(c) <==> Gb28181Accepted(c)
  {
    NotEmptyHasText(c.local.deviceId);
    NotEmptyHasText(c.local.domain);
    NotEmptyHasText(c.local.ip);
    NotEmptyHasText(c.server.id);
    NotEmptyHasText(c.server.domain);
    NotEmptyHasText(c.server.ip);
    hide NotEmpty, HasText;
  }

  lemma OnvifChecked(c: OnvifConfig)
    ensures ValidOnvif(c) <==> OnvifAccepted(c)
  {
    NotEmptyHasText(c.listenIp);
    NotEmptyHasText(c.rtspPath);
    hide NotEmpty, HasText;
  }

  lemma PrivateApiChecked(c: PrivateApiConfig)
    ensures ValidPrivateApi(c) <==> PrivateApiAccepted(c)
  {
    NotEmptyHasText(c.listenIp);
    hide NotEmpty, HasText;
  }

  lemma RtspChecked(c: RtspConfig)
    ensures ValidRtsp(c) <==> RtspAccepted(c)
  {
    NotEmptyHasText(c.bindIp);
    NotEmptyHasText(c.path);
    hide NotEmpty, HasText;
  }

  /** A record is saved exactly if it is one that loading accepts; otherwise that is a configuration error. */
  lemma SavedIfAccepted(g: Gb28181Config, o: OnvifConfig, p: PrivateApiConfig, r: RtspConfig)
    ensures SaveGb28181(g).Ok? <==> Gb28181Accepted(g)
    ensures SaveOnvif(o).Ok? <==> OnvifAccepted(o)
    ensures SavePrivateApi(p).Ok? <==> PrivateApiAccepted(p)
    ensures SaveRtsp(r).Ok? <==> RtspAccepted(r)
    ensures SaveGb28181(g).Err? ==> SaveGb28181(g) == Err(ConfigError)
    ensures SaveOnvif(o).Err? ==> SaveOnvif(o) == Err(ConfigError)
    ensures SavePrivateApi(p).Err? ==> SavePrivateApi(p) == Err(ConfigError)
    ensures SaveRtsp(r).Err? ==> SaveRtsp(r) == Err(ConfigError)
  {
    Gb28181Checked(g);
    OnvifChecked(o);
    PrivateApiChecked(p);
    RtspChecked(r);
    hide ValidGb28181, ValidOnvif, ValidPrivateApi, ValidRtsp, Gb28181Accepted, OnvifAccepted, PrivateApiAccepted,
      RtspAccepted, Printed;
  }

  // ---------------------------------------------------------------- the sections are read so

  lemma PlainPath(path: seq<string>)
    requires forall k :: 0 <= k < |path| ==> PlainKey(path[k])
    ensures Dotless(path)
  {
    forall k | 0 <= k < |path| ensures '.' !in path[k] {
      assert PlainKey(path[k]);
      assert forall j :: 0 <= j < |path[k]| ==> path[k][j] != '.';
    }
  }

  /** The map holds under the path what a walk finds there. */
  lemma HoldsAt(text: string, nodes: seq<Node>, path: seq<string>)
    requires Spells(text, nodes) && path != [] && forall k :: 0 <= k < |path| ==> PlainKey(path[k])
    ensures Holding(Parse(text), path, Lookup(nodes, path))
  {
    PlainPath(path);
    hide PlainKey, Dotless, Spells, Parse, Holding, Lookup;
    ParsedHolds(text, nodes, path);
  }

  lemma KeysPlain()
    ensures forall key :: key in {"device_id", "domain", "ip", "port", "password", "manufacturer", "model", "firmware"}
              ==> PlainKey(key)
    ensures forall key :: key in {"rtp_local_port", "ssrc", "transport", "expires_sec", "retry_interval_sec"}
              ==> PlainKey(key)
    ensures forall key :: key in {"interval_sec", "timeout_sec", "id", "name", "username", "enable"} ==> PlainKey(key)
    ensures forall key :: key in {"advertise_ip", "path", "bind_ip", "listen", "auth", "rtsp"} ==> PlainKey(key)
    ensures forall key :: key in {"local", "channel", "server", "register", "keepalive", "media"} ==> PlainKey(key)
    ensures forall key :: key in {"gb28181", "onvif", "private_api"} ==> PlainKey(key)
  {
    hide PlainKey;
    IdentityKeysPlain();
    DeviceKeysPlain();
    MediaKeysPlain();
    TimingKeysPlain();
    KeepaliveKeysPlain();
    AccessKeysPlain();
    RtspKeysPlain();
    SectionKeysPlain();
    OtherSectionKeysPlain();
    RootKeysPlain();
  }

  lemma TextReads(text: string, nodes: seq<Node>, path: seq<string>, s: string, d: string)
    requires Spells(text, nodes) && path != [] && forall k :: 0 <= k < |path| ==> PlainKey(path[k])
    ensures Get(Parse(text), path, d) == s <==> TextMeans(Lookup(nodes, path), s, d)
  {
    hide *;
    HoldsAt(text, nodes, path);
    GetMeans(Parse(text), path, Lookup(nodes, path), s, d);
  }

  lemma SmallTextReads(text: string, nodes: seq<Node>, path: seq<string>, s: string, d: string)
    requires Spells(text, nodes) && path != [] && forall k :: 0 <= k < |path| ==> PlainKey(path[k])
    ensures LowerText(Get(Parse(text), path, d)) == s <==> SmallTextMeans(Lookup(nodes, path), s, d)
  {
    hide *;
    HoldsAt(text, nodes, path);
    LowerMeans(Parse(text), path, Lookup(nodes, path), s, d);
  }

  lemma IntReads(text: string, nodes: seq<Node>, path: seq<string>, n: int32, d: int32)
    requires Spells(text, nodes) && path != [] && forall k :: 0 <= k < |path| ==> PlainKey(path[k])
    ensures ToInt(Parse(text), path, d) == n <==> IntMeans(Lookup(nodes, path), n, d)
  {
    hide *;
    HoldsAt(text, nodes, path);
    ToIntMeans(Parse(text), path, Lookup(nodes, path), n, d);
  }

  lemma PortReads(text: string, nodes: seq<Node>, path: seq<string>, port: u16, d: u16)
    requires Spells(text, nodes) && path != [] && forall k :: 0 <= k < |path| ==> PlainKey(path[k])
    ensures ToPort(Parse(text), path, d) == port <==> PortMeans(Lookup(nodes, path), port, d)
  {
    hide *;
    HoldsAt(text, nodes, path);
    ToPortMeans(Parse(text), path, Lookup(nodes, path), port, d);
  }

  lemma FlagReads(text: string, nodes: seq<Node>, path: seq<string>, b: bool, d: bool)
    requires Spells(text, nodes) && path != [] && forall k :: 0 <= k < |path| ==> PlainKey(path[k])
    ensures ToBool(Parse(text), path, d) == b <==> FlagMeans(Lookup(nodes, path), b, d)
  {
    hide *;
    HoldsAt(text, nodes, path);
    ToBoolMeans(Parse(text), path, Lookup(nodes, path), b, d);
  }

  lemma LocalReads(text: string, nodes: seq<Node>, c: LocalConfig)
    requires Spells(text, nodes)
    ensures LocalFrom(Parse(text)) == c <==> LocalMeans(nodes, c)
  {
    hide Get, ToInt, ToPort, ToBool, LowerText, TextMeans, SmallTextMeans, IntMeans, PortMeans, FlagMeans, Lookup,
      Spells, Parse, PlainKey;
    KeysPlain();
    TextReads(text, nodes, ["gb28181", "local", "device_id"], c.deviceId, "34020000001320000001");
    TextReads(text, nodes, ["gb28181", "local", "domain"], c.domain, "3402000000");
    TextReads(text, nodes, ["gb28181", "local", "ip"], c.ip, "0.0.0.0");
    PortReads(text, nodes, ["gb28181", "local", "port"], c.port, 5060);
    TextReads(text, nodes, ["gb28181", "local", "password"], c.password, "12345678");
    TextReads(text, nodes, ["gb28181", "local", "manufacturer"], c.manufacturer, "TriFusion");
    TextReads(text, nodes, ["gb28181", "local", "model"], c.model, "TriFusion-Camera");
    TextReads(text, nodes, ["gb28181", "local", "firmware"], c.firmware, "1.0.0");
  }

  lemma ChannelReads(text: string, nodes: seq<Node>, c: ChannelConfig)
    requires Spells(text, nodes)
    ensures ChannelFrom(Parse(text)) == c <==> ChannelMeans(nodes, c)
  {
    hide Get, ToInt, ToPort, ToBool, LowerText, TextMeans, SmallTextMeans, IntMeans, PortMeans, FlagMeans, Lookup,
      Spells, Parse, PlainKey;
    KeysPlain();
    TextReads(text, nodes, ["gb28181", "channel", "id"], c.id, "34020000001320000001");
    TextReads(text, nodes, ["gb28181", "channel", "name"], c.name, "Tri-Fusion MainStream");
  }

  lemma ServerReads(text: string, nodes: seq<Node>, c: ServerConfig)
    requires Spells(text, nodes)
    ensures ServerFrom(Parse(text)) == c <==> ServerMeans(nodes, c)
  {
    hide Get, ToInt, ToPort, ToBool, LowerText, TextMeans, SmallTextMeans, IntMeans, PortMeans, FlagMeans, Lookup,
      Spells, Parse, PlainKey;
    KeysPlain();
    TextReads(text, nodes, ["gb28181", "server", "id"], c.id, "41010500002000000001");
    TextReads(text, nodes, ["gb28181", "server", "domain"], c.domain, "4101050000");
    TextReads(text, nodes, ["gb28181", "server", "ip"], c.ip, "192.168.1.153");
    PortReads(text, nodes, ["gb28181", "server", "port"], c.port, 8118);
    TextReads(text, nodes, ["gb28181", "server", "password"], c.password, "12345678");
  }

  lemma RegisterReads(text: string, nodes: seq<Node>, c: RegisterConfig)
    requires Spells(text, nodes)
    ensures RegisterFrom(Parse(text)) == c <==> RegisterMeans(nodes, c)
  {
    hide Get, ToInt, ToPort, ToBool, LowerText, TextMeans, SmallTextMeans, IntMeans, PortMeans, FlagMeans, Lookup,
      Spells, Parse, PlainKey;
    KeysPlain();
    IntReads(text, nodes, ["gb28181", "register", "expires_sec"], c.expiresSec, 3600);
    IntReads(text, nodes, ["gb28181", "register", "retry_interval_sec"], c.retryIntervalSec, 5);
  }

  lemma KeepaliveReads(text: string, nodes: seq<Node>, c: KeepaliveConfig)
    requires Spells(text, nodes)
    ensures KeepaliveFrom(Parse(text)) == c <==> KeepaliveMeans(nodes, c)
  {
    hide Get, ToInt, ToPort, ToBool, LowerText, TextMeans, SmallTextMeans, IntMeans, PortMeans, FlagMeans, Lookup,
      Spells, Parse, PlainKey;
    KeysPlain();
    IntReads(text, nodes, ["gb28181", "keepalive", "interval_sec"], c.intervalSec, 60);
    IntReads(text, nodes, ["gb28181", "keepalive", "timeout_sec"], c.timeoutSec, 3);
  }

  lemma MediaReads(text: string, nodes: seq<Node>, c: MediaConfig)
    requires Spells(text, nodes)
    ensures MediaFrom(Parse(text)) == c <==> MediaMeans(nodes, c)
  {
    hide Get, ToInt, ToPort, ToBool, LowerText, TextMeans, SmallTextMeans, IntMeans, PortMeans, FlagMeans, Lookup,
      Spells, Parse, PlainKey;
    KeysPlain();
    PortReads(text, nodes, ["gb28181", "media", "rtp_local_port"], c.rtpLocalPort, 30000);
    TextReads(text, nodes, ["gb28181", "media", "ssrc"], c.ssrc, "0000000001");
    SmallTextReads(text, nodes, ["gb28181", "media", "transport"], c.transport, "udp");
  }

  lemma Gb28181Reads(text: string, nodes: seq<Node>, c: Gb28181Config)
    requires Spells(text, nodes)
    ensures Gb28181From(Parse(text)) == c <==> Gb28181Means(nodes, c)
  {
    hide Get, ToInt, ToPort, ToBool, LowerText, TextMeans, SmallTextMeans, IntMeans, PortMeans, FlagMeans, Lookup,
      Spells, Parse, PlainKey,
      LocalFrom, ChannelFrom, ServerFrom, RegisterFrom, KeepaliveFrom, MediaFrom,
      LocalMeans, ChannelMeans, ServerMeans, RegisterMeans, KeepaliveMeans, MediaMeans;
    KeysPlain();
    FlagReads(text, nodes, ["gb28181", "enable"], c.enable, true);
    LocalReads(text, nodes, c.local);
    ChannelReads(text, nodes, c.channel);
    ServerReads(text, nodes, c.server);
    RegisterReads(text, nodes, c.reg);
    KeepaliveReads(text, nodes, c.keepalive);
    MediaReads(text, nodes, c.media);
  }

  lemma OnvifReads(text: string, nodes: seq<Node>, c: OnvifConfig)
    requires Spells(text, nodes)
    ensures OnvifFrom(Parse(text)) == c <==> OnvifMeans(nodes, c)
  {
    hide Get, ToInt, ToPort, ToBool, LowerText, TextMeans, SmallTextMeans, IntMeans, PortMeans, FlagMeans, Lookup,
      Spells, Parse, PlainKey;
    KeysPlain();
    FlagReads(text, nodes, ["onvif", "enable"], c.enable, true);
    TextReads(text, nodes, ["onvif", "listen", "ip"], c.listenIp, "0.0.0.0");
    PortReads(text, nodes, ["onvif", "listen", "port"], c.listenPort, 8080);
    FlagReads(text, nodes, ["onvif", "auth", "enable"], c.authEnable, false);
    TextReads(text, nodes, ["onvif", "auth", "username"], c.username, "admin");
    TextReads(text, nodes, ["onvif", "auth", "password"], c.password, "admin");
    TextReads(text, nodes, ["onvif", "rtsp", "advertise_ip"], c.rtspAdvertiseIp, "0.0.0.0");
    PortReads(text, nodes, ["onvif", "rtsp", "port"], c.rtspPort, 8554);
    TextReads(text, nodes, ["onvif", "rtsp", "path"], c.rtspPath, "/live/main");
  }

  lemma PrivateApiReads(text: string, nodes: seq<Node>, c: PrivateApiConfig)
    requires Spells(text, nodes)
    ensures PrivateApiFrom(Parse(text)) == c <==> PrivateApiMeans(nodes, c)
  {
    hide Get, ToInt, ToPort, ToBool, LowerText, TextMeans, SmallTextMeans, IntMeans, PortMeans, FlagMeans, Lookup,
      Spells, Parse, PlainKey;
    KeysPlain();
    FlagReads(text, nodes, ["private_api", "enable"], c.enable, true);
    TextReads(text, nodes, ["private_api", "listen", "ip"], c.listenIp, "0.0.0.0");
    PortReads(text, nodes, ["private_api", "listen", "port"], c.listenPort, 18080);
    FlagReads(text, nodes, ["private_api", "auth", "enable"], c.authEnable, false);
    TextReads(text, nodes, ["private_api", "auth", "username"], c.username, "admin");
    TextReads(text, nodes, ["private_api", "auth", "password"], c.password, "admin");
  }

  lemma RtspReads(text: string, nodes: seq<Node>, c: RtspConfig)
    requires Spells(text, nodes)
    ensures RtspFrom(Parse(text)) == c <==> RtspMeans(nodes, c)
  {
    hide Get, ToInt, ToPort, ToBool, LowerText, TextMeans, SmallTextMeans, IntMeans, PortMeans, FlagMeans, Lookup,
      Spells, Parse, PlainKey;
    KeysPlain();
    FlagReads(text, nodes, ["rtsp", "enable"], c.enable, true);
    TextReads(text, nodes, ["rtsp", "bind_ip"], c.bindIp, "0.0.0.0");
    TextReads(text, nodes, ["rtsp", "advertise_ip"], c.advertiseIp, "0.0.0.0");
    PortReads(text, nodes, ["rtsp", "port"], c.port, 8554);
    TextReads(text, nodes, ["rtsp", "path"], c.path, "/live/main");
    FlagReads(text, nodes, ["rtsp", "auth", "enable"], c.authEnable, false);
    TextReads(text, nodes, ["rtsp", "auth", "username"], c.username, "admin");
    TextReads(text, nodes, ["rtsp", "auth", "password"], c.password, "admin");
  }

  // ---------------------------------------------------------------- what loading gives, for every file

  /** Loading gives a record exactly if that is what the tree of the file means and it is accepted; otherwise it is a
      configuration error. */
  lemma Gb28181Loaded(text: string, nodes: seq<Node>, c: Gb28181Config)
    requires Spells(text, nodes)
    ensures LoadedGb28181(Some(text)) == Ok(c) <==> Gb28181Means(nodes, c) && Gb28181Accepted(c)
    ensures Gb28181Means(nodes, c) && !Gb28181Accepted(c) ==> LoadedGb28181(Some(text)) == Err(ConfigError)
  {
    Gb28181Reads(text, nodes, c);
    Gb28181Checked(c);
    hide ValidGb28181, Gb28181Accepted, Gb28181Means, Gb28181From, Parse, Spells;
  }

  lemma OnvifLoaded(text: string, nodes: seq<Node>, c: OnvifConfig)
    requires Spells(text, nodes)
    ensures LoadedOnvif(Some(text)) == Ok(c) <==> OnvifMeans(nodes, c) && OnvifAccepted(c)
    ensures OnvifMeans(nodes, c) && !OnvifAccepted(c) ==> LoadedOnvif(Some(text)) == Err(ConfigError)
  {
    OnvifReads(text, nodes, c);
    OnvifChecked(c);
    hide ValidOnvif, OnvifAccepted, OnvifMeans, OnvifFrom, Parse, Spells;
  }

  lemma PrivateApiLoaded(text: string, nodes: seq<Node>, c: PrivateApiConfig)
    requires Spells(text, nodes)
    ensures LoadedPrivateApi(Some(text)) == Ok(c) <==> PrivateApiMeans(nodes, c) && PrivateApiAccepted(c)
    ensures PrivateApiMeans(nodes, c) && !PrivateApiAccepted(c) ==> LoadedPrivateApi(Some(text)) == Err(ConfigError)
  {
    PrivateApiReads(text, nodes, c);
    PrivateApiChecked(c);
    hide ValidPrivateApi, PrivateApiAccepted, PrivateApiMeans, PrivateApiFrom, Parse, Spells;
  }

  lemma RtspLoaded(text: string, nodes: seq<Node>, c: RtspConfig)
    requires Spells(text, nodes)
    ensures LoadedRtsp(Some(text)) == Ok(c) <==> RtspMeans(nodes, c) && RtspAccepted(c)
    ensures RtspMeans(nodes, c) && !RtspAccepted(c) ==> LoadedRtsp(Some(text)) == Err(ConfigError)
  {
    RtspReads(text, nodes, c);
    RtspChecked(c);
    hide ValidRtsp, RtspAccepted, RtspMeans, RtspFrom, Parse, Spells;
  }

  lemma NothingFound()
    ensures forall port: u16 :: port >= 1 ==> PortMeans(None, port, port)
    ensures SmallTextMeans(None, "udp", "udp")
  {
    forall port: u16 | port >= 1 ensures PortMeans(None, port, port) { assert IntMeans(None, port, port); }
    assert TextMeans(None, "udp", "udp") && Lowered("udp", "udp");
  }

  lemma FirstLetter(s: string)
    requires s != "" && !IsSpace(s[0])
    ensures HasText(s)
  {
  }

  lemma LocalAlone()
    ensures LocalMeans([], LocalConfig("34020000001320000001", "3402000000", "0.0.0.0", 5060, "12345678", "TriFusion",
                                       "TriFusion-Camera", "1.0.0"))
  {
    NothingFound();
    hide PortMeans;
  }

  lemma ServerAlone()
    ensures ServerMeans([], ServerConfig("41010500002000000001", "4101050000", "192.168.1.153", 8118, "12345678"))
  {
    NothingFound();
    hide PortMeans;
  }

  lemma OthersAlone()
    ensures ChannelMeans([], ChannelConfig("34020000001320000001", "Tri-Fusion MainStream"))
    ensures RegisterMeans([], RegisterConfig(3600, 5)) && KeepaliveMeans([], KeepaliveConfig(60, 3))
    ensures MediaMeans([], MediaConfig(30000, "0000000001", "udp"))
  {
    NothingFound();
    hide PortMeans, SmallTextMeans;
  }

  lemma DefaultTexts()
    ensures HasText("34020000001320000001") && HasText("3402000000") && HasText("0.0.0.0")
    ensures HasText("41010500002000000001") && HasText("4101050000") && HasText("192.168.1.153")
    ensures HasText("/live/main")
  {
    hide HasText;
    FirstLetter("34020000001320000001");
    FirstLetter("3402000000");
    FirstLetter("0.0.0.0");
    FirstLetter("41010500002000000001");
    FirstLetter("4101050000");
    FirstLetter("192.168.1.153");
    FirstLetter("/live/main");
  }

  /** Without a file the defaults are loaded. */
  lemma Gb28181WithoutFile()
    ensures LoadedGb28181(None) ==
            Ok(Gb28181Config(
              true,
              LocalConfig("34020000001320000001", "3402000000", "0.0.0.0", 5060, "12345678", "TriFusion",
                          "TriFusion-Camera", "1.0.0"),
              ChannelConfig("34020000001320000001", "Tri-Fusion MainStream"),
              ServerConfig("41010500002000000001", "4101050000", "192.168.1.153", 8118, "12345678"),
              RegisterConfig(3600, 5), KeepaliveConfig(60, 3), MediaConfig(30000, "0000000001", "udp")))
  {
    hide Spells, Parse, HasText, PortMeans, SmallTextMeans, LocalMeans, ChannelMeans, ServerMeans, RegisterMeans,
      KeepaliveMeans, MediaMeans, Gb28181From, ValidGb28181;
    EmptyText();
    DefaultTexts();
    LocalAlone();
    ServerAlone();
    OthersAlone();
    Gb28181Loaded("", [], Gb28181Config(
      true,
      LocalConfig("34020000001320000001", "3402000000", "0.0.0.0", 5060, "12345678", "TriFusion",
                  "TriFusion-Camera", "1.0.0"),
      ChannelConfig("34020000001320000001", "Tri-Fusion MainStream"),
      ServerConfig("41010500002000000001", "4101050000", "192.168.1.153", 8118, "12345678"),
      RegisterConfig(3600, 5), KeepaliveConfig(60, 3), MediaConfig(30000, "0000000001", "udp")));
    assert FlatOf(None) == FlatOf(Some(""));
  }

  lemma OnvifWithoutFile()
    ensures LoadedOnvif(None) ==
            Ok(OnvifConfig(true, "0.0.0.0", 8080, false, "admin", "admin", "0.0.0.0", 8554, "/live/main"))
  {
    hide Spells, Parse, HasText, PortMeans, SmallTextMeans, LocalMeans, ChannelMeans, ServerMeans, RegisterMeans,
      KeepaliveMeans, MediaMeans, OnvifFrom, ValidOnvif;
    EmptyText();
    DefaultTexts();
    NothingFound();
    OnvifLoaded("", [], OnvifConfig(true, "0.0.0.0", 8080, false, "admin", "admin", "0.0.0.0", 8554, "/live/main"));
    assert FlatOf(None) == FlatOf(Some(""));
  }

  lemma PrivateApiWithoutFile()
    ensures LoadedPrivateApi(None) ==
            Ok(PrivateApiConfig(true, "0.0.0.0", 18080, false, "admin", "admin"))
  {
    hide Spells, Parse, HasText, PortMeans, SmallTextMeans, LocalMeans, ChannelMeans, ServerMeans, RegisterMeans,
      KeepaliveMeans, MediaMeans, PrivateApiFrom, ValidPrivateApi;
    EmptyText();
    DefaultTexts();
    NothingFound();
    PrivateApiLoaded("", [], PrivateApiConfig(true, "0.0.0.0", 18080, false, "admin", "admin"));
    assert FlatOf(None) == FlatOf(Some(""));
  }

  lemma RtspWithoutFile()
    ensures LoadedRtsp(None) ==
            Ok(RtspConfig(true, "0.0.0.0", "0.0.0.0", 8554, "/live/main", false, "admin", "admin"))
  {
    hide Spells, Parse, HasText, PortMeans, SmallTextMeans, LocalMeans, ChannelMeans, ServerMeans, RegisterMeans,
      KeepaliveMeans, MediaMeans, RtspFrom, ValidRtsp;
    EmptyText();
    DefaultTexts();
    NothingFound();
    RtspLoaded("", [], RtspConfig(true, "0.0.0.0", "0.0.0.0", 8554, "/live/main", false, "admin", "admin"));
    assert FlatOf(None) == FlatOf(Some(""));
  }


  // ---------------------------------------------------------------- files that leave something out

  /** The pairs whose key is in `keep` under the group's key. */
  function KeptPairs(group: string, pairs: seq<Pair>, keep: set<seq<string>>): seq<Pair> {
    if pairs == [] then []
    else (if [group, pairs[0].0] in keep then [pairs[0]] else []) + KeptPairs(group, pairs[1..], keep)
  }

  function KeptPart(part: Part, keep: set<seq<string>>): Part {
    match part
    case One(_) => part
    case Group(key, pairs) => Group(key, KeptPairs(key, pairs, keep))
  }

  /** The parts of a file of which only the values and groups in `keep`, by their paths under the root, are written. */
  function KeptParts(parts: seq<Part>, keep: set<seq<string>>): seq<Part> {
    if parts == [] then []
    else (if [KeyOf(parts[0])] in keep then [KeptPart(parts[0], keep)] else []) + KeptParts(parts[1..], keep)
  }

  lemma {:induction false} KeptPairsFrom(group: string, pairs: seq<Pair>, keep: set<seq<string>>)
    ensures forall p | p in KeptPairs(group, pairs, keep) :: p in pairs
  {
    if pairs != [] { KeptPairsFrom(group, pairs[1..], keep); }
  }

  lemma {:induction false} KeptPairsOk(group: string, pairs: seq<Pair>, keep: set<seq<string>>)
    requires PairsOk(pairs)
    ensures PairsOk(KeptPairs(group, pairs, keep))
  {
    hide PairOk;
    if pairs != [] {
      KeptPairsOk(group, pairs[1..], keep);
      KeptPairsFrom(group, pairs[1..], keep);
      var rest := KeptPairs(group, pairs[1..], keep);
      forall j | 0 <= j < |rest| ensures rest[j].0 != pairs[0].0 {
        assert rest[j] in pairs[1..];
        var k :| 0 <= k < |pairs| - 1 && pairs[1..][k] == rest[j];
        assert pairs[k + 1] == rest[j];
      }
    }
  }

  lemma {:induction false} KeptPartsFrom(parts: seq<Part>, keep: set<seq<string>>)
    ensures forall p | p in KeptParts(parts, keep) :: exists i :: 0 <= i < |parts| && KeyOf(parts[i]) == KeyOf(p)
  {
    if parts != [] {
      KeptPartsFrom(parts[1..], keep);
      forall p | p in KeptParts(parts, keep) ensures exists i :: 0 <= i < |parts| && KeyOf(parts[i]) == KeyOf(p) {
        if p in KeptParts(parts[1..], keep) {
          var i :| 0 <= i < |parts| - 1 && KeyOf(parts[1..][i]) == KeyOf(p);
          assert KeyOf(parts[i + 1]) == KeyOf(p);
        }
      }
    }
  }

  /** No part that is kept of the others has the key of the first. */
  lemma OtherKeys(parts: seq<Part>, keep: set<seq<string>>)
    requires parts != [] && PartsOk(parts)
    ensures forall j :: 0 <= j < |KeptParts(parts[1..], keep)| ==>
              KeyOf(KeptParts(parts[1..], keep)[j]) != KeyOf(parts[0])
  {
    hide PartOk;
    var rest := KeptParts(parts[1..], keep);
    KeptPartsFrom(parts[1..], keep);
    forall j | 0 <= j < |rest| ensures KeyOf(rest[j]) != KeyOf(parts[0]) {
      assert rest[j] in rest;
      var i :| 0 <= i < |parts| - 1 && KeyOf(parts[1..][i]) == KeyOf(rest[j]);
      assert parts[i + 1] == parts[1..][i];
    }
  }

  lemma KeptPartOk(part: Part, keep: set<seq<string>>)
    requires PartOk(part)
    ensures PartOk(KeptPart(part, keep))
  {
    if part.Group? { KeptPairsOk(part.key, part.pairs, keep); }
    hide PairsOk, KeyOk, Clean, PairOk;
  }

  lemma {:induction false} KeptPartsOk(parts: seq<Part>, keep: set<seq<string>>)
    requires PartsOk(parts)
    ensures PartsOk(KeptParts(parts, keep))
  {
    hide PartOk, KeptPart;
    if parts != [] {
      KeptPartsOk(parts[1..], keep);
      OtherKeys(parts, keep);
      KeptPartOk(parts[0], keep);
      KeptKey(parts[0], keep);
    }
  }

  lemma KeptKey(part: Part, keep: set<seq<string>>)
    ensures KeyOf(KeptPart(part, keep)) == KeyOf(part)
  {
  }

  lemma {:induction false} NoSuchChild(nodes: seq<Node>, path: seq<string>)
    requires path != [] && forall k :: 0 <= k < |nodes| ==> nodes[k].key != path[0]
    ensures Lookup(nodes, path).None?
    decreases |nodes|
  {
    if nodes != [] { NoSuchChild(nodes[1..], path); }
  }

  lemma {:induction false} KeptLeaf(group: string, pairs: seq<Pair>, keep: set<seq<string>>, j: nat)
    requires PairsOk(pairs) && j < |pairs|
    ensures Lookup(Leaves(4, KeptPairs(group, pairs, keep)), [pairs[j].0]) ==
            if [group, pairs[j].0] in keep then Some(pairs[j].1) else None
    decreases |pairs|
  {
    hide PairOk;
    var rest := KeptPairs(group, pairs[1..], keep);
    KeptLeavesStep(group, pairs, keep);
    if j > 0 {
      assert pairs[1..][j - 1] == pairs[j];
      KeptLeaf(group, pairs[1..], keep, j - 1);
    } else if [group, pairs[0].0] in keep {
      assert [pairs[0].0][1..] == [];
    } else {
      KeptPairsFrom(group, pairs[1..], keep);
      forall k | 0 <= k < |rest| ensures rest[k].0 != pairs[0].0 {
        assert rest[k] in pairs[1..];
        var i :| 0 <= i < |pairs| - 1 && pairs[1..][i] == rest[k];
        assert pairs[i + 1] == rest[k];
      }
      NoSuchChild(Leaves(4, rest), [pairs[0].0]);
    }
  }

  lemma KeptLeavesStep(group: string, pairs: seq<Pair>, keep: set<seq<string>>)
    requires pairs != []
    ensures var rest := Leaves(4, KeptPairs(group, pairs[1..], keep));
            Leaves(4, KeptPairs(group, pairs, keep)) ==
            if [group, pairs[0].0] in keep then [PairNode(4, pairs[0])] + rest else rest
  {
    var rest := KeptPairs(group, pairs[1..], keep);
    assert ([pairs[0]] + rest)[1..] == rest;
  }

  lemma KeptNodesStep(parts: seq<Part>, keep: set<seq<string>>)
    requires parts != []
    ensures var rest := PartNodes(KeptParts(parts[1..], keep));
            PartNodes(KeptParts(parts, keep)) ==
            if [KeyOf(parts[0])] in keep then [PartNode(KeptPart(parts[0], keep))] + rest else rest
  {
    hide KeptPart, PartNode;
    var rest := KeptParts(parts[1..], keep);
    assert ([KeptPart(parts[0], keep)] + rest)[1..] == rest;
  }

  /** A walk finds of a part what was kept of it. */
  lemma {:induction false} KeptChild(parts: seq<Part>, keep: set<seq<string>>, i: nat, rest: seq<string>)
    requires PartsOk(parts) && i < |parts|
    ensures Lookup(PartNodes(KeptParts(parts, keep)), [KeyOf(parts[i])] + rest) ==
            if [KeyOf(parts[i])] in keep then LookupIn(PartNode(KeptPart(parts[i], keep)), rest) else None
    decreases |parts|
  {
    hide PartOk, KeptPart, KeptParts, Lookup, LookupIn, PartNode, PartNodes, KeyOf;
    var path := [KeyOf(parts[i])] + rest;
    var others := PartNodes(KeptParts(parts[1..], keep));
    assert path[0] == KeyOf(parts[i]) && path[1..] == rest;
    KeptNodesStep(parts, keep);
    KeptNode(parts[0], keep);
    FirstChild(PartNode(KeptPart(parts[0], keep)), others, path);
    if i > 0 {
      KeptChild(parts[1..], keep, i - 1, rest);
    } else if [KeyOf(parts[0])] !in keep {
      OtherKeys(parts, keep);
      NodeKeys(KeptParts(parts[1..], keep));
      NoSuchChild(others, path);
    }
  }

  lemma FirstChild(node: Node, others: seq<Node>, path: seq<string>)
    requires path != []
    ensures Lookup([node] + others, path) ==
            if node.key == path[0] then LookupIn(node, path[1..]) else Lookup(others, path)
  {
    assert ([node] + others)[1..] == others;
  }

  lemma NodeKeys(parts: seq<Part>)
    ensures forall k :: 0 <= k < |parts| ==> PartNodes(parts)[k].key == KeyOf(parts[k])
  {
  }

  lemma KeptNode(part: Part, keep: set<seq<string>>)
    ensures PartNode(KeptPart(part, keep)).key == KeyOf(part)
  {
  }

  lemma UnderRoot(root: string, parts: seq<Part>, rest: seq<string>)
    requires rest != []
    ensures Lookup(Document(root, parts), [root] + rest) == Lookup(PartNodes(parts), rest)
  {
    assert ([root] + rest)[1..] == rest;
  }

  /** What a walk of a partial file finds of a value that stands alone. */
  lemma KeptOne(root: string, parts: seq<Part>, keep: set<seq<string>>, i: nat)
    requires PartsOk(parts) && i < |parts| && parts[i].One?
    ensures Lookup(Document(root, KeptParts(parts, keep)), [root, parts[i].pair.0]) ==
            if [parts[i].pair.0] in keep then Some(parts[i].pair.1) else None
  {
    hide PartsOk, KeptParts, Document;
    KeptChild(parts, keep, i, []);
    UnderRoot(root, KeptParts(parts, keep), [KeyOf(parts[i])]);
    assert [KeyOf(parts[i])] + [] == [KeyOf(parts[i])] && [root] + [KeyOf(parts[i])] == [root, parts[i].pair.0];
  }

  /** The value of a group is written if the group is and it is itself. */
  predicate InGroup(keep: set<seq<string>>, group: string, key: string) { [group] in keep && [group, key] in keep }

  lemma KeptInGroup(root: string, parts: seq<Part>, keep: set<seq<string>>, i: nat, j: nat)
    requires PartsOk(parts) && i < |parts| && parts[i].Group? && j < |parts[i].pairs|
    ensures var group, pair := parts[i].key, parts[i].pairs[j];
            Lookup(Document(root, KeptParts(parts, keep)), [root, group, pair.0]) ==
            if InGroup(keep, group, pair.0) then Some(pair.1) else None
  {
    var group, pair := parts[i].key, parts[i].pairs[j];
    assert PartOk(parts[i]);
    KeptLeaf(group, parts[i].pairs, keep, j);
    hide PartsOk, PairsOk, KeptParts, KeptPairs, Document;
    KeptChild(parts, keep, i, [pair.0]);
    UnderRoot(root, KeptParts(parts, keep), [group, pair.0]);
    assert [group] + [pair.0] == [group, pair.0] && [root] + [group, pair.0] == [root, group, pair.0];
  }

  lemma PartialSpells(root: string, parts: seq<Part>, keep: set<seq<string>>, spaced: bool)
    requires PlainKey(root) && PartsOk(parts)
    ensures Spells(Printed(root, KeptParts(parts, keep), spaced), Document(root, KeptParts(parts, keep)))
  {
    KeptPartsOk(parts, keep);
    PlainKeyOk(root);
    hide PartsOk, KeptParts, Spells, Document, Printed, PlainKey;
    PrintedSpells(root, KeptParts(parts, keep), spaced);
  }

  // ---------------------------------------------------------------- what is printed means what was printed

  lemma PrintedText(kept: bool, s: string, d: string)
    ensures TextMeans(if kept then Some(Quote(s)) else None, if kept then s else d, d)
  {
  }

  lemma PrintedSmallText(kept: bool, s: string, d: string)
    requires LowerText(s) == s && LowerText(d) == d
    ensures SmallTextMeans(if kept then Some(Quote(s)) else None, if kept then s else d, d)
  {
    var t := if kept then s else d;
    PrintedText(kept, s, d);
    LoweredIsLower(t, t);
    hide TextMeans, Lowered, LowerText, Quote;
  }

  lemma PrintedInt(kept: bool, n: int32, d: int32)
    ensures IntMeans(if kept then Some(IntText(n)) else None, if kept then n else d, d)
  {
    if kept {
      IntTextPlain(n);
      StoiReadsBack(n);
      StoiIsNumber(IntText(n), n);
      SaysUnquoted(IntText(n), IntText(n));
      hide IntText, Stoi, IsNumber, Says, Unquote;
    }
  }

  lemma PrintedPort(kept: bool, port: u16, d: u16)
    requires port != 0 && d != 0
    ensures PortMeans(if kept then Some(IntText(port)) else None, if kept then port else d, d)
  {
    PrintedInt(kept, port, d);
    hide IntMeans, IntText;
    assert IntMeans(if kept then Some(IntText(port)) else None, if kept then port else d, d);
  }

  lemma PrintedFlag(kept: bool, b: bool, d: bool)
    ensures FlagMeans(if kept then Some(BoolText(b)) else None, if kept then b else d, d)
  {
    assert Says(BoolText(b), BoolText(b)) && SaysYes("true") && SaysNo("false") && !SaysYes("false");
    assert FlagOf(BoolText(b), b, d);
  }

  // ---------------------------------------------------------------- loading a partial file

  /** The printed value where it is kept, the default where it is left out. */
  function Pick<T>(kept: bool, printed: T, fallback: T): T { if kept then printed else fallback }

  function KeptLocal(c: LocalConfig, keep: set<seq<string>>): LocalConfig {
    LocalConfig(
      Pick(InGroup(keep, "local", "device_id"), c.deviceId, "34020000001320000001"),
      Pick(InGroup(keep, "local", "domain"), c.domain, "3402000000"),
      Pick(InGroup(keep, "local", "ip"), c.ip, "0.0.0.0"),
      Pick(InGroup(keep, "local", "port"), c.port, 5060),
      Pick(InGroup(keep, "local", "password"), c.password, "12345678"),
      Pick(InGroup(keep, "local", "manufacturer"), c.manufacturer, "TriFusion"),
      Pick(InGroup(keep, "local", "model"), c.model, "TriFusion-Camera"),
      Pick(InGroup(keep, "local", "firmware"), c.firmware, "1.0.0"))
  }

  function KeptChannel(c: ChannelConfig, keep: set<seq<string>>): ChannelConfig {
    ChannelConfig(
      Pick(InGroup(keep, "channel", "id"), c.id, "34020000001320000001"),
      Pick(InGroup(keep, "channel", "name"), c.name, "Tri-Fusion MainStream"))
  }

  function KeptServer(c: ServerConfig, keep: set<seq<string>>): ServerConfig {
    ServerConfig(
      Pick(InGroup(keep, "server", "id"), c.id, "41010500002000000001"),
      Pick(InGroup(keep, "server", "domain"), c.domain, "4101050000"),
      Pick(InGroup(keep, "server", "ip"), c.ip, "192.168.1.153"),
      Pick(InGroup(keep, "server", "port"), c.port, 8118),
      Pick(InGroup(keep, "server", "password"), c.password, "12345678"))
  }

  function KeptRegister(c: RegisterConfig, keep: set<seq<string>>): RegisterConfig {
    RegisterConfig(
      Pick(InGroup(keep, "register", "expires_sec"), c.expiresSec, 3600),
      Pick(InGroup(keep, "register", "retry_interval_sec"), c.retryIntervalSec, 5))
  }

  function KeptKeepalive(c: KeepaliveConfig, keep: set<seq<string>>): KeepaliveConfig {
    KeepaliveConfig(
      Pick(InGroup(keep, "keepalive", "interval_sec"), c.intervalSec, 60),
      Pick(InGroup(keep, "keepalive", "timeout_sec"), c.timeoutSec, 3))
  }

  function KeptMedia(c: MediaConfig, keep: set<seq<string>>): MediaConfig {
    MediaConfig(
      Pick(InGroup(keep, "media", "rtp_local_port"), c.rtpLocalPort, 30000),
      Pick(InGroup(keep, "media", "ssrc"), c.ssrc, "0000000001"),
      Pick(InGroup(keep, "media", "transport"), c.transport, "udp"))
  }

  function KeptGb28181(c: Gb28181Config, keep: set<seq<string>>): Gb28181Config {
    Gb28181Config(Pick(["enable"] in keep, c.enable, true), KeptLocal(c.local, keep), KeptChannel(c.channel, keep),
                  KeptServer(c.server, keep), KeptRegister(c.reg, keep), KeptKeepalive(c.keepalive, keep),
                  KeptMedia(c.media, keep))
  }

  function KeptOnvif(c: OnvifConfig, keep: set<seq<string>>): OnvifConfig {
    OnvifConfig(
      Pick(["enable"] in keep, c.enable, true),
      Pick(InGroup(keep, "listen", "ip"), c.listenIp, "0.0.0.0"),
      Pick(InGroup(keep, "listen", "port"), c.listenPort, 8080),
      Pick(InGroup(keep, "auth", "enable"), c.authEnable, false),
      Pick(InGroup(keep, "auth", "username"), c.username, "admin"),
      Pick(InGroup(keep, "auth", "password"), c.password, "admin"),
      Pick(InGroup(keep, "rtsp", "advertise_ip"), c.rtspAdvertiseIp, "0.0.0.0"),
      Pick(InGroup(keep, "rtsp", "port"), c.rtspPort, 8554),
      Pick(InGroup(keep, "rtsp", "path"), c.rtspPath, "/live/main"))
  }

  function KeptPrivateApi(c: PrivateApiConfig, keep: set<seq<string>>): PrivateApiConfig {
    PrivateApiConfig(
      Pick(["enable"] in keep, c.enable, true),
      Pick(InGroup(keep, "listen", "ip"), c.listenIp, "0.0.0.0"),
      Pick(InGroup(keep, "listen", "port"), c.listenPort, 18080),
      Pick(InGroup(keep, "auth", "enable"), c.authEnable, false),
      Pick(InGroup(keep, "auth", "username"), c.username, "admin"),
      Pick(InGroup(keep, "auth", "password"), c.password, "admin"))
  }

  function KeptRtsp(c: RtspConfig, keep: set<seq<string>>): RtspConfig {
    RtspConfig(
      Pick(["enable"] in keep, c.enable, true),
      Pick(["bind_ip"] in keep, c.bindIp, "0.0.0.0"),
      Pick(["advertise_ip"] in keep, c.advertiseIp, "0.0.0.0"),
      Pick(["port"] in keep, c.port, 8554),
      Pick(["path"] in keep, c.path, "/live/main"),
      Pick(InGroup(keep, "auth", "enable"), c.authEnable, false),
      Pick(InGroup(keep, "auth", "username"), c.username, "admin"),
      Pick(InGroup(keep, "auth", "password"), c.password, "admin"))
  }

  lemma LocalKept(c: Gb28181Config, keep: set<seq<string>>)
    requires Gb28181Representable(c) && PartsOk(Gb28181Parts(c))
    ensures LocalMeans(Document("gb28181", KeptParts(Gb28181Parts(c), keep)), KeptLocal(c.local, keep))
  {
    hide TextMeans, SmallTextMeans, IntMeans, PortMeans, FlagMeans, Lookup, Document, KeptParts, Printed, Quote,
      IntText, BoolText, InGroup, Clean, LowerText, PartsOk;
    var parts := Gb28181Parts(c);
    assert parts[1] == Group("local", LocalPairs(c.local));
    KeptInGroup("gb28181", parts, keep, 1, 0);
    PrintedText(InGroup(keep, "local", "device_id"), c.local.deviceId, "34020000001320000001");
    KeptInGroup("gb28181", parts, keep, 1, 1);
    PrintedText(InGroup(keep, "local", "domain"), c.local.domain, "3402000000");
    KeptInGroup("gb28181", parts, keep, 1, 2);
    PrintedText(InGroup(keep, "local", "ip"), c.local.ip, "0.0.0.0");
    KeptInGroup("gb28181", parts, keep, 1, 3);
    PrintedPort(InGroup(keep, "local", "port"), c.local.port, 5060);
    KeptInGroup("gb28181", parts, keep, 1, 4);
    PrintedText(InGroup(keep, "local", "password"), c.local.password, "12345678");
    KeptInGroup("gb28181", parts, keep, 1, 5);
    PrintedText(InGroup(keep, "local", "manufacturer"), c.local.manufacturer, "TriFusion");
    KeptInGroup("gb28181", parts, keep, 1, 6);
    PrintedText(InGroup(keep, "local", "model"), c.local.model, "TriFusion-Camera");
    KeptInGroup("gb28181", parts, keep, 1, 7);
    PrintedText(InGroup(keep, "local", "firmware"), c.local.firmware, "1.0.0");
  }

  lemma ChannelKept(c: Gb28181Config, keep: set<seq<string>>)
    requires Gb28181Representable(c) && PartsOk(Gb28181Parts(c))
    ensures ChannelMeans(Document("gb28181", KeptParts(Gb28181Parts(c), keep)), KeptChannel(c.channel, keep))
  {
    hide TextMeans, SmallTextMeans, IntMeans, PortMeans, FlagMeans, Lookup, Document, KeptParts, Printed, Quote,
      IntText, BoolText, InGroup, Clean, LowerText, PartsOk;
    var parts := Gb28181Parts(c);
    assert parts[2] == Group("channel", ChannelPairs(c.channel));
    KeptInGroup("gb28181", parts, keep, 2, 0);
    PrintedText(InGroup(keep, "channel", "id"), c.channel.id, "34020000001320000001");
    KeptInGroup("gb28181", parts, keep, 2, 1);
    PrintedText(InGroup(keep, "channel", "name"), c.channel.name, "Tri-Fusion MainStream");
  }

  lemma ServerKept(c: Gb28181Config, keep: set<seq<string>>)
    requires Gb28181Representable(c) && PartsOk(Gb28181Parts(c))
    ensures ServerMeans(Document("gb28181", KeptParts(Gb28181Parts(c), keep)), KeptServer(c.server, keep))
  {
    hide TextMeans, SmallTextMeans, IntMeans, PortMeans, FlagMeans, Lookup, Document, KeptParts, Printed, Quote,
      IntText, BoolText, InGroup, Clean, LowerText, PartsOk;
    var parts := Gb28181Parts(c);
    assert parts[3] == Group("server", ServerPairs(c.server));
    KeptInGroup("gb28181", parts, keep, 3, 0);
    PrintedText(InGroup(keep, "server", "id"), c.server.id, "41010500002000000001");
    KeptInGroup("gb28181", parts, keep, 3, 1);
    PrintedText(InGroup(keep, "server", "domain"), c.server.domain, "4101050000");
    KeptInGroup("gb28181", parts, keep, 3, 2);
    PrintedText(InGroup(keep, "server", "ip"), c.server.ip, "192.168.1.153");
    KeptInGroup("gb28181", parts, keep, 3, 3);
    PrintedPort(InGroup(keep, "server", "port"), c.server.port, 8118);
    KeptInGroup("gb28181", parts, keep, 3, 4);
    PrintedText(InGroup(keep, "server", "password"), c.server.password, "12345678");
  }

  lemma RegisterKept(c: Gb28181Config, keep: set<seq<string>>)
    requires Gb28181Representable(c) && PartsOk(Gb28181Parts(c))
    ensures RegisterMeans(Document("gb28181", KeptParts(Gb28181Parts(c), keep)), KeptRegister(c.reg, keep))
  {
    hide TextMeans, SmallTextMeans, IntMeans, PortMeans, FlagMeans, Lookup, Document, KeptParts, Printed, Quote,
      IntText, BoolText, InGroup, Clean, LowerText, PartsOk;
    var parts := Gb28181Parts(c);
    assert parts[4] == Group("register", RegisterPairs(c.reg));
    KeptInGroup("gb28181", parts, keep, 4, 0);
    PrintedInt(InGroup(keep, "register", "expires_sec"), c.reg.expiresSec, 3600);
    KeptInGroup("gb28181", parts, keep, 4, 1);
    PrintedInt(InGroup(keep, "register", "retry_interval_sec"), c.reg.retryIntervalSec, 5);
  }

  lemma KeepaliveKept(c: Gb28181Config, keep: set<seq<string>>)
    requires Gb28181Representable(c) && PartsOk(Gb28181Parts(c))
    ensures KeepaliveMeans(Document("gb28181", KeptParts(Gb28181Parts(c), keep)), KeptKeepalive(c.keepalive, keep))
  {
    hide TextMeans, SmallTextMeans, IntMeans, PortMeans, FlagMeans, Lookup, Document, KeptParts, Printed, Quote,
      IntText, BoolText, InGroup, Clean, LowerText, PartsOk;
    var parts := Gb28181Parts(c);
    assert parts[5] == Group("keepalive", KeepalivePairs(c.keepalive));
    KeptInGroup("gb28181", parts, keep, 5, 0);
    PrintedInt(InGroup(keep, "keepalive", "interval_sec"), c.keepalive.intervalSec, 60);
    KeptInGroup("gb28181", parts, keep, 5, 1);
    PrintedInt(InGroup(keep, "keepalive", "timeout_sec"), c.keepalive.timeoutSec, 3);
  }

  lemma MediaKept(c: Gb28181Config, keep: set<seq<string>>)
    requires Gb28181Representable(c) && PartsOk(Gb28181Parts(c))
    ensures MediaMeans(Document("gb28181", KeptParts(Gb28181Parts(c), keep)), KeptMedia(c.media, keep))
  {
    hide TextMeans, SmallTextMeans, IntMeans, PortMeans, FlagMeans, Lookup, Document, KeptParts, Printed, Quote,
      IntText, BoolText, InGroup, Clean, LowerText, PartsOk;
    var parts := Gb28181Parts(c);
    assert parts[6] == Group("media", MediaPairs(c.media));
    LowerOfLower("udp");
    KeptInGroup("gb28181", parts, keep, 6, 0);
    PrintedPort(InGroup(keep, "media", "rtp_local_port"), c.media.rtpLocalPort, 30000);
    KeptInGroup("gb28181", parts, keep, 6, 1);
    PrintedText(InGroup(keep, "media", "ssrc"), c.media.ssrc, "0000000001");
    KeptInGroup("gb28181", parts, keep, 6, 2);
    PrintedSmallText(InGroup(keep, "media", "transport"), c.media.transport, "udp");
  }

  lemma Gb28181Kept(c: Gb28181Config, keep: set<seq<string>>)
    requires Gb28181Representable(c)
    ensures PartsOk(Gb28181Parts(c))
    ensures Gb28181Means(Document("gb28181", KeptParts(Gb28181Parts(c), keep)), KeptGb28181(c, keep))
  {
    Gb28181PartsOk(c);
    var parts := Gb28181Parts(c);
    assert parts[0] == One(("enable", BoolText(c.enable)));
    hide PartsOk, FlagMeans, Lookup, Document, KeptParts, LocalMeans, ChannelMeans, ServerMeans, RegisterMeans,
      KeepaliveMeans, MediaMeans, KeptLocal, KeptChannel, KeptServer, KeptRegister, KeptKeepalive, KeptMedia,
      Gb28181Parts, BoolText;
    KeptOne("gb28181", parts, keep, 0);
    PrintedFlag(["enable"] in keep, c.enable, true);
    LocalKept(c, keep);
    ChannelKept(c, keep);
    ServerKept(c, keep);
    RegisterKept(c, keep);
    KeepaliveKept(c, keep);
    MediaKept(c, keep);
  }

  lemma OnvifKept(c: OnvifConfig, keep: set<seq<string>>)
    requires OnvifRepresentable(c)
    ensures PartsOk(OnvifParts(c))
    ensures OnvifMeans(Document("onvif", KeptParts(OnvifParts(c), keep)), KeptOnvif(c, keep))
  {
    hide TextMeans, SmallTextMeans, IntMeans, PortMeans, FlagMeans, Lookup, Document, KeptParts, Printed, Quote,
      IntText, BoolText, InGroup, Clean, LowerText, PartsOk;
    OnvifPartsOk(c);
    var parts := OnvifParts(c);
    KeptOne("onvif", parts, keep, 0);
    PrintedFlag(["enable"] in keep, c.enable, true);
    KeptInGroup("onvif", parts, keep, 1, 0);
    PrintedText(InGroup(keep, "listen", "ip"), c.listenIp, "0.0.0.0");
    KeptInGroup("onvif", parts, keep, 1, 1);
    PrintedPort(InGroup(keep, "listen", "port"), c.listenPort, 8080);
    KeptInGroup("onvif", parts, keep, 2, 0);
    PrintedFlag(InGroup(keep, "auth", "enable"), c.authEnable, false);
    KeptInGroup("onvif", parts, keep, 2, 1);
    PrintedText(InGroup(keep, "auth", "username"), c.username, "admin");
    KeptInGroup("onvif", parts, keep, 2, 2);
    PrintedText(InGroup(keep, "auth", "password"), c.password, "admin");
    KeptInGroup("onvif", parts, keep, 3, 0);
    PrintedText(InGroup(keep, "rtsp", "advertise_ip"), c.rtspAdvertiseIp, "0.0.0.0");
    KeptInGroup("onvif", parts, keep, 3, 1);
    PrintedPort(InGroup(keep, "rtsp", "port"), c.rtspPort, 8554);
    KeptInGroup("onvif", parts, keep, 3, 2);
    PrintedText(InGroup(keep, "rtsp", "path"), c.rtspPath, "/live/main");
  }

  lemma PrivateApiKept(c: PrivateApiConfig, keep: set<seq<string>>)
    requires PrivateApiRepresentable(c)
    ensures PartsOk(PrivateApiParts(c))
    ensures PrivateApiMeans(Document("private_api", KeptParts(PrivateApiParts(c), keep)), KeptPrivateApi(c, keep))
  {
    hide TextMeans, SmallTextMeans, IntMeans, PortMeans, FlagMeans, Lookup, Document, KeptParts, Printed, Quote,
      IntText, BoolText, InGroup, Clean, LowerText, PartsOk;
    PrivateApiPartsOk(c);
    var parts := PrivateApiParts(c);
    KeptOne("private_api", parts, keep, 0);
    PrintedFlag(["enable"] in keep, c.enable, true);
    KeptInGroup("private_api", parts, keep, 1, 0);
    PrintedText(InGroup(keep, "listen", "ip"), c.listenIp, "0.0.0.0");
    KeptInGroup("private_api", parts, keep, 1, 1);
    PrintedPort(InGroup(keep, "listen", "port"), c.listenPort, 18080);
    KeptInGroup("private_api", parts, keep, 2, 0);
    PrintedFlag(InGroup(keep, "auth", "enable"), c.authEnable, false);
    KeptInGroup("private_api", parts, keep, 2, 1);
    PrintedText(InGroup(keep, "auth", "username"), c.username, "admin");
    KeptInGroup("private_api", parts, keep, 2, 2);
    PrintedText(InGroup(keep, "auth", "password"), c.password, "admin");
  }

  lemma RtspKept(c: RtspConfig, keep: set<seq<string>>)
    requires RtspRepresentable(c)
    ensures PartsOk(RtspParts(c))
    ensures RtspMeans(Document("rtsp", KeptParts(RtspParts(c), keep)), KeptRtsp(c, keep))
  {
    hide TextMeans, SmallTextMeans, IntMeans, PortMeans, FlagMeans, Lookup, Document, KeptParts, Printed, Quote,
      IntText, BoolText, InGroup, Clean, LowerText, PartsOk;
    RtspPartsOk(c);
    var parts := RtspParts(c);
    KeptOne("rtsp", parts, keep, 0);
    PrintedFlag(["enable"] in keep, c.enable, true);
    KeptOne("rtsp", parts, keep, 1);
    PrintedText(["bind_ip"] in keep, c.bindIp, "0.0.0.0");
    KeptOne("rtsp", parts, keep, 2);
    PrintedText(["advertise_ip"] in keep, c.advertiseIp, "0.0.0.0");
    KeptOne("rtsp", parts, keep, 3);
    PrintedPort(["port"] in keep, c.port, 8554);
    KeptOne("rtsp", parts, keep, 4);
    PrintedText(["path"] in keep, c.path, "/live/main");
    KeptInGroup("rtsp", parts, keep, 5, 0);
    PrintedFlag(InGroup(keep, "auth", "enable"), c.authEnable, false);
    KeptInGroup("rtsp", parts, keep, 5, 1);
    PrintedText(InGroup(keep, "auth", "username"), c.username, "admin");
    KeptInGroup("rtsp", parts, keep, 5, 2);
    PrintedText(InGroup(keep, "auth", "password"), c.password, "admin");
  }

  /** A file of any part of the settings gives those settings and the defaults of all others, if that is accepted. */
  lemma Gb28181Partial(c: Gb28181Config, keep: set<seq<string>>, spaced: bool)
    requires Gb28181Representable(c)
    ensures var text, kept := Printed("gb28181", KeptParts(Gb28181Parts(c), keep), spaced), KeptGb28181(c, keep);
            LoadedGb28181(Some(text)) == if Gb28181Accepted(kept) then Ok(kept) else Err(ConfigError)
  {
    hide KeptParts, Printed, Document, Spells, PartsOk, PlainKey, Gb28181Parts, KeptGb28181, Gb28181Means,
      LoadedGb28181, Gb28181Accepted, Gb28181Representable;
    KeysPlain();
    Gb28181Kept(c, keep);
    PartialSpells("gb28181", Gb28181Parts(c), keep, spaced);
    Gb28181Loaded(Printed("gb28181", KeptParts(Gb28181Parts(c), keep), spaced),
                  Document("gb28181", KeptParts(Gb28181Parts(c), keep)), KeptGb28181(c, keep));
  }

  lemma OnvifPartial(c: OnvifConfig, keep: set<seq<string>>, spaced: bool)
    requires OnvifRepresentable(c)
    ensures var text, kept := Printed("onvif", KeptParts(OnvifParts(c), keep), spaced), KeptOnvif(c, keep);
            LoadedOnvif(Some(text)) == if OnvifAccepted(kept) then Ok(kept) else Err(ConfigError)
  {
    hide KeptParts, Printed, Document, Spells, PartsOk, PlainKey, OnvifParts, KeptOnvif, OnvifMeans,
      LoadedOnvif, OnvifAccepted, OnvifRepresentable;
    KeysPlain();
    OnvifKept(c, keep);
    PartialSpells("onvif", OnvifParts(c), keep, spaced);
    OnvifLoaded(Printed("onvif", KeptParts(OnvifParts(c), keep), spaced),
                Document("onvif", KeptParts(OnvifParts(c), keep)), KeptOnvif(c, keep));
  }

  lemma PrivateApiPartial(c: PrivateApiConfig, keep: set<seq<string>>, spaced: bool)
    requires PrivateApiRepresentable(c)
    ensures var text := Printed("private_api", KeptParts(PrivateApiParts(c), keep), spaced);
            var kept := KeptPrivateApi(c, keep);
            LoadedPrivateApi(Some(text)) == if PrivateApiAccepted(kept) then Ok(kept) else Err(ConfigError)
  {
    hide KeptParts, Printed, Document, Spells, PartsOk, PlainKey, PrivateApiParts, KeptPrivateApi, PrivateApiMeans,
      LoadedPrivateApi, PrivateApiAccepted, PrivateApiRepresentable;
    KeysPlain();
    PrivateApiKept(c, keep);
    PartialSpells("private_api", PrivateApiParts(c), keep, spaced);
    PrivateApiLoaded(Printed("private_api", KeptParts(PrivateApiParts(c), keep), spaced),
                     Document("private_api", KeptParts(PrivateApiParts(c), keep)), KeptPrivateApi(c, keep));
  }

  lemma RtspPartial(c: RtspConfig, keep: set<seq<string>>, spaced: bool)
    requires RtspRepresentable(c)
    ensures var text, kept := Printed("rtsp", KeptParts(RtspParts(c), keep), spaced), KeptRtsp(c, keep);
            LoadedRtsp(Some(text)) == if RtspAccepted(kept) then Ok(kept) else Err(ConfigError)
  {
    hide KeptParts, Printed, Document, Spells, PartsOk, PlainKey, RtspParts, KeptRtsp, RtspMeans,
      LoadedRtsp, RtspAccepted, RtspRepresentable;
    KeysPlain();
    RtspKept(c, keep);
    PartialSpells("rtsp", RtspParts(c), keep, spaced);
    RtspLoaded(Printed("rtsp", KeptParts(RtspParts(c), keep), spaced),
               Document("rtsp", KeptParts(RtspParts(c), keep)), KeptRtsp(c, keep));
  }
}
