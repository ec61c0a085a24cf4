/** check_json.go: reading a check from a JSON document with go-simplejson,
    the per-type configurators, and writing a check back through the
    `jsonCheck` record with encoding/json. */
module CheckJson {
  import opened Wrappers
  import opened Strings
  import opened Json
  import Durations
  import opened PollerCheck

  const CheckTypeHTTP: string := "http"
  const CheckTypeUDP: string := "udp"

  // ---- configurators ----

  /** The header map of an HTTP check: every value has to be a string. */
  function Headers(m: map<string, Json>): (r: Result<map<string, string>>)
    ensures r.Ok? <==> forall k :: k in m ==> m[k].JString?
    ensures r.Ok? ==> r.value.Keys == m.Keys && forall k :: k in m ==> m[k] == JString(r.value[k])
    ensures r.Err? ==> r.msg == "Headers can only accept string."
  {
    if forall k :: k in m ==> m[k].JString? then Ok(map k | k in m :: m[k].str)
    else Err("Headers can only accept string.")
  }

  /** A header map as the check's configuration holds it. */
  function HeadersJson(h: map<string, string>): Json
  {
    ObjectOf(map k | k in h :: JString(h[k]))
  }

  /** The configuration an HTTP check with this URL and these headers holds. */
  function HttpConfigOf(url: string, headers: map<string, string>): map<string, Json>
  {
    map["url" := JString(url), "headers" := HeadersJson(headers)]
  }

  function UdpConfigOf(host: string, port: int, send: string, receive: string): map<string, Json>
  {
    map["host" := JString(host), "port" := JNumber(port), "send" := JString(send), "receive" := JString(receive)]
  }

  /** readHTTPConfig: `config.url` must be a string; `config.headers` is read
      with MustMap, so a missing or non-object value gives no headers, and any
      header value that is not a string is refused. */
  function HttpConfig(js: Option<Json>): (r: Result<map<string, Json>>)
    ensures r.Ok? <==> (AsString(Get(Get(js, "config"), "url")).Ok?
                        && Headers(MustMap(Get(Get(js, "config"), "headers"))).Ok?)
  {
    var config := Get(js, "config");
    var url :- AsString(Get(config, "url"));
    var headers :- Headers(MustMap(Get(config, "headers")));
    Ok(HttpConfigOf(url, headers))
  }

  /** readUDPConfig: string `host`, integer `port`, string `send` and string
      `receive`, refused at the first one missing or of another type. */
  function UdpConfig(js: Option<Json>): (r: Result<map<string, Json>>)
    ensures AsString(Get(Get(js, "config"), "host")).Err? ==> r.Err?
    ensures AsInt(Get(Get(js, "config"), "port")).Err? ==> r.Err?
    ensures AsString(Get(Get(js, "config"), "send")).Err? ==> r.Err?
    ensures AsString(Get(Get(js, "config"), "receive")).Err? ==> r.Err?
    ensures r.Ok? ==> (r.value.Keys == {"host", "port", "send", "receive"}
                       && r.value["port"].JNumber? && r.value["host"].JString?
                       && r.value["send"].JString? && r.value["receive"].JString?)
  {
    var config := Get(js, "config");
    var host :- AsString(Get(config, "host"));
    var port :- AsInt(Get(config, "port"));
    var send :- AsString(Get(config, "send"));
    var receive :- AsString(Get(config, "receive"));
    Ok(UdpConfigOf(host, port, send, receive))
  }

  /** The configurator registered for a check type; only UDP and HTTP are. */
  function Configure(checkType: string, js: Option<Json>): (r: Result<map<string, Json>>)
    ensures checkType != CheckTypeHTTP && checkType != CheckTypeUDP ==> r == Err("Unknown check type " + checkType)
  {
    if checkType == CheckTypeUDP then UdpConfig(js)
    else if checkType == CheckTypeHTTP then HttpConfig(js)
    else Err("Unknown check type " + checkType)
  }

  // ---- NewCheckFromJSON ----

  /** What NewCheckFromJSON makes of a document: the six fields in the order
      the code reads them, then the two durations, then the configurator. */
  function Decode(j: Json): (r: Result<Settings>)
    ensures r.Ok? ==> r.value.checkType == CheckTypeHTTP || r.value.checkType == CheckTypeUDP
  {
    var js := Some(j);
    var checkType :- AsString(Get(js, "type"));
    var key :- AsString(Get(js, "key"));
    var alert :- AsBool(Get(js, "alert"));
    var notifyFix :- AsBool(Get(js, "notifyFix"));
    var alertDelay :- AsString(Get(js, "alertDelay"));
    var interval :- AsString(Get(js, "interval"));
    var delay :- Durations.Parse(alertDelay);
    var every :- Durations.Parse(interval);
    var config :- Configure(checkType, js);
    Ok(Settings(checkType, key, every, alert, delay, notifyFix, config))
  }

  /** A document is accepted exactly when its six fields are present with the
      right JSON types, both durations parse and the type's configurator
      accepts it; the check then carries those values. */
  lemma {:induction false} DecodeAccepts(j: Json)
    ensures Decode(j).Ok? <==>
      && AsString(Get(Some(j), "type")).Ok? && AsString(Get(Some(j), "key")).Ok?
      && AsBool(Get(Some(j), "alert")).Ok? && AsBool(Get(Some(j), "notifyFix")).Ok?
      && AsString(Get(Some(j), "alertDelay")).Ok? && AsString(Get(Some(j), "interval")).Ok?
      && Durations.Parse(Get(Some(j), "alertDelay").value.str).Ok?
      && Durations.Parse(Get(Some(j), "interval").value.str).Ok?
      && Configure(Get(Some(j), "type").value.str, Some(j)).Ok?
    ensures Decode(j).Ok? ==>
      var s := Decode(j).value;
      && Get(Some(j), "type") == Some(JString(s.checkType))
      && Get(Some(j), "key") == Some(JString(s.key))
      && Get(Some(j), "alert") == Some(JBool(s.alert))
      && Get(Some(j), "notifyFix") == Some(JBool(s.notifyFix))
      && Durations.Parse(Get(Some(j), "interval").value.str) == Ok(s.interval)
      && Durations.Parse(Get(Some(j), "alertDelay").value.str) == Ok(s.alertDelay)
      && Configure(s.checkType, Some(j)) == Ok(s.config)
  {
  }

  /** The header loop of readHTTPConfig: one member at a time, stopping at
      the first value that is not a string. */
  method ReadHeaders(m: map<string, Json>) returns (r: Result<map<string, string>>)
    ensures r == Headers(m)
  {
    var headers: map<string, string> := map[];
    var todo := m.Keys;
    while todo != {}
      invariant todo <= m.Keys
      invariant headers.Keys == m.Keys - todo
      invariant forall k :: k in headers ==> m[k] == JString(headers[k])
      decreases |todo|
    {
      var k :| k in todo;
      if !m[k].JString? {
        return Err("Headers can only accept string.");
      }
      headers := headers[k := m[k].str];
      todo := todo - {k};
    }
    assert headers == map k | k in m :: m[k].str;
    return Ok(headers);
  }

  method ReadHTTPConfig(js: Option<Json>) returns (r: Result<map<string, Json>>)
    ensures r == HttpConfig(js)
  {
    var config := Get(js, "config");
    var url := AsString(Get(config, "url"));
    if url.Err? {
      return Err(url.msg);
    }
    var headers := ReadHeaders(MustMap(Get(config, "headers")));
    if headers.Err? {
      return Err(headers.msg);
    }
    return Ok(HttpConfigOf(url.value, headers.value));
  }

  method ReadUDPConfig(js: Option<Json>) returns (r: Result<map<string, Json>>)
    ensures r == UdpConfig(js)
  {
    var config := Get(js, "config");
    var host := AsString(Get(config, "host"));
    if host.Err? {
      return Err(host.msg);
    }
    var port := AsInt(Get(config, "port"));
    if port.Err? {
      return Err(port.msg);
    }
    var send := AsString(Get(config, "send"));
    if send.Err? {
      return Err(send.msg);
    }
    var receive := AsString(Get(config, "receive"));
    if receive.Err? {
      return Err(receive.msg);
    }
    return Ok(UdpConfigOf(host.value, port.value, send.value, receive.value));
  }

  /** NewCheckFromJSON: a new, never polled check, or the first error met. */
  method NewCheckFromJSON(j: Json) returns (r: Result<Check>)
    ensures r.Ok? <==> Decode(j).Ok?
    ensures r.Err? ==> r.msg == Decode(j).msg
    ensures r.Ok? ==> fresh(r.value) && r.value.Spec() == Decode(j).value
                      && r.value.State() == Runtime(0, 0, 0, 0, false)
  {
    var js := Some(j);
    var checkType := AsString(Get(js, "type"));
    if checkType.Err? {
      return Err(checkType.msg);
    }
    var key := AsString(Get(js, "key"));
    if key.Err? {
      return Err(key.msg);
    }
    var alert := AsBool(Get(js, "alert"));
    if alert.Err? {
      return Err(alert.msg);
    }
    var notifyFix := AsBool(Get(js, "notifyFix"));
    if notifyFix.Err? {
      return Err(notifyFix.msg);
    }
    var alertDelay := AsString(Get(js, "alertDelay"));
    if alertDelay.Err? {
      return Err(alertDelay.msg);
    }
    var interval := AsString(Get(js, "interval"));
    if interval.Err? {
      return Err(interval.msg);
    }
    var delay := Durations.Parse(alertDelay.value);
    if delay.Err? {
      return Err(delay.msg);
    }
    var every := Durations.Parse(interval.value);
    if every.Err? {
      return Err(every.msg);
    }
    var config: Result<map<string, Json>>;
    if checkType.value == CheckTypeUDP {
      config := ReadUDPConfig(js);
    } else if checkType.value == CheckTypeHTTP {
      config := ReadHTTPConfig(js);
    } else {
      return Err("Unknown check type " + checkType.value);
    }
    if config.Err? {
      return Err(config.msg);
    }
    var check := new Check(Settings(checkType.value, key.value, every.value, alert.value,
                                     delay.value, notifyFix.value, config.value));
    return Ok(check);
  }

  // ---- json() / JSON() ----

  /** The `jsonCheck` record; encoding/json writes its fields in this order
      under the names "type", "key", "interval", "alert", "alertDelay",
      "notifyFix" and "config". */
  datatype JsonCheck = JsonCheck(
    Type: string,
    Key: string,
    Interval: string,
    Alert: bool,
    AlertDelay: string,
    NotifyFix: bool,
    Config: map<string, Json>)

  /** `Check.json()`: the type, key and flags are copied, the durations are
      written the way Go prints them and the configuration is kept as it is. */
  function ToJsonCheck(s: Settings): (jc: JsonCheck)
  {
    JsonCheck(s.checkType, s.key, Durations.Format(s.interval), s.alert,
              Durations.Format(s.alertDelay), s.notifyFix, s.config)
  }

  /** The durations json() writes read back to the same number of seconds. */
  lemma {:induction false} ToJsonCheckDurations(s: Settings)
    ensures Durations.Parse(ToJsonCheck(s).Interval) == Ok(s.interval)
    ensures Durations.Parse(ToJsonCheck(s).AlertDelay) == Ok(s.alertDelay)
  {
    Durations.FormatParseRoundTrip(s.interval);
    Durations.FormatParseRoundTrip(s.alertDelay);
  }

  /** json.Marshal of a `jsonCheck`. */
  function Marshal(jc: JsonCheck): Json
  {
    JObject([
      ("type", JString(jc.Type)),
      ("key", JString(jc.Key)),
      ("interval", JString(jc.Interval)),
      ("alert", JBool(jc.Alert)),
      ("alertDelay", JString(jc.AlertDelay)),
      ("notifyFix", JBool(jc.NotifyFix)),
      ("config", ObjectOf(jc.Config))])
  }

  /** `Check.JSON()`. */
  function Encode(s: Settings): Json
  {
    Marshal(ToJsonCheck(s))
  }

  /** The members of a written `jsonCheck`, as go-simplejson reads them. */
  lemma {:induction false} MarshalMembers(jc: JsonCheck)
    ensures Get(Some(Marshal(jc)), "type") == Some(JString(jc.Type))
    ensures Get(Some(Marshal(jc)), "key") == Some(JString(jc.Key))
    ensures Get(Some(Marshal(jc)), "interval") == Some(JString(jc.Interval))
    ensures Get(Some(Marshal(jc)), "alert") == Some(JBool(jc.Alert))
    ensures Get(Some(Marshal(jc)), "alertDelay") == Some(JString(jc.AlertDelay))
    ensures Get(Some(Marshal(jc)), "notifyFix") == Some(JBool(jc.NotifyFix))
    ensures Get(Some(Marshal(jc)), "config") == Some(ObjectOf(jc.Config))
  {
    var fields := Marshal(jc).fields;
    assert DistinctNames(fields);
    LookupDistinct(fields, 0);
    LookupDistinct(fields, 1);
    LookupDistinct(fields, 2);
    LookupDistinct(fields, 3);
    LookupDistinct(fields, 4);
    LookupDistinct(fields, 5);
    LookupDistinct(fields, 6);
  }

  /** A member of a written configuration, as go-simplejson reads it. */
  lemma {:induction false} ConfigMember(js: Option<Json>, config: map<string, Json>, k: string)
    requires Get(js, "config") == Some(ObjectOf(config))
    requires k in config && config[k] != JNull
    ensures Get(Get(js, "config"), k) == Some(config[k])
  {
    LookupObjectOf(config, k);
  }

  /** Everything but the configuration survives JSON() and NewCheckFromJSON,
      so the round trip holds whenever the configurator gives the
      configuration back. */
  lemma {:induction false} DecodeEncode(s: Settings)
    requires Configure(s.checkType, Some(Encode(s))) == Ok(s.config)
    ensures Decode(Encode(s)) == Ok(s)
  {
    var jc := ToJsonCheck(s);
    MarshalMembers(jc);
    ToJsonCheckDurations(s);
    DecodeFields(Encode(s), s, jc.Interval, jc.AlertDelay);
  }

  /** A document whose members hold the values of `s`, with durations that
      parse to its interval and alert delay, is read as `s`. */
  lemma {:induction false} DecodeFields(j: Json, s: Settings, interval: string, alertDelay: string)
    requires Get(Some(j), "type") == Some(JString(s.checkType)) && Get(Some(j), "key") == Some(JString(s.key))
    requires Get(Some(j), "alert") == Some(JBool(s.alert)) && Get(Some(j), "notifyFix") == Some(JBool(s.notifyFix))
    requires Get(Some(j), "interval") == Some(JString(interval)) && Durations.Parse(interval) == Ok(s.interval)
    requires Get(Some(j), "alertDelay") == Some(JString(alertDelay)) && Durations.Parse(alertDelay) == Ok(s.alertDelay)
    requires Configure(s.checkType, Some(j)) == Ok(s.config)
    ensures Decode(j) == Ok(s)
  {
  }

  /** The header loop gives back the headers JSON() wrote. */
  lemma {:induction false} HeadersRoundTrip(headers: map<string, string>)
    ensures Headers(map k | k in headers :: JString(headers[k])) == Ok(headers)
  {
    var hm := map k | k in headers :: JString(headers[k]);
    var r := Headers(hm);
    assert r.Ok? && r.value.Keys == headers.Keys;
    forall k | k in headers ensures r.value[k] == headers[k] {
      assert hm[k] == JString(r.value[k]);
    }
    assert r.value == headers;
  }

  /** MustMap on the written headers gives the header map as JSON values. */
  lemma {:induction false} HeadersMember(js: Option<Json>, url: string, headers: map<string, string>)
    requires Get(js, "config") == Some(ObjectOf(HttpConfigOf(url, headers)))
    ensures MustMap(Get(Get(js, "config"), "headers")) == map k | k in headers :: JString(headers[k])
  {
    assert "url" != "headers";
    ConfigMember(js, HttpConfigOf(url, headers), "headers");
    ToMapObjectOf(map k | k in headers :: JString(headers[k]));
  }

  /** readHTTPConfig reads back the configuration JSON() writes for an HTTP check. */
  lemma {:induction false} HttpConfigRoundTrip(js: Option<Json>, url: string, headers: map<string, string>)
    requires Get(js, "config") == Some(ObjectOf(HttpConfigOf(url, headers)))
    ensures HttpConfig(js) == Ok(HttpConfigOf(url, headers))
  {
    var config := HttpConfigOf(url, headers);
    assert "url" != "headers";
    ConfigMember(js, config, "url");
    HeadersMember(js, url, headers);
    HeadersRoundTrip(headers);
    HttpConfigFrom(js, url, headers);
  }

  /** A configuration whose `url` is that string and whose headers read as
      that map is read as the HTTP configuration of both. */
  lemma {:induction false} HttpConfigFrom(js: Option<Json>, url: string, headers: map<string, string>)
    requires Get(Get(js, "config"), "url") == Some(JString(url))
    requires Headers(MustMap(Get(Get(js, "config"), "headers"))) == Ok(headers)
    ensures HttpConfig(js) == Ok(HttpConfigOf(url, headers))
  {
  }

  /** The four entries of a UDP configuration. */
  lemma {:induction false} UdpConfigEntries(host: string, port: int, send: string, receive: string)
    ensures var c := UdpConfigOf(host, port, send, receive);
            && "host" in c && c["host"] == JString(host)
            && "port" in c && c["port"] == JNumber(port)
            && "send" in c && c["send"] == JString(send)
            && "receive" in c && c["receive"] == JString(receive)
  {
    assert "receive" != "send" && "receive" != "port" && "receive" != "host";
    assert "send" != "port" && "send" != "host";
    assert "port" != "host";
  }

  /** readUDPConfig reads back the configuration JSON() writes for a UDP check. */
  lemma {:induction false} UdpConfigRoundTrip(js: Option<Json>, host: string, port: int, send: string, receive: string)
    requires Get(js, "config") == Some(ObjectOf(UdpConfigOf(host, port, send, receive)))
    ensures UdpConfig(js) == Ok(UdpConfigOf(host, port, send, receive))
  {
    var config := UdpConfigOf(host, port, send, receive);
    UdpConfigEntries(host, port, send, receive);
    ConfigMember(js, config, "host");
    ConfigMember(js, config, "port");
    ConfigMember(js, config, "send");
    ConfigMember(js, config, "receive");
    UdpConfigFrom(js, host, port, send, receive);
  }

  /** A configuration whose four members hold those values is read as the
      UDP configuration of them. */
  lemma {:induction false} UdpConfigFrom(js: Option<Json>, host: string, port: int, send: string, receive: string)
    requires Get(Get(js, "config"), "host") == Some(JString(host)) && Get(Get(js, "config"), "port") == Some(JNumber(port))
    requires Get(Get(js, "config"), "send") == Some(JString(send)) && Get(Get(js, "config"), "receive") == Some(JString(receive))
    ensures UdpConfig(js) == Ok(UdpConfigOf(host, port, send, receive))
  {
  }

  /** An HTTP check written by JSON() is read back by NewCheckFromJSON as the same check. */
  lemma {:induction false} HttpRoundTrip(key: string, interval: Durations.Duration, alert: bool, alertDelay: Durations.Duration,
                                         notifyFix: bool, url: string, headers: map<string, string>)
    ensures var s := Settings(CheckTypeHTTP, key, interval, alert, alertDelay, notifyFix, HttpConfigOf(url, headers));
            Decode(Encode(s)) == Ok(s)
  {
    var s := Settings(CheckTypeHTTP, key, interval, alert, alertDelay, notifyFix, HttpConfigOf(url, headers));
    MarshalMembers(ToJsonCheck(s));
    HttpConfigRoundTrip(Some(Encode(s)), url, headers);
    DecodeEncode(s);
  }

  /** A UDP check written by JSON() is read back by NewCheckFromJSON as the same check. */
  lemma {:induction false} UdpRoundTrip(key: string, interval: Durations.Duration, alert: bool, alertDelay: Durations.Duration,
                                        notifyFix: bool, host: string, port: int, send: string, receive: string)
    ensures var s := Settings(CheckTypeUDP, key, interval, alert, alertDelay, notifyFix, UdpConfigOf(host, port, send, receive));
            Decode(Encode(s)) == Ok(s)
  {
    var s := Settings(CheckTypeUDP, key, interval, alert, alertDelay, notifyFix, UdpConfigOf(host, port, send, receive));
    MarshalMembers(ToJsonCheck(s));
    UdpConfigRoundTrip(Some(Encode(s)), host, port, send, receive);
    DecodeEncode(s);
  }

  // ---- toCheck ----

  /** A record that turns alerting off and leaves the alert delay empty: the
      package tests build such checks with NewCheck and expect them to load. */
  predicate NoAlertDelay(jc: JsonCheck)
  {
    !jc.Alert && jc.AlertDelay == ""
  }

  /** `jsonCheck.toCheck`: the record's fields go to NewCheck, which parses
      the interval and then the alert delay; an empty delay with alerting off
      is no delay. NewCheck takes no type, so the check it builds has the
      empty one. */
  function ToSettings(jc: JsonCheck): (r: Result<Settings>)
    ensures r.Ok? <==> Durations.Parse(jc.Interval).Ok? && (NoAlertDelay(jc) || Durations.Parse(jc.AlertDelay).Ok?)
    ensures Durations.Parse(jc.Interval).Err? ==> r == Err(Durations.Parse(jc.Interval).msg)
    ensures Durations.Parse(jc.Interval).Ok? && !NoAlertDelay(jc) && Durations.Parse(jc.AlertDelay).Err? ==>
              r == Err(Durations.Parse(jc.AlertDelay).msg)
    ensures r.Ok? ==> r.value.key == jc.Key && r.value.checkType == "" && r.value.config == jc.Config
    ensures r.Ok? ==> Ok(r.value.interval) == Durations.Parse(jc.Interval)
    ensures r.Ok? && NoAlertDelay(jc) ==> r.value.alertDelay == 0
    ensures r.Ok? && !NoAlertDelay(jc) ==> Ok(r.value.alertDelay) == Durations.Parse(jc.AlertDelay)
    ensures r.Ok? ==> r.value.alert == jc.Alert && r.value.notifyFix == jc.NotifyFix
  {
    var interval :- Durations.Parse(jc.Interval);
    var delay :- if NoAlertDelay(jc) then Ok(0) else Durations.Parse(jc.AlertDelay);
    Ok(Settings("", jc.Key, interval, jc.Alert, delay, jc.NotifyFix, jc.Config))
  }

  /** The NewCheck cases of the package tests: a one-second check with
      alerting off and no alert delay is built, with no delay; one that alerts
      after "fadsfs" is refused. */
  lemma {:induction false} NewCheckCases(key: string, config: map<string, Json>)
    ensures var jc := JsonCheck("", key, "1s", false, "", false, config);
            ToSettings(jc) == Ok(Settings("", key, 1, false, 0, false, config))
    ensures ToSettings(JsonCheck("", key, "1s", true, "fadsfs", false, config)).Err?
  {
    Durations.SampleSecond();
  }

  /** json() followed by toCheck gives the same check, less its type. */
  lemma {:induction false} ToSettingsToJsonCheck(s: Settings)
    ensures ToSettings(ToJsonCheck(s)) == Ok(s.(checkType := ""))
  {
    ToJsonCheckDurations(s);
  }

  // ---- json.Unmarshal into a jsonCheck ----

  /** A bool field, read the same way: the last boolean among the values is
      the one kept, and it stays false when there is none. */
  function BoolField(vs: seq<Json>, name: string): (r: Result<bool>)
    ensures r.Ok? <==> forall i :: 0 <= i < |vs| ==> vs[i].JNull? || vs[i].JBool?
    ensures |vs| == 0 ==> r == Ok(false)
    ensures r.Ok? && (forall i :: 0 <= i < |vs| ==> vs[i].JNull?) ==> r.value == false
    ensures r.Ok? ==> forall i :: 0 <= i < |vs| && vs[i].JBool? && NullsAfter(vs, i) ==> r.value == vs[i].b
    decreases |vs|
  {
    if |vs| == 0 then Ok(false)
    else
      var b :- BoolField(vs[..|vs| - 1], name);
      var v := vs[|vs| - 1];
      if v.JNull? then Ok(b)
      else if v.JBool? then Ok(v.b)
      else Err("json: cannot unmarshal into Go struct field jsonCheck." + name + " of type bool")
  }

  /** What an object adds to the `config` map. */
  function ConfigMap(v: Json): map<string, Json>
  {
    if v.JObject? then ToMap(v.fields) else map[]
  }

  /** The `config` map: null resets it to a nil map, and an object adds its
      members to the map already there, later keys winning. */
  function ConfigField(vs: seq<Json>): (r: Result<map<string, Json>>)
    ensures r.Ok? <==> forall i :: 0 <= i < |vs| ==> vs[i].JNull? || vs[i].JObject?
    ensures |vs| == 0 ==> r == Ok(map[])
    ensures r.Ok? ==> MergedAfterNull(vs, ConfigMap, r.value)
    decreases |vs|
  {
    if |vs| == 0 then Ok(map[])
    else
      var m :- ConfigField(vs[..|vs| - 1]);
      var v := vs[|vs| - 1];
      if v.JNull? then
        MergedStep(vs, ConfigMap, m);
        Ok(map[])
      else if v.JObject? then
        MergedStep(vs, ConfigMap, m);
        Ok(m + ToMap(v.fields))
      else Err("json: cannot unmarshal into Go struct field jsonCheck.config of type map[string]interface {}")
  }

  /** json.Unmarshal of one element into a `jsonCheck`: members are matched to
      fields up to case, unknown members are ignored. */
  function Unmarshal(j: Json): (r: Result<JsonCheck>)
    ensures !j.JObject? ==> r.Err?
  {
    if !j.JObject? then Err("json: cannot unmarshal into Go value of type poller.jsonCheck")
    else
      var f := j.fields;
      var checkType :- StringField(Matching(f, "type"), "type");
      var key :- StringField(Matching(f, "key"), "key");
      var interval :- StringField(Matching(f, "interval"), "interval");
      var alert :- BoolField(Matching(f, "alert"), "alert");
      var alertDelay :- StringField(Matching(f, "alertDelay"), "alertDelay");
      var notifyFix :- BoolField(Matching(f, "notifyFix"), "notifyFix");
      var config :- ConfigField(Matching(f, "config"));
      Ok(JsonCheck(checkType, key, interval, alert, alertDelay, notifyFix, config))
  }

  /** The member names json.Marshal writes for a `jsonCheck`, in field order. */
  predicate WrittenNames(f: seq<(string, Json)>)
  {
    && |f| == 7 && f[0].0 == "type" && f[1].0 == "key" && f[2].0 == "interval" && f[3].0 == "alert"
    && f[4].0 == "alertDelay" && f[5].0 == "notifyFix" && f[6].0 == "config"
  }

  /** No two of those names have the same length, so each field receives
      exactly the member written for it. */
  lemma {:induction false} WrittenMatching(f: seq<(string, Json)>)
    requires WrittenNames(f)
    ensures Matching(f, "type") == [f[0].1] && Matching(f, "key") == [f[1].1]
    ensures Matching(f, "interval") == [f[2].1] && Matching(f, "alert") == [f[3].1]
    ensures Matching(f, "alertDelay") == [f[4].1] && Matching(f, "notifyFix") == [f[5].1]
    ensures Matching(f, "config") == [f[6].1]
  {
    MatchingOne(f, 0, "type");
    MatchingOne(f, 1, "key");
    MatchingOne(f, 2, "interval");
    MatchingOne(f, 3, "alert");
    MatchingOne(f, 4, "alertDelay");
    MatchingOne(f, 5, "notifyFix");
    MatchingOne(f, 6, "config");
  }

  lemma {:induction false} BoolFieldOne(v: bool, name: string)
    ensures BoolField([JBool(v)], name) == Ok(v)
  {
    assert [JBool(v)][..0] == [];
  }

  /** One object is read into a fresh `config` map as the map it decodes to. */
  lemma {:induction false} ConfigFieldOne(v: Json)
    requires v.JObject?
    ensures ConfigField([v]) == Ok(ToMap(v.fields))
  {
    assert [v][..0] == [];
    assert map[] + ToMap(v.fields) == ToMap(v.fields);
  }

  /** json.Unmarshal reads back what json.Marshal wrote for a `jsonCheck`. */
  lemma {:induction false} UnmarshalMarshal(jc: JsonCheck)
    ensures Unmarshal(Marshal(jc)) == Ok(jc)
  {
    var f := Marshal(jc).fields;
    WrittenMatching(f);
    StringFieldOne(jc.Type, "type");
    StringFieldOne(jc.Key, "key");
    StringFieldOne(jc.Interval, "interval");
    BoolFieldOne(jc.Alert, "alert");
    StringFieldOne(jc.AlertDelay, "alertDelay");
    BoolFieldOne(jc.NotifyFix, "notifyFix");
    ConfigFieldOne(ObjectOf(jc.Config));
    ToMapObjectOf(jc.Config);
  }

  // ---- the sample check of the package tests ----

  const SampleUrl: string := "https://connect.sensiolabs.com/api/"
  const SampleAccept: string := "application/vnd.com.sensiolabs.connect+xml"

  /** The HTTP check the package tests read, as a document: the members are
      already in the order JSON() writes them. */
  const SampleDocument: Json := JObject([
    ("type", JString("http")),
    ("key", JString("connect_sensiolabs_com_api")),
    ("interval", JString("1m0s")),
    ("alert", JBool(true)),
    ("alertDelay", JString("1h0m0s")),
    ("notifyFix", JBool(true)),
    ("config", JObject([
      ("headers", JObject([("Accept", JString(SampleAccept))])),
      ("url", JString(SampleUrl))]))])

  const SampleSettings: Settings :=
    Settings(CheckTypeHTTP, "connect_sensiolabs_com_api", 60, true, 3600, true,
             HttpConfigOf(SampleUrl, map["Accept" := SampleAccept]))

  /** The sample's one header is written as a one-member object. */
  lemma {:induction false} SampleHeaders()
    ensures HeadersJson(map["Accept" := SampleAccept]) == JObject([("Accept", JString(SampleAccept))])
  {
    var h := map["Accept" := SampleAccept];
    assert (map k | k in h :: JString(h[k])) == map["Accept" := JString(SampleAccept)];
    ObjectOfOne("Accept", JString(SampleAccept));
  }

  /** The sample's configuration is written with "headers" before "url". */
  lemma {:induction false} SampleConfig()
    ensures ObjectOf(SampleSettings.config) == SampleDocument.fields[6].1
  {
    var hj := HeadersJson(map["Accept" := SampleAccept]);
    SampleHeaders();
    assert Below("headers", "url");
    assert SampleSettings.config == map["headers" := hj, "url" := JString(SampleUrl)];
    ObjectOfTwo("headers", hj, "url", JString(SampleUrl));
  }

  lemma {:induction false} SampleEncode()
    ensures Encode(SampleSettings) == SampleDocument
  {
    SampleConfig();
    Durations.SampleMinute();
    Durations.SampleHour();
  }

  /** The sample reads as a one-minute HTTP check alerting after an hour, and
      JSON() writes it back as the same document. */
  lemma {:induction false} SampleCheck()
    ensures Decode(SampleDocument) == Ok(SampleSettings)
    ensures Encode(SampleSettings) == SampleDocument
  {
    SampleEncode();
    HttpRoundTrip(SampleSettings.key, 60, true, 3600, true, SampleUrl, map["Accept" := SampleAccept]);
  }
}
