/**
 * Configuration loading (src/jopper/config.py): every setting is looked up
 * with the precedence environment variable > nested YAML key > default, the
 * comma-separated tag list is parsed, the three credentials are required and
 * the OpenWebUI URL loses its trailing slashes.
 */
module Config {
  import opened Wrappers
  import opened Text

  /** A YAML value as `yaml.safe_load` produces it. Scalars are kept as their
      text; a list is a list of scalars. */
  datatype Value =
    | VNone
    | VStr(s: string)
    | VList(items: seq<string>)
    | VDict(entries: map<string, Value>)

  /** Python truthiness of a value. */
  predicate Truthy(v: Value) {
    match v
    case VNone => false
    case VStr(s) => s != ""
    case VList(items) => items != []
    case VDict(entries) => entries != map[]
  }

  datatype JoplinConfig = JoplinConfig(token: string, host: string, port: int)

  datatype OpenWebUIConfig = OpenWebUIConfig(
    url: string,
    apiKey: string,
    knowledgeBaseName: string,
    collectionId: Option<string>)

  datatype SyncConfig = SyncConfig(mode: string, tags: seq<string>, intervalMinutes: int)

  datatype AppConfig = AppConfig(
    joplin: JoplinConfig,
    openwebui: OpenWebUIConfig,
    sync: SyncConfig,
    stateDbPath: string)

  /** The `ValueError`s of `load_config`; the type errors that `int()`,
      `str.rstrip` and `Path` raise on a list or mapping; and `NotText` for
      a list or mapping given for one of the other text settings, which
      the model types as strings. */
  datatype ConfigError =
    | MissingJoplinToken
    | MissingOpenWebUIUrl
    | MissingOpenWebUIApiKey
    | NotAnInteger(envKey: string)
    | NotText(envKey: string)

  /** `SyncConfig(...)` with `__post_init__`: an absent tag list becomes `[]`. */
  function MakeSyncConfig(mode: string, tags: Option<seq<string>>, intervalMinutes: int): (c: SyncConfig)
    ensures tags.None? ==> c.tags == []
    ensures tags.Some? ==> c.tags == tags.value
    ensures c.mode == mode && c.intervalMinutes == intervalMinutes
  {
    SyncConfig(mode, tags.GetOr([]), intervalMinutes)
  }

  // ---------------------------------------------------------------------
  // The precedence walk of get_config

  /** The value reached from `v` by following `keys` in order, or `None` when
      a key is missing or an intermediate value is not a mapping. */
  function Descend(v: Value, keys: seq<string>): Option<Value>
    decreases |keys|
  {
    if keys == [] then Some(v)
    else
      match Descend(v, keys[..|keys| - 1])
      case Some(VDict(m)) =>
        if keys[|keys| - 1] in m then Some(m[keys[|keys| - 1]]) else None
      case _ => None
  }

  /** Following a path is following its first key and then the rest: the
      walk is an ordinary nested lookup. */
  lemma {:induction false} DescendFirst(m: map<string, Value>, k: string, rest: seq<string>)
    ensures Descend(VDict(m), [k] + rest) == if k in m then Descend(m[k], rest) else None
    decreases |rest|
  {
    var keys := [k] + rest;
    if rest != [] {
      assert keys[..|keys| - 1] == [k] + rest[..|rest| - 1];
      DescendFirst(m, k, rest[..|rest| - 1]);
    } else {
      assert keys[..|keys| - 1] == [];
    }
  }

  /** Once the walk has broken off, it stays broken. */
  lemma {:induction false} DescendBroken(v: Value, keys: seq<string>, j: nat)
    requires j <= |keys| && Descend(v, keys[..j]) == None
    ensures Descend(v, keys) == None
    decreases |keys| - j
  {
    if j < |keys| {
      assert keys[..j + 1][..j] == keys[..j];
      DescendBroken(v, keys, j + 1);
    } else {
      assert keys[..j] == keys;
    }
  }

  /** The value `get_config` returns. */
  function Setting(env: map<string, string>, yaml: Value, envKey: string, yamlKeys: seq<string>, default: Value): Value {
    if envKey in env then VStr(env[envKey])
    else
      match Descend(yaml, yamlKeys)
      case None => default
      case Some(VNone) => default
      case Some(v) => v
  }

  /** `get_config(env_key, yaml_keys, default)`: a present environment
      variable wins, even when empty; otherwise the YAML keys are followed in
      order, and the default is returned when one is missing, an
      intermediate value is not a mapping or the final value is null. */
  method GetConfig(env: map<string, string>, yaml: Value, envKey: string, yamlKeys: seq<string>, default: Value)
    returns (r: Value)
    ensures envKey in env ==> r == VStr(env[envKey])
    ensures envKey !in env && Descend(yaml, yamlKeys) == None ==> r == default
    ensures envKey !in env && Descend(yaml, yamlKeys) == Some(VNone) ==> r == default
    ensures envKey !in env && Descend(yaml, yamlKeys).Some? && Descend(yaml, yamlKeys) != Some(VNone) ==>
              Descend(yaml, yamlKeys) == Some(r)
    ensures r == Setting(env, yaml, envKey, yamlKeys, default)
  {
    if envKey in env {
      return VStr(env[envKey]);
    }
    var current := yaml;
    var i := 0;
    while i < |yamlKeys|
      invariant 0 <= i <= |yamlKeys|
      invariant Descend(yaml, yamlKeys[..i]) == Some(current)
    {
      var key := yamlKeys[i];
      assert yamlKeys[..i + 1][..i] == yamlKeys[..i];
      if current.VDict? && key in current.entries {
        current := current.entries[key];
      } else {
        DescendBroken(yaml, yamlKeys, i + 1);
        return default;
      }
      i := i + 1;
    }
    assert yamlKeys[..i] == yamlKeys;
    r := if current == VNone then default else current;
  }

  // ---------------------------------------------------------------------
  // Tag parsing

  /** `[t.strip() for t in pieces if t.strip()]`. */
  function StripPieces(pieces: seq<string>): (r: seq<string>)
    ensures |r| <= |pieces|
    ensures forall i :: 0 <= i < |r| ==> r[i] != "" && !IsSpace(r[i][0]) && !IsSpace(r[i][|r[i]| - 1])
    decreases |pieces|
  {
    if pieces == [] then []
    else
      var rest := StripPieces(pieces[..|pieces| - 1]);
      var t := Strip(pieces[|pieces| - 1]);
      if t == "" then rest else rest + [t]
  }

  /** Every piece stripped, blank ones included. */
  function StripEach(pieces: seq<string>): (r: seq<string>)
    ensures |r| == |pieces|
  {
    Map(Strip, pieces)
  }

  /** Each entry of `StripEach` is its piece stripped. */
  lemma StripEachAt(pieces: seq<string>, i: nat)
    requires i < |pieces|
    ensures StripEach(pieces)[i] == Strip(pieces[i])
  {
    MapAt(Strip, pieces, i);
  }

  /** The kept pieces are a subsequence of the stripped pieces, and a string
      is kept iff it is a non-blank stripped piece. */
  lemma StripPiecesSelects(pieces: seq<string>)
    ensures IsSubsequence(StripPieces(pieces), StripEach(pieces))
    ensures forall t :: t in StripPieces(pieces) <==> t != "" && t in StripEach(pieces)
  {
    StripPiecesOrdered(pieces);
    StripPiecesMembers(pieces);
  }

  lemma {:induction false} StripPiecesOrdered(pieces: seq<string>)
    ensures IsSubsequence(StripPieces(pieces), StripEach(pieces))
    decreases |pieces|
  {
    if pieces != [] {
      var init := pieces[..|pieces| - 1];
      var last := Strip(pieces[|pieces| - 1]);
      var rest := StripPieces(init);
      var e := StripEach(pieces);
      StripPiecesOrdered(init);
      assert e == StripEach(init) + [last];
      assert e[..|e| - 1] == StripEach(init);
      if last != "" {
        assert (rest + [last])[..|rest|] == rest;
      }
    }
  }

  lemma {:induction false} StripPiecesMembers(pieces: seq<string>)
    ensures forall t :: t in StripPieces(pieces) <==> t != "" && t in StripEach(pieces)
    decreases |pieces|
  {
    if pieces != [] {
      var init := pieces[..|pieces| - 1];
      var last := Strip(pieces[|pieces| - 1]);
      StripPiecesMembers(init);
      assert StripEach(pieces) == StripEach(init) + [last];
      assert StripPieces(pieces) == if last == "" then StripPieces(init) else StripPieces(init) + [last];
    }
  }

  /** The tag list of `load_config`: a string is split on commas, each piece
      stripped and empty pieces dropped; a list is used unchanged; any other
      value gives no tags. */
  function ParseTags(v: Value): (tags: seq<string>)
    ensures v.VStr? ==> forall i :: 0 <= i < |tags| ==>
              tags[i] != "" && !IsSpace(tags[i][0]) && !IsSpace(tags[i][|tags[i]| - 1])
    ensures v.VList? ==> tags == v.items
    ensures !v.VStr? && !v.VList? ==> tags == []
  {
    match v
    case VStr(s) => if s == "" then [] else StripPieces(Split(s, ','))
    case VList(items) => items
    case _ => []
  }

  /** The non-empty strings of `s`, in order and with their repetitions. */
  function NonBlank(s: seq<string>): (r: seq<string>)
    ensures |r| <= |s|
    decreases |s|
  {
    if s == [] then []
    else if s[|s| - 1] == "" then NonBlank(s[..|s| - 1])
    else NonBlank(s[..|s| - 1]) + [s[|s| - 1]]
  }

  /** `[t.strip() for t in pieces if t.strip()]` is exactly the stripped
      pieces with the empty ones filtered out, repetitions included. */
  lemma {:induction false} StripPiecesFilters(pieces: seq<string>)
    ensures StripPieces(pieces) == NonBlank(StripEach(pieces))
    decreases |pieces|
  {
    if pieces != [] {
      var init := pieces[..|pieces| - 1];
      var last := Strip(pieces[|pieces| - 1]);
      StripPiecesFilters(init);
      var e := StripEach(pieces);
      assert e == StripEach(init) + [last];
      assert e[..|e| - 1] == StripEach(init);
    }
  }

  /** A tag that survives parsing unchanged. */
  predicate CleanTag(t: string) {
    t != "" && ',' !in t && !IsSpace(t[0]) && !IsSpace(t[|t| - 1])
  }

  lemma StripClean(t: string)
    requires t != "" && !IsSpace(t[0]) && !IsSpace(t[|t| - 1])
    ensures Strip(t) == t
  {
    assert LStrip(t) == t;
  }

  lemma {:induction false} StripCleanPieces(tags: seq<string>)
    requires forall i :: 0 <= i < |tags| ==> CleanTag(tags[i])
    ensures StripPieces(tags) == tags
    decreases |tags|
  {
    if tags != [] {
      StripClean(tags[|tags| - 1]);
      StripCleanPieces(tags[..|tags| - 1]);
    }
  }

  /** A tag string gives the stripped comma-separated pieces in their order,
      blank pieces left out and every other piece kept. */
  lemma ParseTagsSelects(s: string)
    ensures var pieces := Split(s, ',');
            var tags := ParseTags(VStr(s));
            && tags == NonBlank(StripEach(pieces))
            && IsSubsequence(tags, StripEach(pieces))
            && forall t :: t in tags <==> t != "" && t in StripEach(pieces)
  {
    StripPiecesSelects(Split(s, ','));
    StripPiecesFilters(Split(s, ','));
    if s == "" {
      assert Split(s, ',') == [""];
      assert Strip("") == "";
    }
  }

  /** Two clean tags written with a blank after the comma, as in
      `"work, personal"`, give the two tags: the blank is stripped. */
  lemma ParseTagsSpaced(a: string, b: string)
    requires CleanTag(a) && CleanTag(b)
    ensures ParseTags(VStr(a + ", " + b)) == [a, b]
  {
    var s := a + ", " + b;
    var pieces := [a, " " + b];
    assert Split(s, ',') == pieces by {
      SplitSpaced(a, b);
    }
    assert StripPieces(pieces) == [a, b] by {
      assert pieces[..|pieces| - 1] == [a];
      StripCleanPieces([a]);
      StripLeadingBlank(b);
    }
    assert s != "";
  }

  lemma SplitSpaced(a: string, b: string)
    requires CleanTag(a) && CleanTag(b)
    ensures Split(a + ", " + b, ',') == [a, " " + b]
  {
    var second := " " + b;
    assert a + ", " + b == a + [','] + second;
    assert ',' !in second by {
      assert forall k :: 0 <= k < |second| ==> second[k] == ' ' || second[k] == b[k - 1];
    }
    SplitAfterPiece(a, second, ',');
    SplitNoSep(second, ',');
  }

  lemma StripLeadingBlank(t: string)
    requires CleanTag(t)
    ensures Strip(" " + t) == t
  {
    var p := " " + t;
    assert IsSpace(p[0]) && p[1..] == t;
    assert LStrip(p) == LStrip(t);
    StripClean(t);
  }

  /** Writing a list of clean tags as `a,b,c` and parsing it gives the list back,
      in order. */
  lemma ParseTagsJoin(tags: seq<string>)
    requires forall i :: 0 <= i < |tags| ==> CleanTag(tags[i])
    ensures ParseTags(VStr(Join(tags, ','))) == tags
  {
    if tags != [] {
      SplitJoin(tags, ',');
      StripCleanPieces(tags);
      assert Join(tags, ',') != "" by {
        if |tags| > 1 {
          assert |Join(tags, ',')| >= |tags[0]| + 1;
        }
      }
    }
  }

  // ---------------------------------------------------------------------
  // int() and str() on numbers

  predicate IsDigit(c: char) {
    '0' <= c <= '9'
  }

  /** The value of a string of decimal digits. */
  function DigitsValue(ds: string): nat
    requires forall i :: 0 <= i < |ds| ==> IsDigit(ds[i])
    decreases |ds|
  {
    if ds == [] then 0
    else
      assert IsDigit(ds[|ds| - 1]);
      DigitsValue(ds[..|ds| - 1]) * 10 + (ds[|ds| - 1] as int - '0' as int)
  }

  /** `int(s)` for a string: surrounding white space, an optional sign and at
      least one decimal digit. */
  function ParseInt(s: string): (r: Option<int>)
    ensures r.Some? ==> Strip(s) != ""
  {
    var t := Strip(s);
    if t == "" then None
    else
      var neg := t[0] == '-';
      var ds := if t[0] == '-' || t[0] == '+' then t[1..] else t;
      if ds != [] && forall i :: 0 <= i < |ds| ==> IsDigit(ds[i]) then
        var n: int := DigitsValue(ds);
        Some(if neg then -n else n)
      else None
  }

  /** `str(n)` for a natural number. */
  function ShowNat(n: nat): (s: string)
    ensures s != [] && forall i :: 0 <= i < |s| ==> IsDigit(s[i])
    decreases n
  {
    if n < 10 then [('0' as int + n) as char]
    else ShowNat(n / 10) + [('0' as int + n % 10) as char]
  }

  /** `str(n)` for an integer. */
  function ShowInt(n: int): string {
    if n < 0 then "-" + ShowNat(-n) else ShowNat(n)
  }

  lemma {:induction false} DigitsOfShowNat(n: nat)
    ensures DigitsValue(ShowNat(n)) == n
    decreases n
  {
    if n >= 10 {
      DigitsOfShowNat(n / 10);
      var s := ShowNat(n);
      assert s[..|s| - 1] == ShowNat(n / 10);
    }
  }

  /** `int(str(n)) == n`. */
  lemma ParseShowInt(n: int)
    ensures ParseInt(ShowInt(n)) == Some(n)
  {
    var s := ShowInt(n);
    var digits := ShowNat(if n < 0 then -n else n);
    DigitsOfShowNat(if n < 0 then -n else n);
    StripClean(s);
    if n < 0 {
      assert s[1..] == digits;
    }
  }

  /** `JoplinConfig.url`: `http://`, the host, a colon, then the port in decimal. */
  function JoplinUrl(c: JoplinConfig): (u: string)
    ensures |u| == 7 + |c.host| + 1 + |ShowInt(c.port)|
    ensures u[..7] == "http://" && u[7..7 + |c.host|] == c.host
    ensures u[7 + |c.host|] == ':' && u[7 + |c.host| + 1..] == ShowInt(c.port)
  {
    var u := "http://" + c.host + ":" + ShowInt(c.port);
    assert u == "http://" + c.host + (":" + ShowInt(c.port));
    u
  }

  /** The port reads back from the text after the host's colon. */
  lemma JoplinUrlPort(c: JoplinConfig)
    ensures ParseInt(JoplinUrl(c)[7 + |c.host| + 1..]) == Some(c.port)
  {
    ParseShowInt(c.port);
  }

  // ---------------------------------------------------------------------
  // load_config

  /** A setting that must be a string (or absent, for optional ones). */
  function AsText(v: Value): Option<string> {
    if v.VStr? then Some(v.s) else None
  }

  /** `int(value)`. */
  function AsInt(v: Value): Option<int> {
    if v.VStr? then ParseInt(v.s) else None
  }

  const TokenKey := "JOPPER_JOPLIN_TOKEN"
  const HostKey := "JOPPER_JOPLIN_HOST"
  const PortKey := "JOPPER_JOPLIN_PORT"
  const UrlKey := "JOPPER_OPENWEBUI_URL"
  const ApiKeyKey := "JOPPER_OPENWEBUI_API_KEY"
  const KbNameKey := "JOPPER_OPENWEBUI_KB_NAME"
  const CollectionKey := "JOPPER_OPENWEBUI_COLLECTION_ID"
  const TagsKey := "JOPPER_SYNC_TAGS"
  const ModeKey := "JOPPER_SYNC_MODE"
  const IntervalKey := "JOPPER_SYNC_INTERVAL_MINUTES"
  const StatePathKey := "JOPPER_STATE_DB_PATH"

  /** The Joplin part of `load_config`, from the three settings it looks
      up: the token must be present. */
  function JoplinPart(token: Value, host: Value, port: Value): (r: Result<JoplinConfig, ConfigError>)
    ensures r.Success? ==> r.value.token != ""
    ensures r.Success? ==> token == VStr(r.value.token) && host == VStr(r.value.host) && AsInt(port) == Some(r.value.port)
    ensures !Truthy(token) ==> r == Failure(MissingJoplinToken)
  {
    if !Truthy(token) then Failure(MissingJoplinToken)
    else if !token.VStr? then Failure(NotText(TokenKey))
    else if !host.VStr? then Failure(NotText(HostKey))
    else if AsInt(port).None? then Failure(NotAnInteger(PortKey))
    else Success(JoplinConfig(token.s, host.s, AsInt(port).value))
  }

  /** The OpenWebUI part of `load_config`: URL and API key must be present,
      and the URL loses its trailing slashes. The URL itself can end up
      empty: a value made only of slashes passes the presence check. */
  function OpenWebUIPart(url: Value, apiKey: Value, kbName: Value, collection: Value): (r: Result<OpenWebUIConfig, ConfigError>)
    ensures r.Success? ==> r.value.apiKey != ""
    ensures r.Success? && r.value.url != "" ==> r.value.url[|r.value.url| - 1] != '/'
    ensures r.Success? ==> url.VStr? && r.value.url == RStripChar(url.s, '/')
    ensures r.Success? ==> apiKey == VStr(r.value.apiKey) && kbName == VStr(r.value.knowledgeBaseName)
    ensures r.Success? ==> r.value.collectionId == AsText(collection) && (collection.VNone? || collection.VStr?)
    ensures !Truthy(url) ==> r == Failure(MissingOpenWebUIUrl)
    ensures Truthy(url) && !Truthy(apiKey) ==> r == Failure(MissingOpenWebUIApiKey)
  {
    if !Truthy(url) then Failure(MissingOpenWebUIUrl)
    else if !Truthy(apiKey) then Failure(MissingOpenWebUIApiKey)
    else if !url.VStr? then Failure(NotText(UrlKey))
    else if !apiKey.VStr? then Failure(NotText(ApiKeyKey))
    else if !kbName.VStr? then Failure(NotText(KbNameKey))
    else if !collection.VNone? && !collection.VStr? then Failure(NotText(CollectionKey))
    else Success(OpenWebUIConfig(RStripChar(url.s, '/'), apiKey.s, kbName.s, AsText(collection)))
  }

  /** The sync part of `load_config` and the state database path. */
  function SyncPart(tags: Value, mode: Value, interval: Value, statePath: Value): (r: Result<(SyncConfig, string), ConfigError>)
    ensures r.Success? ==> r.value.0.tags == ParseTags(tags) && statePath == VStr(r.value.1)
  {
    if !mode.VStr? then Failure(NotText(ModeKey))
    else if AsInt(interval).None? then Failure(NotAnInteger(IntervalKey))
    else if !statePath.VStr? then Failure(NotText(StatePathKey))
    else Success((MakeSyncConfig(mode.s, Some(ParseTags(tags)), AsInt(interval).value), statePath.s))
  }

  /** The three parts in the source's order, the first failure winning. */
  function Assemble(j: Result<JoplinConfig, ConfigError>, o: Result<OpenWebUIConfig, ConfigError>,
                    s: Result<(SyncConfig, string), ConfigError>): (r: Result<AppConfig, ConfigError>)
    ensures r.Success? <==> j.Success? && o.Success? && s.Success?
    ensures r.Success? ==> r.value == AppConfig(j.value, o.value, s.value.0, s.value.1)
    ensures j.Failure? ==> r == Failure(j.error)
    ensures j.Success? && o.Failure? ==> r == Failure(o.error)
    ensures j.Success? && o.Success? && s.Failure? ==> r == Failure(s.error)
  {
    match j
    case Failure(e) => Failure(e)
    case Success(joplin) =>
      match o
      case Failure(e) => Failure(e)
      case Success(openwebui) =>
        match s
        case Failure(e) => Failure(e)
        case Success(rest) => Success(AppConfig(joplin, openwebui, rest.0, rest.1))
  }

  function StateDbDefault(home: string): string {
    home + "/.local/share/jopper/state.db"
  }

  /** The settings of the Joplin section. */
  function LoadJoplin(env: map<string, string>, yaml: Value): Result<JoplinConfig, ConfigError> {
    JoplinPart(
      Setting(env, yaml, TokenKey, ["joplin", "token"], VNone),
      Setting(env, yaml, HostKey, ["joplin", "host"], VStr("localhost")),
      Setting(env, yaml, PortKey, ["joplin", "port"], VStr("41184")))
  }

  /** The settings of the OpenWebUI section. */
  function LoadOpenWebUI(env: map<string, string>, yaml: Value): Result<OpenWebUIConfig, ConfigError> {
    OpenWebUIPart(
      Setting(env, yaml, UrlKey, ["openwebui", "url"], VNone),
      Setting(env, yaml, ApiKeyKey, ["openwebui", "api_key"], VNone),
      Setting(env, yaml, KbNameKey, ["openwebui", "knowledge_base_name"], VStr("Joplin Notes")),
      Setting(env, yaml, CollectionKey, ["openwebui", "collection_id"], VNone))
  }

  /** The settings of the sync section and the state database path. */
  function LoadSync(env: map<string, string>, yaml: Value, home: string): Result<(SyncConfig, string), ConfigError> {
    SyncPart(
      Setting(env, yaml, TagsKey, ["sync", "tags"], VNone),
      Setting(env, yaml, ModeKey, ["sync", "mode"], VStr("all")),
      Setting(env, yaml, IntervalKey, ["sync", "interval_minutes"], VStr("60")),
      Setting(env, yaml, StatePathKey, ["state_db_path"], VStr(StateDbDefault(home))))
  }

  /** What `load_config` produces from the environment, the parsed YAML file
      and the user's home directory. */
  function Load(env: map<string, string>, yaml: Value, home: string): Result<AppConfig, ConfigError> {
    Assemble(LoadJoplin(env, yaml), LoadOpenWebUI(env, yaml), LoadSync(env, yaml, home))
  }

  /** The Joplin section of `load_config`. */
  method LoadJoplinConfig(env: map<string, string>, yaml: Value) returns (r: Result<JoplinConfig, ConfigError>)
    ensures r == LoadJoplin(env, yaml)
  {
    var token := GetConfig(env, yaml, TokenKey, ["joplin", "token"], VNone);
    if !Truthy(token) {
      return Failure(MissingJoplinToken);
    }
    if !token.VStr? {
      return Failure(NotText(TokenKey));
    }
    var host := GetConfig(env, yaml, HostKey, ["joplin", "host"], VStr("localhost"));
    var port := GetConfig(env, yaml, PortKey, ["joplin", "port"], VStr("41184"));
    if !host.VStr? {
      return Failure(NotText(HostKey));
    }
    if AsInt(port).None? {
      return Failure(NotAnInteger(PortKey));
    }
    r := Success(JoplinConfig(token.s, host.s, AsInt(port).value));
  }

  /** The OpenWebUI section of `load_config`. */
  method LoadOpenWebUIConfig(env: map<string, string>, yaml: Value) returns (r: Result<OpenWebUIConfig, ConfigError>)
    ensures r == LoadOpenWebUI(env, yaml)
  {
    var url := GetConfig(env, yaml, UrlKey, ["openwebui", "url"], VNone);
    var apiKey := GetConfig(env, yaml, ApiKeyKey, ["openwebui", "api_key"], VNone);
    if !Truthy(url) {
      return Failure(MissingOpenWebUIUrl);
    }
    if !Truthy(apiKey) {
      return Failure(MissingOpenWebUIApiKey);
    }
    if !url.VStr? {
      return Failure(NotText(UrlKey));
    }
    if !apiKey.VStr? {
      return Failure(NotText(ApiKeyKey));
    }
    var kbName := GetConfig(env, yaml, KbNameKey, ["openwebui", "knowledge_base_name"], VStr("Joplin Notes"));
    var collection := GetConfig(env, yaml, CollectionKey, ["openwebui", "collection_id"], VNone);
    if !kbName.VStr? {
      return Failure(NotText(KbNameKey));
    }
    if !collection.VNone? && !collection.VStr? {
      return Failure(NotText(CollectionKey));
    }
    r := Success(OpenWebUIConfig(RStripChar(url.s, '/'), apiKey.s, kbName.s, AsText(collection)));
  }

  /** The sync section of `load_config` and the state database path. */
  method LoadSyncConfig(env: map<string, string>, yaml: Value, home: string) returns (r: Result<(SyncConfig, string), ConfigError>)
    ensures r == LoadSync(env, yaml, home)
  {
    var tags := GetConfig(env, yaml, TagsKey, ["sync", "tags"], VNone);
    var mode := GetConfig(env, yaml, ModeKey, ["sync", "mode"], VStr("all"));
    var interval := GetConfig(env, yaml, IntervalKey, ["sync", "interval_minutes"], VStr("60"));
    var statePath := GetConfig(env, yaml, StatePathKey, ["state_db_path"], VStr(StateDbDefault(home)));
    if !mode.VStr? {
      return Failure(NotText(ModeKey));
    }
    if AsInt(interval).None? {
      return Failure(NotAnInteger(IntervalKey));
    }
    if !statePath.VStr? {
      return Failure(NotText(StatePathKey));
    }
    r := Success((MakeSyncConfig(mode.s, Some(ParseTags(tags)), AsInt(interval).value), statePath.s));
  }

  /** `load_config`: the three sections in order, the first error raised. */
  method LoadConfig(env: map<string, string>, yaml: Value, home: string) returns (r: Result<AppConfig, ConfigError>)
    ensures r == Load(env, yaml, home)
  {
    var joplin := LoadJoplinConfig(env, yaml);
    if joplin.Failure? {
      return Failure(joplin.error);
    }
    var openwebui := LoadOpenWebUIConfig(env, yaml);
    if openwebui.Failure? {
      return Failure(openwebui.error);
    }
    var sync := LoadSyncConfig(env, yaml, home);
    if sync.Failure? {
      return Failure(sync.error);
    }
    r := Success(AppConfig(joplin.value, openwebui.value, sync.value.0, sync.value.1));
  }

  /** A loaded configuration always carries a Joplin token and an API key,
      and its OpenWebUI URL has no trailing slash. */
  lemma LoadedConfigIsComplete(env: map<string, string>, yaml: Value, home: string)
    requires Load(env, yaml, home).Success?
    ensures var c := Load(env, yaml, home).value;
      c.joplin.token != "" && c.openwebui.apiKey != "" &&
      (c.openwebui.url != "" ==> c.openwebui.url[|c.openwebui.url| - 1] != '/')
    ensures var c := Load(env, yaml, home).value;
      var url := Setting(env, yaml, UrlKey, ["openwebui", "url"], VNone);
      url.VStr? && c.openwebui.url == RStripChar(url.s, '/')
  {
    var j := LoadJoplin(env, yaml);
    var o := LoadOpenWebUI(env, yaml);
    assert Load(env, yaml, home).value.joplin == j.value && Load(env, yaml, home).value.openwebui == o.value;
  }

  /** Nothing can be found below a value that is not a mapping. */
  lemma DescendScalar(v: Value, keys: seq<string>)
    requires !v.VDict? && keys != []
    ensures Descend(v, keys) == None
  {
    assert keys[..1][..0] == [];
    DescendBroken(v, keys, 1);
  }
}
