/** Start-up configuration: reading the `.env` file into the process
    environment, the PayPal settings taken from it, the configuration check,
    the API base address, and the one-retry rule for proxy tunnel failures. */
module Config {
  import opened Wrappers
  import opened Text

  // ---------------------------------------------------------------------
  // load_env_file
  // ---------------------------------------------------------------------


  /** A character CleanValue removes from the ends of a value. */
  predicate IsValueBorder(c: char) { IsSpace(c) || c == '"' || c == '\'' }

  /** value.strip().strip('"').strip("'").strip(): only characters of the
      value are kept, and no whitespace is left at either end. */
  function CleanValue(value: string): (r: string)
    ensures |r| <= |value|
    ensures forall c :: c in r ==> c in value
    ensures r == [] || (!IsSpace(r[0]) && !IsSpace(r[|r| - 1]))
  {
    var a := Strip(value);
    var b := StripWhere(a, Only('"'));
    var c := StripWhere(b, Only('\''));
    StripWithin(value, Spaces);
    StripWithin(a, Only('"'));
    StripWithin(b, Only('\''));
    StripWithin(c, Spaces);
    Strip(c)
  }

  /** What load_env_file makes of one raw line: the key and the cleaned value,
      or None for a blank line, a comment, a line without '=' or an empty key. */
  function ParseEnvLine(raw: string): (entry: Option<(string, string)>)
    ensures entry.Some? ==> entry.value.0 != [] && '=' !in entry.value.0
    ensures entry.Some? ==> entry.value.0[0] != '#'
    ensures '=' !in raw ==> entry.None?
    ensures Strip(raw) == [] || Strip(raw)[0] == '#' ==> entry.None?
  {
    var line := Strip(raw);
    if line == [] || line[0] == '#' then None
    else
      match SplitOnce(line, '=')
      case None => None
      case Some(parts) =>
        StripWithin(raw, Spaces);
        StripWithin(parts.0, Spaces);
        var key := Strip(parts.0);
        if key == [] then None
        else
          KeyStartsLine(line, parts.0, parts.1);
          Some((key, CleanValue(parts.1)))
  }

  /** The key of a stripped line begins with the line's first character. */
  lemma KeyStartsLine(line: string, before: string, after: string)
    requires line == before + ['='] + after && !IsSpace(line[0])
    requires Strip(before) != []
    ensures Strip(before)[0] == line[0]
  {
    assert before != [] && before[0] == line[0];
    var left := TrimLeft(before, Spaces);
    assert left == before;
    TrimRightPrefix(left, Spaces);
  }

  /** A line written as key=value is read back as exactly that pair. */
  lemma EnvLineRoundTrip(key: string, value: string)
    requires key != [] && '=' !in key && key[0] != '#'
    requires !IsSpace(key[0]) && !IsSpace(key[|key| - 1])
    requires value == [] || (!IsValueBorder(value[0]) && !IsValueBorder(value[|value| - 1]))
    ensures ParseEnvLine(key + "=" + value) == Some((key, value))
  {
    var line := key + "=" + value;
    assert line == key + ['='] + value;
    assert line[0] == key[0];
    assert line[|line| - 1] == if value == [] then '=' else value[|value| - 1];
    StripKeeps(line, Spaces);
    SplitOnceAt(key, '=', value);
    StripKeeps(key, Spaces);
    StripKeeps(value, Spaces);
    StripKeeps(value, Only('"'));
    StripKeeps(value, Only('\''));
  }

  /** A line whose key is blank, such as " =value", is skipped. */
  lemma EmptyKeySkipped(pad: string, value: string)
    requires forall c :: c in pad ==> IsSpace(c)
    ensures ParseEnvLine(pad + "=" + value).None?
  {
    var rest := "=" + value;
    assert pad + "=" + value == pad + rest;
    TrimLeftSpaces(pad, rest);
    TrimRightKeepsHead(rest, Spaces);
    TrimRightPrefix(rest, Spaces);
    var line := Strip(pad + rest);
    assert line[0] == '=';
    assert SplitOnce(line, '=') == Some(([], line[1..]));
  }

  /** Leading whitespace goes and the first other character stays. */
  lemma {:induction false} TrimLeftSpaces(pad: string, rest: string)
    requires forall c :: c in pad ==> IsSpace(c)
    requires rest != [] && !IsSpace(rest[0])
    ensures TrimLeft(pad + rest, Spaces) == rest
  {
    if pad != [] {
      assert (pad + rest)[1..] == pad[1..] + rest;
      TrimLeftSpaces(pad[1..], rest);
    }
  }

  /** TrimRight never removes a first character it does not drop. */
  lemma {:induction false} TrimRightKeepsHead(s: string, drop: CharClass)
    requires s != [] && !Drops(drop, s[0])
    ensures TrimRight(s, drop) != []
  {
    if Drops(drop, s[|s| - 1]) {
      TrimRightKeepsHead(s[..|s| - 1], drop);
    }
  }

  /** Quotes around a value are removed: "v" and 'v' both clean to v. */
  lemma CleanQuoted(q: char, v: string)
    requires q == '"' || q == '\''
    requires v == [] || (!IsValueBorder(v[0]) && !IsValueBorder(v[|v| - 1]))
    ensures CleanValue([q] + v + [q]) == v
  {
    var quoted := [q] + v + [q];
    StripKeeps(quoted, Spaces);
    StripQuotes(q, v);
    if q == '"' {
      StripKeeps(v, Only('\''));
    } else {
      StripKeeps(quoted, Only('"'));
    }
    StripKeeps(v, Spaces);
  }

  /** strip(q) takes one quote off each end of q + v + q. */
  lemma StripQuotes(q: char, v: string)
    requires v == [] || (v[0] != q && v[|v| - 1] != q)
    ensures StripWhere([q] + v + [q], Only(q)) == v
  {
    var quoted := [q] + v + [q];
    assert quoted[1..] == v + [q];
    if v == [] {
      assert TrimLeft([q], Only(q)) == TrimLeft([], Only(q));
    } else {
      var t := v + [q];
      assert t[0] == v[0];
      assert TrimLeft(quoted, Only(q)) == TrimLeft(t, Only(q)) == t;
      assert t[..|t| - 1] == v;
      assert TrimRight(t, Only(q)) == TrimRight(v, Only(q)) == v;
    }
  }

  /** A line key="v" or key='v' is read back as (key, v). */
  lemma QuotedValue(key: string, q: char, v: string)
    requires key != [] && '=' !in key && key[0] != '#'
    requires !IsSpace(key[0]) && !IsSpace(key[|key| - 1])
    requires q == '"' || q == '\''
    requires v == [] || (!IsValueBorder(v[0]) && !IsValueBorder(v[|v| - 1]))
    ensures ParseEnvLine(key + "=" + [q] + v + [q]) == Some((key, v))
  {
    var quoted := [q] + v + [q];
    var line := key + "=" + [q] + v + [q];
    assert line == key + ['='] + quoted;
    assert line[0] == key[0] && line[|line| - 1] == q;
    StripKeeps(line, Spaces);
    SplitOnceAt(key, '=', quoted);
    StripKeeps(key, Spaces);
    CleanQuoted(q, v);
  }

  /** os.environ.setdefault(key, value) for a parsed line, nothing for a skipped one. */
  function SetDefault(environ: map<string, string>, entry: Option<(string, string)>): map<string, string>
  {
    match entry
    case None => environ
    case Some(kv) => if kv.0 in environ then environ else environ[kv.0 := kv.1]
  }

  lemma SetDefaultKeeps(environ: map<string, string>, entry: Option<(string, string)>, key: string)
    requires key in environ
    ensures key in SetDefault(environ, entry) && SetDefault(environ, entry)[key] == environ[key]
  {
  }

  /** What load_env_file makes of each line of the file, in order. */
  function Entries(lines: seq<string>): (entries: seq<Option<(string, string)>>)
    ensures |entries| == |lines|
    ensures forall i :: 0 <= i < |lines| ==> entries[i] == ParseEnvLine(lines[i])
  {
    seq(|lines|, i requires 0 <= i < |lines| => ParseEnvLine(lines[i]))
  }

  /** The environment after setdefault has been applied for each entry in turn. */
  function EnvAfter(environ: map<string, string>, entries: seq<Option<(string, string)>>): map<string, string>
  {
    if entries == [] then environ
    else SetDefault(EnvAfter(environ, entries[..|entries| - 1]), entries[|entries| - 1])
  }

  /** The keys the entries define. */
  function DefinedKeys(entries: seq<Option<(string, string)>>): set<string>
  {
    if entries == [] then {}
    else
      var rest := DefinedKeys(entries[..|entries| - 1]);
      match entries[|entries| - 1]
      case None => rest
      case Some(kv) => rest + {kv.0}
  }

  /** Python's load_env_file: `file` is None when no `.env` file exists,
      otherwise the lines it contains. */
  method LoadEnvFile(environ: map<string, string>, file: Option<seq<string>>) returns (result: map<string, string>)
    ensures file.None? ==> result == environ
    ensures file.Some? ==> result == EnvAfter(environ, Entries(file.value))
    ensures forall k :: k in environ ==> k in result && result[k] == environ[k]
  {
    result := environ;
    if file.None? {
      return;
    }
    var lines := file.value;
    ghost var entries := Entries(lines);
    for i := 0 to |lines|
      invariant result == EnvAfter(environ, entries[..i])
    {
      assert entries[..i + 1][..i] == entries[..i];
      result := SetDefault(result, ParseEnvLine(lines[i]));
    }
    assert entries[..|lines|] == entries;
    EnvAfterKeepsExisting(environ, entries);
  }

  /** setdefault never overwrites: a variable set before load_env_file keeps its value. */
  lemma {:induction false} EnvAfterKeepsExisting(environ: map<string, string>, entries: seq<Option<(string, string)>>)
    ensures forall k :: k in environ ==> k in EnvAfter(environ, entries) && EnvAfter(environ, entries)[k] == environ[k]
  {
    if entries != [] {
      EnvAfterKeepsExisting(environ, entries[..|entries| - 1]);
    }
  }

  /** load_env_file adds exactly the keys the file defines. */
  lemma {:induction false} EnvAfterKeys(environ: map<string, string>, entries: seq<Option<(string, string)>>)
    ensures EnvAfter(environ, entries).Keys == environ.Keys + DefinedKeys(entries)
  {
    if entries != [] {
      EnvAfterKeys(environ, entries[..|entries| - 1]);
    }
  }

  /** For a key the environment lacks, the first line defining it wins:
      later lines with the same key are ignored. */
  lemma {:induction false} EnvAfterFirstWins(environ: map<string, string>, entries: seq<Option<(string, string)>>, i: nat, key: string, value: string)
    requires i < |entries| && key !in environ
    requires entries[i] == Some((key, value))
    requires key !in DefinedKeys(entries[..i])
    ensures key in EnvAfter(environ, entries) && EnvAfter(environ, entries)[key] == value
  {
    var init := entries[..|entries| - 1];
    if i == |entries| - 1 {
      assert init == entries[..i];
      EnvAfterKeys(environ, init);
    } else {
      assert init[..i] == entries[..i] && init[i] == entries[i];
      EnvAfterFirstWins(environ, init, i, key, value);
      SetDefaultKeeps(EnvAfter(environ, init), entries[|entries| - 1], key);
    }
  }

  // ---------------------------------------------------------------------
  // PayPal settings, ensure_paypal_configured, paypal_base_url
  // ---------------------------------------------------------------------

  datatype PaypalSettings = PaypalSettings(clientId: string, clientSecret: string, environment: string)

  const DemoClientId := "demo-client-id"
  const ClientNotConfigured := "Client PayPal non configuré."
  const SecretNotConfigured := "Secret PayPal non configuré."
  const LiveApi := "https://api-m.paypal.com"
  const SandboxApi := "https://api-m.sandbox.paypal.com"

  /** os.getenv(name, default) */
  function Getenv(environ: map<string, string>, name: string, default: string): string
  {
    if name in environ then environ[name] else default
  }

  /** The module-level PAYPAL_CLIENT_ID, PAYPAL_CLIENT_SECRET and PAYPAL_ENV:
      the demo client id when none is set, a secret from either variable,
      and the environment name in lower case. */
  function SettingsFrom(environ: map<string, string>): (s: PaypalSettings)
    ensures "PAYPAL_CLIENT_ID" !in environ ==> s.clientId == DemoClientId
    ensures s.clientSecret == "" <==>
      Getenv(environ, "PAYPAL_CLIENT_SECRET", "") == "" && Getenv(environ, "PAYPAL_SECRET_KEY_1", "") == ""
    ensures Getenv(environ, "PAYPAL_CLIENT_SECRET", "") != "" ==> s.clientSecret == environ["PAYPAL_CLIENT_SECRET"]
    ensures forall i :: 0 <= i < |s.environment| ==> !('A' <= s.environment[i] <= 'Z')
  {
    var secret := Getenv(environ, "PAYPAL_CLIENT_SECRET", "");
    PaypalSettings(
      Getenv(environ, "PAYPAL_CLIENT_ID", DemoClientId),
      if secret != "" then secret else Getenv(environ, "PAYPAL_SECRET_KEY_1", ""),
      Lower(Getenv(environ, "PAYPAL_ENV", "sandbox")))
  }

  /** ensure_paypal_configured: (ok, message). */
  function EnsurePaypalConfigured(s: PaypalSettings): (r: (bool, string))
    ensures r.0 <==> s.clientId != "" && s.clientId != DemoClientId && s.clientSecret != ""
    ensures r.0 <==> r.1 == ""
    ensures (s.clientId == "" || s.clientId == DemoClientId) ==> r.1 == ClientNotConfigured
  {
    if s.clientId == "" || s.clientId == DemoClientId then (false, ClientNotConfigured)
    else if s.clientSecret == "" then (false, SecretNotConfigured)
    else (true, "")
  }

  /** The gateway is usable only with a real client id and a secret from either variable. */
  lemma ConfiguredFromEnvironment(environ: map<string, string>)
    ensures EnsurePaypalConfigured(SettingsFrom(environ)).0 <==>
      && "PAYPAL_CLIENT_ID" in environ
      && environ["PAYPAL_CLIENT_ID"] != ""
      && environ["PAYPAL_CLIENT_ID"] != DemoClientId
      && (Getenv(environ, "PAYPAL_CLIENT_SECRET", "") != "" || Getenv(environ, "PAYPAL_SECRET_KEY_1", "") != "")
  {
  }

  /** paypal_base_url */
  function PaypalBaseUrl(s: PaypalSettings): (url: string)
    ensures url == LiveApi <==> s.environment == "live"
    ensures url == LiveApi || url == SandboxApi
  {
    if s.environment == "live" then LiveApi else SandboxApi
  }

  /** PAYPAL_ENV is compared after lower(): "LIVE" selects the live API. */
  lemma LiveIsCaseInsensitive()
    ensures PaypalBaseUrl(SettingsFrom(map["PAYPAL_ENV" := "LIVE"])) == LiveApi
  {
    assert Lower("LIVE") == "live";
  }

  // ---------------------------------------------------------------------
  // open_request: one retry without the proxy, for a tunnel failure only
  // ---------------------------------------------------------------------

  /** The result of one urlopen: a response, or a URLError (HTTPError is one)
      and its reason text. */
  datatype Attempt = Opened(body: string) | UrlFailure(reason: string)

  const TunnelFailure := "tunnel connection failed"

  /** open_request: the outcome and the number of attempts made. `viaProxy`
      is what the default opener gives, `direct` what the proxy-less opener
      would give. */
  function OpenRequest(viaProxy: Attempt, direct: Attempt): (r: (Attempt, nat))
    ensures r.1 == 1 || r.1 == 2
    ensures viaProxy.Opened? ==> r == (viaProxy, 1)
    ensures viaProxy.UrlFailure? && !Contains(Lower(viaProxy.reason), TunnelFailure) ==> r == (viaProxy, 1)
    ensures r.1 == 2 ==> r.0 == direct
  {
    match viaProxy
    case Opened(_) => (viaProxy, 1)
    case UrlFailure(reason) =>
      if Contains(Lower(reason), TunnelFailure) then (direct, 2) else (viaProxy, 1)
  }

  /** The retry is content-blind: whatever the direct attempt gives is final,
      a second tunnel failure included. */
  lemma TunnelFailureRetriedOnce(reason: string, direct: Attempt)
    requires Contains(Lower(reason), TunnelFailure)
    ensures OpenRequest(UrlFailure(reason), direct) == (direct, 2)
  {
  }
}
