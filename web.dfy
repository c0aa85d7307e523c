/** The configuration checks and request-gating decisions of the web front end. */
module WebApp {
  import opened Wrappers
  import opened Strings

  /** The `Settings` class attributes. */
  datatype Settings = Settings(
    port: int,
    host: string,
    debug: bool,
    googleClientId: string,
    googleClientSecret: string,
    sessionSecret: string,
    lemonSqueezyApiKey: string,
    lemonSqueezyStoreId: string,
    lemonSqueezyWebhookSecret: string,
    supabaseUrl: string,
    supabaseAnonKey: string,
    sentryDsn: string,
    groqApiKey: string,
    whisperModel: string,
    inviteOnly: bool)

  /** `os.environ.get(name, default)`. */
  function EnvOr(env: map<string, string>, name: string, default: string): string {
    if name in env then env[name] else default
  }

  /** The settings read from the environment. The port (parsed with `int`) and the random
      fallback session secret are given. */
  function SettingsFromEnv(env: map<string, string>, port: int, randomSecret: string): (s: Settings)
    ensures s.port == port
    ensures "HOST" in env ==> s.host == env["HOST"]
    ensures "HOST" !in env ==> s.host == "0.0.0.0"
    ensures "DEBUG" in env ==> (s.debug <==> Lower(env["DEBUG"]) == "true")
    ensures "DEBUG" !in env ==> !s.debug
    ensures "GOOGLE_CLIENT_ID" in env ==> s.googleClientId == env["GOOGLE_CLIENT_ID"]
    ensures "GOOGLE_CLIENT_ID" !in env ==> s.googleClientId == ""
    ensures "GOOGLE_CLIENT_SECRET" in env ==> s.googleClientSecret == env["GOOGLE_CLIENT_SECRET"]
    ensures "GOOGLE_CLIENT_SECRET" !in env ==> s.googleClientSecret == ""
    ensures "SESSION_SECRET" in env ==> s.sessionSecret == env["SESSION_SECRET"]
    ensures "SESSION_SECRET" !in env ==> s.sessionSecret == randomSecret
    ensures "LEMON_SQUEEZY_API_KEY" in env ==> s.lemonSqueezyApiKey == env["LEMON_SQUEEZY_API_KEY"]
    ensures "LEMON_SQUEEZY_API_KEY" !in env ==> s.lemonSqueezyApiKey == ""
    ensures "LEMON_SQUEEZY_STORE_ID" in env ==> s.lemonSqueezyStoreId == env["LEMON_SQUEEZY_STORE_ID"]
    ensures "LEMON_SQUEEZY_STORE_ID" !in env ==> s.lemonSqueezyStoreId == ""
    ensures "LEMON_SQUEEZY_WEBHOOK_SECRET" in env ==> s.lemonSqueezyWebhookSecret == env["LEMON_SQUEEZY_WEBHOOK_SECRET"]
    ensures "LEMON_SQUEEZY_WEBHOOK_SECRET" !in env ==> s.lemonSqueezyWebhookSecret == ""
    ensures "SUPABASE_URL" in env ==> s.supabaseUrl == env["SUPABASE_URL"]
    ensures "SUPABASE_URL" !in env ==> s.supabaseUrl == ""
    ensures "SUPABASE_ANON_KEY" in env ==> s.supabaseAnonKey == env["SUPABASE_ANON_KEY"]
    ensures "SUPABASE_ANON_KEY" !in env ==> s.supabaseAnonKey == ""
    ensures "SENTRY_DSN" in env ==> s.sentryDsn == env["SENTRY_DSN"]
    ensures "SENTRY_DSN" !in env ==> s.sentryDsn == ""
    ensures "GROQ_API_KEY" in env ==> s.groqApiKey == env["GROQ_API_KEY"]
    ensures "GROQ_API_KEY" !in env ==> s.groqApiKey == ""
    ensures "WHISPER_MODEL" in env ==> s.whisperModel == env["WHISPER_MODEL"]
    ensures "WHISPER_MODEL" !in env ==> s.whisperModel == "base"
    ensures "INVITE_ONLY" in env ==> (s.inviteOnly <==> Lower(env["INVITE_ONLY"]) == "true")
    ensures "INVITE_ONLY" !in env ==> s.inviteOnly
  {
    Settings(
      port,
      EnvOr(env, "HOST", "0.0.0.0"),
      Lower(EnvOr(env, "DEBUG", "false")) == "true",
      EnvOr(env, "GOOGLE_CLIENT_ID", ""),
      EnvOr(env, "GOOGLE_CLIENT_SECRET", ""),
      EnvOr(env, "SESSION_SECRET", randomSecret),
      EnvOr(env, "LEMON_SQUEEZY_API_KEY", ""),
      EnvOr(env, "LEMON_SQUEEZY_STORE_ID", ""),
      EnvOr(env, "LEMON_SQUEEZY_WEBHOOK_SECRET", ""),
      EnvOr(env, "SUPABASE_URL", ""),
      EnvOr(env, "SUPABASE_ANON_KEY", ""),
      EnvOr(env, "SENTRY_DSN", ""),
      EnvOr(env, "GROQ_API_KEY", ""),
      EnvOr(env, "WHISPER_MODEL", "base"),
      Lower(EnvOr(env, "INVITE_ONLY", "true")) == "true")
  }

  /** The value `getattr(Settings, key, '')` yields: a string, an integer, a boolean, or an
      object that is truthy and has no `startswith` (a method). */
  datatype Attribute = Text(s: string) | Number(n: int) | Flag(b: bool) | Other

  /** The settings whose values are strings. */
  const TextSettings: set<string> := {
    "HOST", "GOOGLE_CLIENT_ID", "GOOGLE_CLIENT_SECRET", "SESSION_SECRET",
    "LEMON_SQUEEZY_API_KEY", "LEMON_SQUEEZY_STORE_ID", "LEMON_SQUEEZY_WEBHOOK_SECRET",
    "SUPABASE_URL", "SUPABASE_ANON_KEY", "SENTRY_DSN", "GROQ_API_KEY", "WHISPER_MODEL"
  }

  /** The string attributes every class has: its docstring, its names and its module. */
  const ClassTexts: set<string> := {"__doc__", "__name__", "__qualname__", "__module__"}

  /** The class docstring. */
  const SettingsDoc: string := "Application settings " + "from environment variables"

  /** `getattr(Settings, key, '')`: the named setting; the class's docstring, names and module;
      the method `is_configured`; or the empty string for any other name. */
  function GetAttribute(settings: Settings, key: string): (r: Attribute)
    ensures r.Number? <==> key == "PORT"
    ensures r.Flag? <==> key == "DEBUG" || key == "INVITE_ONLY"
    ensures r.Other? <==> key == "is_configured"
    ensures key in TextSettings || key in ClassTexts ==> r.Text?
    ensures key in ClassTexts ==> r.s != ""
    ensures key == "PORT" ==> r == Number(settings.port)
    ensures key == "DEBUG" ==> r == Flag(settings.debug)
    ensures key == "INVITE_ONLY" ==> r == Flag(settings.inviteOnly)
    ensures key == "HOST" ==> r == Text(settings.host)
    ensures key == "GOOGLE_CLIENT_ID" ==> r == Text(settings.googleClientId)
    ensures key == "GOOGLE_CLIENT_SECRET" ==> r == Text(settings.googleClientSecret)
    ensures key == "SESSION_SECRET" ==> r == Text(settings.sessionSecret)
    ensures key == "LEMON_SQUEEZY_API_KEY" ==> r == Text(settings.lemonSqueezyApiKey)
    ensures key == "LEMON_SQUEEZY_STORE_ID" ==> r == Text(settings.lemonSqueezyStoreId)
    ensures key == "LEMON_SQUEEZY_WEBHOOK_SECRET" ==> r == Text(settings.lemonSqueezyWebhookSecret)
    ensures key == "SUPABASE_URL" ==> r == Text(settings.supabaseUrl)
    ensures key == "SUPABASE_ANON_KEY" ==> r == Text(settings.supabaseAnonKey)
    ensures key == "SENTRY_DSN" ==> r == Text(settings.sentryDsn)
    ensures key == "GROQ_API_KEY" ==> r == Text(settings.groqApiKey)
    ensures key == "WHISPER_MODEL" ==> r == Text(settings.whisperModel)
    ensures (key !in TextSettings && key !in ClassTexts && key !in {"PORT", "DEBUG", "INVITE_ONLY", "is_configured"})
              ==> r == Text("")
  {
    match key
    case "PORT" => Number(settings.port)
    case "HOST" => Text(settings.host)
    case "DEBUG" => Flag(settings.debug)
    case "GOOGLE_CLIENT_ID" => Text(settings.googleClientId)
    case "GOOGLE_CLIENT_SECRET" => Text(settings.googleClientSecret)
    case "SESSION_SECRET" => Text(settings.sessionSecret)
    case "LEMON_SQUEEZY_API_KEY" => Text(settings.lemonSqueezyApiKey)
    case "LEMON_SQUEEZY_STORE_ID" => Text(settings.lemonSqueezyStoreId)
    case "LEMON_SQUEEZY_WEBHOOK_SECRET" => Text(settings.lemonSqueezyWebhookSecret)
    case "SUPABASE_URL" => Text(settings.supabaseUrl)
    case "SUPABASE_ANON_KEY" => Text(settings.supabaseAnonKey)
    case "SENTRY_DSN" => Text(settings.sentryDsn)
    case "GROQ_API_KEY" => Text(settings.groqApiKey)
    case "WHISPER_MODEL" => Text(settings.whisperModel)
    case "INVITE_ONLY" => Flag(settings.inviteOnly)
    case "__doc__" => Text(SettingsDoc)
    case "__name__" => Text("Settings")
    case "__qualname__" => Text("Settings")
    case "__module__" => Text("web")
    case "is_configured" => Other
    case _ => Text("")
  }

  /** Python truthiness of an attribute value. */
  predicate Truthy(a: Attribute) {
    match a
    case Text(s) => s != ""
    case Number(n) => n != 0
    case Flag(b) => b
    case Other => true
  }

  /** A value that counts as configured: a non-empty string that is not a stub or a placeholder. */
  predicate Passes(a: Attribute) {
    a.Text? && a.s != "" && !StartsWith(a.s, "stub") && !StartsWith(a.s, "placeholder")
  }

  /** Every value before `i` passes, and value `i` is truthy but not a string: the loop
      reaches it and `startswith` raises. */
  predicate RaisesIn(values: seq<Attribute>, i: int)
    requires 0 <= i < |values|
  {
    && (forall j :: 0 <= j < i ==> Passes(values[j]))
    && !values[i].Text? && Truthy(values[i])
  }

  /** The same for the attributes the keys name. */
  predicate RaisesAt(settings: Settings, keys: seq<string>, i: int)
    requires 0 <= i < |keys|
  {
    && (forall j :: 0 <= j < i ==> Passes(GetAttribute(settings, keys[j])))
    && !GetAttribute(settings, keys[i]).Text? && Truthy(GetAttribute(settings, keys[i]))
  }

  /** The attribute each key names, in order. */
  function Fetch(settings: Settings, keys: seq<string>): (values: seq<Attribute>)
    ensures |values| == |keys|
    ensures forall i :: 0 <= i < |keys| ==> values[i] == GetAttribute(settings, keys[i])
  {
    if |keys| == 0 then [] else [GetAttribute(settings, keys[0])] + Fetch(settings, keys[1..])
  }

  /** The loop of `is_configured` over the values it fetches, `keys[i]` naming `values[i]`: a
      falsy value or a stub/placeholder string answers False at once; a truthy value that is
      not a string has no `startswith`, so the call raises (the error carries the key). The
      first value that does not pass decides between False and the raise. */
  function CheckValues(values: seq<Attribute>, keys: seq<string>): (r: Result<bool, string>)
    requires |values| == |keys|
    ensures r == Success(true) <==> forall i :: 0 <= i < |values| ==> Passes(values[i])
    ensures (forall i :: 0 <= i < |values| ==> values[i].Text?) ==> r.Success?
    ensures r.Failure? <==> exists i :: 0 <= i < |values| && RaisesIn(values, i)
    ensures r.Failure? ==> exists i :: 0 <= i < |values| && RaisesIn(values, i) && keys[i] == r.error
  {
    if |values| == 0 then Success(true)
    else
      var value := values[0];
      if !Truthy(value) then Success(false)
      else if !value.Text? then
        assert RaisesIn(values, 0);
        Failure(keys[0])
      else if StartsWith(value.s, "stub") || StartsWith(value.s, "placeholder") then Success(false)
      else
        var r := CheckValues(values[1..], keys[1..]);
        RaisesAfterPassing(values);
        assert forall i :: 1 <= i < |keys| ==> keys[i] == keys[1..][i - 1];
        assert forall i :: 1 <= i < |values| ==> (RaisesIn(values, i) <==> RaisesIn(values[1..], i - 1));
        r
  }

  /** Behind a first value that passes, the value where the check raises is one place further on. */
  lemma RaisesAfterPassing(values: seq<Attribute>)
    requires |values| > 0 && Passes(values[0])
    ensures !RaisesIn(values, 0)
    ensures forall i :: 0 <= i < |values| - 1 ==> (RaisesIn(values[1..], i) <==> RaisesIn(values, i + 1))
  {
    forall i | 0 <= i < |values| - 1
      ensures RaisesIn(values[1..], i) <==> RaisesIn(values, i + 1)
    {
      assert forall j :: 1 <= j < |values| ==> values[j] == values[1..][j - 1];
    }
  }

  /** `Settings.is_configured(*keys)`: True exactly when every named setting passes; a string
      setting never raises; the call raises exactly when some key is reached whose value is
      truthy and not a string, and the error names such a key. */
  function IsConfigured(settings: Settings, keys: seq<string>): (r: Result<bool, string>)
    ensures r == Success(true) <==> forall i :: 0 <= i < |keys| ==> Passes(GetAttribute(settings, keys[i]))
    ensures (forall i :: 0 <= i < |keys| ==> GetAttribute(settings, keys[i]).Text?) ==> r.Success?
    ensures r.Failure? <==> exists i :: 0 <= i < |keys| && RaisesAt(settings, keys, i)
    ensures r.Failure? ==> exists i :: 0 <= i < |keys| && RaisesAt(settings, keys, i) && keys[i] == r.error
  {
    var values := Fetch(settings, keys);
    assert forall i :: 0 <= i < |keys| ==> (RaisesAt(settings, keys, i) <==> RaisesIn(values, i));
    CheckValues(values, keys)
  }

  /** For string settings the check is a plain conjunction: one failing key makes it false. */
  lemma FailingKeyMakesUnconfigured(settings: Settings, keys: seq<string>, i: int)
    requires forall j :: 0 <= j < |keys| ==> GetAttribute(settings, keys[j]).Text?
    requires 0 <= i < |keys| && !Passes(GetAttribute(settings, keys[i]))
    ensures IsConfigured(settings, keys) == Success(false)
  {
    var r := IsConfigured(settings, keys);
    assert r.Success?;
    assert r != Success(true);
    assert r == Success(r.value) && !r.value;
  }

  /** The check accepts the class's own docstring as a configured setting, and raises on
      the name of its method. */
  lemma ClassAttributesChecked(settings: Settings)
    ensures IsConfigured(settings, ["__doc__"]) == Success(true)
    ensures IsConfigured(settings, ["is_configured"]) == Failure("is_configured")
  {
    assert SettingsDoc[..4][0] == 'A' && SettingsDoc[..11][0] == 'A';
    assert ["__doc__"][1..] == [];
  }

  /** A checkout plan. */
  datatype Plan = Plan(variantId: string, name: string)

  /** The plans checkout knows about. */
  const Plans: map<string, Plan> := map[
    "creator_pro" := Plan("123", "Creator Pro"),
    "studio" := Plan("456", "Studio"),
    "black_label" := Plan("789", "Black Label")
  ]

  /** Where checkout sends the buyer, ending in the plan id. */
  const CheckoutBase: string := "https://afromations.lemonsqueezy.com/checkout/"

  /** What a handler answers. */
  datatype Response =
    | JsonError(status: int, error: string, message: string)
    | HttpError(status: int, detail: string)
    | Redirect(url: string)
    | CheckoutCreated(plan: Plan, redirectUrl: string)

  /** The HTTP status of a response: FastAPI's `RedirectResponse` answers 307, JSON bodies 200. */
  function StatusCode(r: Response): int {
    match r
    case JsonError(status, _, _) => status
    case HttpError(status, _) => status
    case Redirect(_) => 307
    case CheckoutCreated(_, _) => 200
  }

  /** `google_auth`: 501 until a client id is set, then a redirect into the app. */
  function GoogleAuth(settings: Settings): (r: Response)
    ensures StatusCode(r) == 501 <==> settings.googleClientId == ""
    ensures settings.googleClientId != "" ==> r == Redirect("/app")
  {
    if settings.googleClientId == "" then
      JsonError(501, "Google Auth not configured", "Set GOOGLE_CLIENT_ID environment variable")
    else
      Redirect("/app")
  }

  /** `email_auth`: 403 when invites are required and no (or an empty) code came; otherwise
      a redirect into the app. */
  function EmailAuth(settings: Settings, email: string, code: Option<string>): (r: Response)
    ensures StatusCode(r) == 403 <==> settings.inviteOnly && (code.None? || code.value == "")
    ensures !(settings.inviteOnly && (code.None? || code.value == "")) ==> r == Redirect("/app")
  {
    if settings.inviteOnly && (code.None? || code.value == "") then
      JsonError(403, "Invite required", "AfroMations is invite-only. Please provide an invite code.")
    else
      Redirect("/app")
  }

  /** Any non-empty code is accepted: its value and the e-mail address are never checked. */
  lemma EmailCodeNeverChecked(settings: Settings, e1: string, e2: string, c1: string, c2: string)
    requires c1 != "" && c2 != ""
    ensures EmailAuth(settings, e1, Some(c1)) == EmailAuth(settings, e2, Some(c2)) == Redirect("/app")
  {
  }

  /** `create_checkout`: 501 without a billing key (whatever the plan), 404 for an unknown
      plan, otherwise the plan and a redirect URL that ends in the plan id. */
  function CreateCheckout(settings: Settings, planId: string): (r: Response)
    ensures settings.lemonSqueezyApiKey == "" ==> StatusCode(r) == 501
    ensures settings.lemonSqueezyApiKey != "" && planId !in Plans ==> r == HttpError(404, "Plan not found")
    ensures settings.lemonSqueezyApiKey != "" && planId in Plans ==>
              && r.CheckoutCreated? && StatusCode(r) == 200
              && r.plan == Plans[planId]
              && StartsWith(r.redirectUrl, CheckoutBase) && EndsWith(r.redirectUrl, planId)
  {
    if settings.lemonSqueezyApiKey == "" then
      JsonError(501, "Billing not configured", "Set LEMON_SQUEEZY_API_KEY environment variable")
    else if planId !in Plans then
      HttpError(404, "Plan not found")
    else
      var url := CheckoutBase + planId;
      assert url[..|CheckoutBase|] == CheckoutBase && url[|url| - |planId|..] == planId;
      CheckoutCreated(Plans[planId], url)
  }

  /** With nothing in the environment, sign-in through Google and checkout are both off and
      e-mail sign-in demands an invite code. */
  lemma EmptyEnvironmentGates(port: int, secret: string, email: string, planId: string)
    ensures GoogleAuth(SettingsFromEnv(map[], port, secret)) == JsonError(501, "Google Auth not configured", "Set GOOGLE_CLIENT_ID environment variable")
    ensures StatusCode(EmailAuth(SettingsFromEnv(map[], port, secret), email, None)) == 403
    ensures StatusCode(CreateCheckout(SettingsFromEnv(map[], port, secret), planId)) == 501
  {
    assert Lower("true") == "true";
  }
}
