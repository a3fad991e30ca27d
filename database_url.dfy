/** How simple_shop_data_generator.py chooses the database it connects to:
    settings come from the `database` section of config.yaml, the
    environment may override the credentials, and the connection URL is
    assembled from the result. Reading the file and the environment is not
    modelled; their results are the inputs here. */
module DatabaseUrl {
  import opened Wrappers

  /** The `database` section of config.yaml; each key may be absent. */
  datatype DbSection = DbSection(
    url: Option<string>,
    dbType: Option<string>,
    host: Option<string>,
    name: Option<string>,
    user: Option<string>,
    password: Option<string>)

  /** The DB_USER and DB_PASSWORD environment variables; None when unset. */
  datatype Environment = Environment(dbUser: Option<string>, dbPassword: Option<string>)

  /** The settings the script works with after applying defaults and overrides. */
  datatype Settings = Settings(
    url: Option<string>,
    dbType: string,
    host: string,
    name: string,
    user: string,
    password: string)

  const DefaultType: string := "sqlite"
  const DefaultHost: string := "localhost"
  const DefaultName: string := "simple_shop"

  /** A lookup with a default, as `dict.get(key, default)` and `os.getenv(key, default)` do. */
  function GetOr(entry: Option<string>, default: string): string
  {
    match entry
    case Some(v) => v
    case None => default
  }

  /** Applies the defaults and lets the environment override the credentials. */
  function Resolve(section: DbSection, env: Environment): (s: Settings)
    ensures s.url == section.url
    ensures env.dbUser.Some? ==> s.user == env.dbUser.value
    ensures env.dbPassword.Some? ==> s.password == env.dbPassword.value
    ensures env.dbUser.None? && section.user.Some? ==> s.user == section.user.value
    ensures env.dbPassword.None? && section.password.Some? ==> s.password == section.password.value
    ensures env.dbUser.None? && section.user.None? ==> s.user == ""
    ensures env.dbPassword.None? && section.password.None? ==> s.password == ""
    ensures section.dbType.Some? ==> s.dbType == section.dbType.value
    ensures section.dbType.None? ==> s.dbType == DefaultType
    ensures section.host.Some? ==> s.host == section.host.value
    ensures section.host.None? ==> s.host == DefaultHost
    ensures section.name.Some? ==> s.name == section.name.value
    ensures section.name.None? ==> s.name == DefaultName
  {
    Settings(
      section.url,
      GetOr(section.dbType, DefaultType),
      GetOr(section.host, DefaultHost),
      GetOr(section.name, DefaultName),
      GetOr(env.dbUser, GetOr(section.user, "")),
      GetOr(env.dbPassword, GetOr(section.password, "")))
  }

  /** With an empty section and no environment variables, every default applies. */
  lemma ResolveDefaults()
    ensures Resolve(DbSection(None, None, None, None, None, None), Environment(None, None))
         == Settings(None, "sqlite", "localhost", "simple_shop", "", "")
  {
  }

  /** The configured URL wins when it is truthy: present and not empty. */
  predicate Configured(s: Settings)
  {
    s.url.Some? && s.url.value != ""
  }

  /** Credentials are used only when both are truthy. */
  predicate Credentialed(s: Settings)
  {
    s.user != "" && s.password != ""
  }

  /** The connection URL the script hands to the database engine. */
  function Url(s: Settings): (r: string)
    ensures Configured(s) ==> r == s.url.value
    ensures !Configured(s) ==> |r| >= |s.dbType| + 3 && r[..|s.dbType| + 3] == s.dbType + "://"
  {
    if Configured(s) then s.url.value
    else if Credentialed(s) then s.dbType + "://" + s.user + ":" + s.password + "@" + s.host + "/" + s.name
    else if s.dbType == "sqlite" then s.dbType + "://" + s.name
    else s.dbType + "://" + s.host + "/" + s.name
  }

  /** Without a configured URL but with both credentials, the URL carries them before the host. */
  lemma CredentialedUrl(s: Settings)
    requires !Configured(s) && Credentialed(s)
    ensures Url(s) == s.dbType + "://" + s.user + ":" + s.password + "@" + s.host + "/" + s.name
  {
  }

  /** Without a configured URL or credentials, any type but sqlite names the host and the database. */
  lemma HostUrl(s: Settings)
    requires !Configured(s) && !Credentialed(s) && s.dbType != "sqlite"
    ensures Url(s) == s.dbType + "://" + s.host + "/" + s.name
  {
  }

  /** A configured URL is used as it is, whatever the other settings are. */
  lemma ConfiguredUrlWins(s: Settings, t: Settings)
    requires Configured(s) && t.url == s.url
    ensures Url(s) == Url(t) == s.url.value
  {
  }

  /** Without a URL and without credentials, a sqlite URL names only the database: the host is ignored. */
  lemma SqliteIgnoresHost(s: Settings, host: string)
    requires !Configured(s) && !Credentialed(s) && s.dbType == "sqlite"
    ensures Url(s.(host := host)) == Url(s) == "sqlite://" + s.name
  {
  }

  /** The part of `u` before the first `c`, or all of `u` when it has none. */
  function TakeUntil(u: string, c: char): (p: string)
    ensures |p| <= |u| && p == u[..|p|]
    ensures c !in p
  {
    if u == [] || u[0] == c then [] else [u[0]] + TakeUntil(u[1..], c)
  }

  lemma {:induction false} TakeUntilStopsAt(a: string, b: string, c: char)
    requires c !in a
    requires |b| > 0 && b[0] == c
    ensures TakeUntil(a + b, c) == a
  {
    if a == [] {
      assert a + b == b;
    } else {
      assert (a + b)[1..] == a[1..] + b;
      TakeUntilStopsAt(a[1..], b, c);
    }
  }

  /** The scheme of a URL: everything before its first colon. */
  function SchemeOf(u: string): string
  {
    TakeUntil(u, ':')
  }

  /** The part of `u` after its last `c`, or all of `u` when it has none. */
  function AfterLast(u: string, c: char): (s: string)
    ensures |s| <= |u| && s == u[|u| - |s|..]
    ensures c !in s
  {
    if u == [] || u[|u| - 1] == c then [] else AfterLast(u[..|u| - 1], c) + [u[|u| - 1]]
  }

  lemma {:induction false} AfterLastStopsAt(a: string, b: string, c: char)
    requires c !in b
    ensures AfterLast(a + [c] + b, c) == b
  {
    var u := a + [c] + b;
    if b != [] {
      assert u[..|u| - 1] == a + [c] + b[..|b| - 1];
      AfterLastStopsAt(a, b[..|b| - 1], c);
    }
  }

  /** The database name of a URL: everything after its last slash. */
  function DatabaseOf(u: string): string
  {
    AfterLast(u, '/')
  }

  /** The database type can be read back from an assembled URL. */
  lemma SchemeRoundTrip(s: Settings)
    requires !Configured(s) && ':' !in s.dbType
    ensures SchemeOf(Url(s)) == s.dbType
  {
    var u := Url(s);
    assert u == s.dbType + u[|s.dbType|..];
    TakeUntilStopsAt(s.dbType, u[|s.dbType|..], ':');
  }

  /** The database name can be read back from an assembled URL, on every branch. */
  lemma DatabaseRoundTrip(s: Settings)
    requires !Configured(s) && '/' !in s.name
    ensures DatabaseOf(Url(s)) == s.name
  {
    var u := Url(s);
    if Credentialed(s) {
      assert u == (s.dbType + "://" + s.user + ":" + s.password + "@" + s.host) + ['/'] + s.name;
      AfterLastStopsAt(s.dbType + "://" + s.user + ":" + s.password + "@" + s.host, s.name, '/');
    } else if s.dbType == "sqlite" {
      assert u == (s.dbType + ":/") + ['/'] + s.name;
      AfterLastStopsAt(s.dbType + ":/", s.name, '/');
    } else {
      assert u == (s.dbType + "://" + s.host) + ['/'] + s.name;
      AfterLastStopsAt(s.dbType + "://" + s.host, s.name, '/');
    }
  }

  /** When no other setting holds an '@', the URL holds one exactly when the
      credentials are in it. */
  lemma CredentialsShownIffGiven(s: Settings)
    requires !Configured(s)
    requires '@' !in s.dbType && '@' !in s.host && '@' !in s.name
    ensures '@' in Url(s) <==> Credentialed(s)
  {
    var u := Url(s);
    if Credentialed(s) {
      var before := s.dbType + "://" + s.user + ":" + s.password;
      assert u == before + "@" + s.host + "/" + s.name;
      assert u[|before|] == '@';
    } else if s.dbType == "sqlite" {
      assert u == s.dbType + "://" + s.name;
    } else {
      assert u == s.dbType + "://" + s.host + "/" + s.name;
    }
  }

  /** The URL the script builds from the file and the environment. */
  function ConnectionUrl(section: DbSection, env: Environment): (r: string)
    ensures section.url.Some? && section.url.value != "" ==> r == section.url.value
    ensures !(section.url.Some? && section.url.value != "") ==>
      var prefix := GetOr(section.dbType, DefaultType) + "://";
      |r| >= |prefix| && r[..|prefix|] == prefix
  {
    Url(Resolve(section, env))
  }

  /** A truthy configured URL is used whatever the environment holds. */
  lemma ConfiguredUrlOverridesEnvironment(section: DbSection, env: Environment)
    requires section.url.Some? && section.url.value != ""
    ensures ConnectionUrl(section, env) == section.url.value
  {
  }

  /** Credentials from the environment take the place of those in the file. */
  lemma EnvironmentCredentialsUsed(section: DbSection, user: string, password: string)
    requires section.url.None? || section.url == Some("")
    requires user != "" && password != ""
    ensures ConnectionUrl(section, Environment(Some(user), Some(password)))
         == GetOr(section.dbType, DefaultType) + "://" + user + ":" + password + "@"
            + GetOr(section.host, DefaultHost) + "/" + GetOr(section.name, DefaultName)
  {
  }
}
