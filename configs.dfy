/**
 * The configuration values the charm loads from its relations and its own config:
 * the database connection (and its DSN), the remote LDAP server data, and StartTLS.
 */
module Configs {
  import opened Wrappers
  import opened Strings
  import opened Relations

  const DsnScheme: string := "postgresql+psycopg://"
  const ServerKey: string := "/etc/ssl/private/glauth-server.key"
  const ServerCert: string := "/usr/local/share/ca-certificates/glauth-server.crt"

  /** `DatabaseConfig`: every field is optional. */
  datatype DatabaseConfig = DatabaseConfig(
    endpoint: Option<string>, database: Option<string>, username: Option<string>, password: Option<string>)

  /** The text `string.Template.substitute` writes for a field: `str(None)` is `"None"`. */
  function Show(v: Option<string>): string
  {
    if v.Some? then v.value else "None"
  }

  /** `DatabaseConfig.dsn`: `postgresql+psycopg://$username:$password@$endpoint/$database`. */
  function Dsn(c: DatabaseConfig): (r: string)
    ensures |r| > |DsnScheme| && r[..|DsnScheme|] == DsnScheme
  {
    DsnScheme + (Show(c.username) + [':'] + (Show(c.password) + ['@'] + (Show(c.endpoint) + ['/'] + Show(c.database))))
  }

  /** The four substituted fields of a DSN, read back left to right at the first `:`, `@` and `/`. */
  function ParseDsn(s: string): Option<(string, string, string, string)>
  {
    if |s| < |DsnScheme| || s[..|DsnScheme|] != DsnScheme then None
    else
      match SplitOnce(s[|DsnScheme|..], ':')
      case None => None
      case Some((user, afterUser)) =>
        match SplitOnce(afterUser, '@')
        case None => None
        case Some((password, afterPassword)) =>
          match SplitOnce(afterPassword, '/')
          case None => None
          case Some((endpoint, database)) => Some((user, password, endpoint, database))
  }

  /**
   * The DSN carries its four fields in order: when the user name has no `:`, the password
   * no `@` and the endpoint no `/`, each one can be read back.
   */
  lemma DsnRoundTrip(c: DatabaseConfig)
    requires ':' !in Show(c.username) && '@' !in Show(c.password) && '/' !in Show(c.endpoint)
    ensures ParseDsn(Dsn(c)) == Some((Show(c.username), Show(c.password), Show(c.endpoint), Show(c.database)))
  {
    var u, p, e, d := Show(c.username), Show(c.password), Show(c.endpoint), Show(c.database);
    var afterPassword := e + ['/'] + d;
    var afterUser := p + ['@'] + afterPassword;
    var rest := u + [':'] + afterUser;
    assert (DsnScheme + rest)[..|DsnScheme|] == DsnScheme;
    assert (DsnScheme + rest)[|DsnScheme|..] == rest;
    SplitOnceConcat(u, ':', afterUser);
    SplitOnceConcat(p, '@', afterPassword);
    SplitOnceConcat(e, '/', d);
  }

  /** What the `pg-database` requirer offers: its relations, the data it fetched per relation, the database name. */
  datatype DatabaseRequirer = DatabaseRequirer(relationIds: seq<int>, fetched: map<int, Bag>, database: string)

  /** `fetch_relation_data()` has an entry for the relation the loader reads. */
  predicate FetchedFirst(req: DatabaseRequirer)
  {
    |req.relationIds| > 0 ==> req.relationIds[0] in req.fetched
  }

  /**
   * `DatabaseConfig.load`: nothing without a relation; otherwise the first relation's
   * `endpoints`, `username` and `password` (each absent key gives no value) and the
   * requirer's own database name.
   */
  function LoadDatabaseConfig(req: DatabaseRequirer): (r: Option<DatabaseConfig>)
    requires FetchedFirst(req)
    ensures r.None? <==> |req.relationIds| == 0
    ensures r.Some? ==>
      var bag := req.fetched[req.relationIds[0]];
      && r.value.database == Some(req.database)
      && (r.value.endpoint.Some? <==> "endpoints" in bag)
      && (r.value.endpoint.Some? ==> r.value.endpoint.value == bag["endpoints"])
      && (r.value.username.Some? <==> "username" in bag)
      && (r.value.username.Some? ==> r.value.username.value == bag["username"])
      && (r.value.password.Some? <==> "password" in bag)
      && (r.value.password.Some? ==> r.value.password.value == bag["password"])
  {
    if |req.relationIds| == 0 then None
    else
      var bag := req.fetched[req.relationIds[0]];
      Some(DatabaseConfig(Get(bag, "endpoints"), Some(req.database), Get(bag, "username"), Get(bag, "password")))
  }

  /** The loader reads the first relation only: requirers that agree on it load the same configuration. */
  lemma LoadDatabaseConfigReadsFirstOnly(a: DatabaseRequirer, b: DatabaseRequirer)
    requires FetchedFirst(a) && FetchedFirst(b)
    requires |a.relationIds| > 0 && |b.relationIds| > 0
    requires a.fetched[a.relationIds[0]] == b.fetched[b.relationIds[0]] && a.database == b.database
    ensures LoadDatabaseConfig(a) == LoadDatabaseConfig(b)
  {
  }

  /** What the LDAP provider library publishes for a bind account (`LdapProviderData`). */
  datatype LdapProviderData = LdapProviderData(
    urls: seq<string>, ldapsUrls: seq<string>, baseDn: string, bindDn: string,
    bindPassword: Option<string>, authMethod: string, starttls: bool)

  /** `LdapServerConfig`. */
  datatype LdapServerConfig = LdapServerConfig(ldapServer: Option<LdapProviderData>)

  /** `LdapServerConfig.load`, given what `consume_ldap_relation_data()` returned. */
  function LoadLdapServerConfig(consumed: Option<LdapProviderData>): (r: Option<LdapServerConfig>)
    ensures r.None? <==> consumed.None?
    ensures r.Some? ==> r.value.ldapServer == consumed
  {
    if consumed.None? then None else Some(LdapServerConfig(consumed))
  }

  /** `StartTLSConfig`. */
  datatype StartTlsConfig = StartTlsConfig(enabled: bool, tlsKey: string, tlsCert: string)

  /** `StartTLSConfig.load`: `starttls_enabled` from the config (on when absent) and the fixed key and certificate paths. */
  function LoadStartTlsConfig(config: map<string, bool>): (r: StartTlsConfig)
    ensures "starttls_enabled" !in config ==> r.enabled
    ensures "starttls_enabled" in config ==> r.enabled == config["starttls_enabled"]
    ensures r.tlsKey == ServerKey && r.tlsCert == ServerCert
  {
    StartTlsConfig(Get(config, "starttls_enabled").GetOr(true), ServerKey, ServerCert)
  }
}
