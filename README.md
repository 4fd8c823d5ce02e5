# GLAuth Kubernetes operator: a Dafny model of its integrations core

The GLAuth charm runs the GLAuth LDAP server under Juju. Around it sits a core of
plain logic:

- It creates service bind accounts in GLAuth's PostgreSQL tables (a group, a user, a
  search capability) and resets their passwords.
- It loads the bind account either from a remote LDAP server or from the database.
- It publishes LDAP provider data: URLs, bind DN and bind password.
- It assembles the TLS certificate request and writes or removes the certificate files.
- It transfers its CA bundle on `send-ca-cert` relations.
- It guards event handlers with leader, container, integration and database checks.
- It exchanges data over two relation libraries, `glauth-auxiliary` and `ldap`.

The project models this core in Dafny, one module per source file:

| module | models |
|---|---|
| `Database` | `src/database.py`: the three ORM tables and the `Operation` session |
| `Configs` | `src/configs.py`: `DatabaseConfig` and its DSN, `LdapServerConfig`, `StartTLSConfig` |
| `Integrations` | `src/integrations.py`: bind accounts, `LdapIntegration`, provider data, certificates and their transfer |
| `Validators` | `src/validators.py`: the four guard decorators |
| `GlauthAuxiliary` | `lib/charms/glauth_utils/v0/glauth_auxiliary.py` |
| `GlauthEndpoint` | `lib/charms/glauth_k8s/v0/glauth_endpoint.py` |
| `Relations`, `Strings`, `Wrappers` | the operator framework's relation view (application bags, `get_relation`), Python `str.split`/`rsplit`, and `Option`/`Result` |

Some objects are changed in place by their methods. These become classes whose methods are
proved against pure specification functions:

- the database and its session (`Store`, `Operation`);
- `LdapIntegration.bind_account`;
- the certificate files on disk;
- the transferred certificates;
- a unit's status and deferral flag;
- the relation bags a provider writes.

The lemmas then prove what the charm relies on about those functions:

- Ensuring a bind account is idempotent and keeps the unique-name constraints.
- The DSN and the bind DN can be read back.
- Published relation data is read back by the other side.
- A guard stack calls its handler exactly when every guard passes.

## Model

| member | source | states |
|---|---|---|
| `Database.NewUser` | src/database.py:25-33 | a new `User` is transient, takes the given name, uid, gid and SHA-256 hash, with `""` for an omitted hash and for the bcrypt hash |
| `Database.NewCapability` | src/database.py:44-50 | a new `Capability` defaults to action `search` on object `*` for the given user id |
| `Database.MatchesName` | src/database.py:73-76 | the filter `X.name == n` selects a row exactly when the row's name is `n` |
| `Database.FirstMatchAppend` | src/database.py:73-76 | when no stored row matches, `select` after appending a matching row finds that row |
| `Database.StageConsistent` | src/database.py:78-79 | `add` keeps every row in its own table and row ids distinct |
| `Database.StageInserts` | src/database.py:78-79 | adding a new row appends it with a fresh id and leaves every other row and table unchanged |
| `Database.StageUpdates` | src/database.py:78-79 | adding a changed stored row overwrites exactly that row |
| `Database.Operation.Enter` | src/database.py:53-60 | opening a session starts from the committed tables |
| `Database.Operation.Select` | src/database.py:73-76 | `select` returns none exactly when no row matches all criteria; otherwise it returns the first matching row |
| `Database.Operation.Add` | src/database.py:78-79 | `add` stages the row in the session view (`Stage`) only; the committed tables do not change |
| `Database.Operation.Exit` | src/database.py:62-71 | an exception rolls back; a clean exit commits the session; a commit that breaks a unique name fails with an integrity error and the database and the session view keep their contents |
| `Configs.Dsn` | src/configs.py:28-35 | the DSN starts with the `postgresql+psycopg://` scheme and has the substituted fields after it |
| `Configs.DsnRoundTrip` | src/configs.py:28-35 | the DSN carries user, password, endpoint and database in order, with `None` written as `"None"`, and each can be read back |
| `Configs.LoadDatabaseConfig` | src/configs.py:37-50 | no relation gives no configuration; otherwise `endpoints`, `username` and `password` come from the first relation's data (each absent key gives no value) and the database name from the requirer |
| `Configs.LoadDatabaseConfigReadsFirstOnly` | src/configs.py:37-50 | only the first relation's data is read |
| `Configs.LoadLdapServerConfig` | src/configs.py:57-62 | no consumed provider data gives no configuration; otherwise the configuration holds exactly that data |
| `Configs.LoadStartTlsConfig` | src/configs.py:71-75 | StartTLS is on unless `starttls_enabled` says otherwise, with the fixed server key and certificate paths |
| `Integrations.EnsureGroupStep` | src/integrations.py:68-70 | the group is created only when no group of that name exists, with gid 5501; the constraints are kept |
| `Integrations.EnsureUserStep` | src/integrations.py:72-81 | the user is created only when no user of that name exists, with uid 5001, gid 5501 and the hash; the constraints are kept |
| `Integrations.EnsureCapabilityStep` | src/integrations.py:83-85 | a search capability for uid 5001 is created only when none exists; the constraints are kept |
| `Integrations.EnsureBindAccountProvides` | src/integrations.py:66-87 | after `_create_bind_account` the group, the user and the capability all exist and the unique names hold; each table is either unchanged or gains exactly one appended row |
| `Integrations.EnsureBindAccountIdempotent` | src/integrations.py:66-87 | creating the same bind account a second time changes nothing, whatever password hash is offered |
| `Integrations.EnsureBindAccountStoresHash` | src/integrations.py:72-81 | for a new user the stored hash is the hash of the generated password |
| `Integrations.ResetPasswordChangesOnlyThatUser` | src/integrations.py:54-63 | a reset sets the named user's hash and leaves every other row, table and the constraints as they were |
| `Integrations.CreateBindAccount` | src/integrations.py:66-87 | the database afterwards is `EnsureBindAccount` of the old one (group, user and capability each added only when missing); the account's password is the fresh token for a new user and `""` for an existing one |
| `Integrations.ResetAccountPassword` | src/integrations.py:54-63 | a missing user raises `No user '<name>' found` and leaves the database unchanged; otherwise the database becomes `ResetPassword` of the old one, which sets that user's hash to the hash of the new token, and the token is returned |
| `Integrations.ParseComponentsFails` | src/integrations.py:114-117 | the dict comprehension of `ParseBindDn` fails (`IndexError`) exactly when some comma-separated part has no `=` |
| `Integrations.ParseComponentsLastWins` | src/integrations.py:114-117 | in the parsed DN a later part with the same key overrides an earlier one |
| `Integrations.BindDnRoundTrip` | src/integrations.py:114-117 | the DN `cn=<cn>,ou=<ou>,<base>` parses back to `cn` and `ou` when neither value holds `,` or `=` and every component of the base DN has a key other than `cn` and `ou` |
| `Integrations.EmptyBaseDnDoesNotParse` | src/integrations.py:114-117 | with an empty base DN the trailing empty part makes the parse fail |
| `Integrations.LdapUrls` | src/integrations.py:122-128 | with ingress URLs, one `ldap://` URL per ingress URL; otherwise the in-cluster service URL on port 3893 |
| `Integrations.LdapsUrls` | src/integrations.py:130-139 | no LDAPS URLs when LDAPS is off; otherwise the same shapes with `ldaps://` and the LDAPS port |
| `Integrations.ProviderData` | src/integrations.py:162-175 | provider data exists exactly when a bind account is loaded; then its bind DN is `cn=<cn>,ou=<ou>,<base_dn>`, its auth method `simple`, its password the account's, and the URLs, base DN and StartTLS flag are the ones given |
| `Integrations.ProviderDataRoundTrip` | src/integrations.py:162-175 | under the conditions of `BindDnRoundTrip`, published provider data (simple auth, the given URLs and base DN) reads back as the same account when consumed from a remote LDAP server |
| `Integrations.LdapIntegration.LoadBindAccountFromRemoteLdap` | src/integrations.py:108-120 | no remote data leaves the account unchanged; otherwise the account is `AccountFromRemote` of the data (the remote `cn`, `ou` and password), or the DN parse error is raised |
| `Integrations.LdapIntegration.LoadBindAccount` | src/integrations.py:95-106 | remote data takes priority; without a database nothing is loaded; with one the account is ensured, and the password is the fresh token for a new user, the stored bind password when it is non-empty, or a reset token otherwise |
| `Integrations.CertData` | src/integrations.py:261-267 | the CA, chain and certificate come from the provider certificate, when one is assigned |
| `Integrations.CertsReady` | src/integrations.py:283-285 | ready certificates (an assigned certificate and a private key) give certificate data with the CA, the chain and the certificate all present |
| `Integrations.ReadyCertificatesComplete` | src/integrations.py:340-341 | when certificates are ready, their data counts as complete exactly when the CA, the chain and the certificate are all non-empty |
| `Integrations.IngressHostsSnoc` | src/integrations.py:215-225 | each non-empty ingress URL adds its host, the text before the last `:` |
| `Integrations.RequestAttributes` | src/integrations.py:207-225 | the certificate request names the service host, with the service host plus the DNS ingress hosts as DNS SANs and the IP ingress hosts as IP SANs |
| `Integrations.CertificatesIntegration.UpdateCertificates` | src/integrations.py:269-319 | without a relation or without `CertsReady` the four certificate files are removed; otherwise the refreshed trust-store bundle, the CA, the private key and the server certificate are pushed to their paths and other files stay, unless the trust-store refresh fails, which raises `Update the TLS certificates failed.` and pushes nothing |
| `Integrations.SelectIds` | src/integrations.py:337-338 | the transfer targets every relation, or only the given one |
| `Integrations.TransferredOutcome` | src/integrations.py:329-352 | with complete data every selected relation gets the bundle, otherwise each selected relation's certificates are removed; unselected relations keep theirs |
| `Integrations.CertificatesTransferIntegration.TransferCertificates` | src/integrations.py:329-352 | the published certificates afterwards are the transfer outcome on the selected relations |
| `Validators.RunOutcome` | src/validators.py:14-80 | `Run`: a stack of guards calls the handler exactly when every guard passes, and then returns the handler's state and result; otherwise the first failing guard decides the state and no handler runs |
| `Validators.NonLeaderIsQuiet` | src/validators.py:14-22 | on a non-leader unit nothing is run, deferred or set |
| `Validators.FailingGuardDefers` | src/validators.py:25-80 | a failing container, integration or database guard defers the event and sets its status |
| `Validators.Unit.LeaderUnit` | src/validators.py:14-22 | `leader_unit` is `Run` of the leader guard: the handler runs only on the leader |
| `Validators.Unit.ValidateContainerConnectivity` | src/validators.py:25-39 | `Run` of the container guard: an unreachable container defers and waits with `Waiting to connect to container.` |
| `Validators.Unit.ValidateIntegrationExists` | src/validators.py:42-62 | `Run` of the integration guard: a missing integration defers and blocks with `Missing required integration <name>` |
| `Validators.Unit.ValidateDatabaseResource` | src/validators.py:65-80 | `Run` of the database guard: a database not yet created defers and waits with `Waiting for database creation` |
| `Relations.UpdateBag` | lib/charms/glauth_utils/v0/glauth_auxiliary.py:224 | `update` assigns every key of the patch: a non-empty value is stored, an empty value deletes the key, and keys the patch does not name and other bags stay |
| `Relations.MergeAppData` | lib/charms/glauth_utils/v0/glauth_auxiliary.py:212-224 | each selected relation's application bag is updated with the patch by `UpdateBag`, and every other relation is unchanged |
| `Relations.MergeAppDataIdempotent` | lib/charms/glauth_utils/v0/glauth_auxiliary.py:212-224 | publishing the same data twice is publishing it once |
| `Relations.GetRelation` | lib/charms/glauth_utils/v0/glauth_auxiliary.py:269-270 | without an id: no relation, the only one, or an error when there are several; with an id: the relation carrying it, if any |
| `GlauthAuxiliary.ModelDump` | lib/charms/glauth_utils/v0/glauth_auxiliary.py:157-163 | the dump holds exactly the four fields |
| `GlauthAuxiliary.FromBag` | lib/charms/glauth_utils/v0/glauth_auxiliary.py:157-163 | validation succeeds exactly when all four fields are present, and otherwise fails with a validation error |
| `GlauthAuxiliary.FromBagModelDump` | lib/charms/glauth_utils/v0/glauth_auxiliary.py:157-163 | a dump reads back as the same data, whatever other keys the bag holds |
| `GlauthAuxiliary.ConsumeAuxiliaryRelationData` | lib/charms/glauth_utils/v0/glauth_auxiliary.py:263-275 | nothing without a relation or with an empty remote bag; too many relations is an error; otherwise the validated remote data |
| `GlauthAuxiliary.PublishedDataIsConsumed` | lib/charms/glauth_utils/v0/glauth_auxiliary.py:212-275 | data with no empty field that the provider publishes, the requirer consumes unchanged |
| `GlauthAuxiliary.PublishedEmptyFieldIsLost` | lib/charms/glauth_utils/v0/glauth_auxiliary.py:212-275 | a field published empty is deleted, so the requirer finds no data or fails validation |
| `GlauthAuxiliary.AuxiliaryProvider.OnRelationCreated` | lib/charms/glauth_utils/v0/glauth_auxiliary.py:207-210 | the leader alone emits `auxiliary_requested` for the new relation |
| `GlauthAuxiliary.AuxiliaryProvider.UpdateRelationAppData` | lib/charms/glauth_utils/v0/glauth_auxiliary.py:212-224 | on the leader the relations become the merge of the dumped data; a non-leader changes nothing |
| `GlauthAuxiliary.AuxiliaryRequirer.OnRelationChanged` | lib/charms/glauth_utils/v0/glauth_auxiliary.py:251-257 | the leader emits `auxiliary_ready` once the remote bag holds data, and nothing is emitted otherwise |
| `GlauthAuxiliary.AuxiliaryRequirer.OnAuxiliaryRelationBroken` | lib/charms/glauth_utils/v0/glauth_auxiliary.py:259-261 | a broken relation always emits `auxiliary_unavailable` |
| `GlauthEndpoint.EndpointPatch` | lib/charms/glauth_k8s/v0/glauth_endpoint.py:89-100 | the published bag holds only `endpoint` |
| `GlauthEndpoint.GetLdapEndpoint` | lib/charms/glauth_k8s/v0/glauth_endpoint.py:133-151 | a first relation without a known remote application is a missing relation; a remote bag without `endpoint` is missing data; otherwise exactly `{endpoint: value}`; each error carries its class's message |
| `GlauthEndpoint.GetLdapEndpointReadsFirstOnly` | lib/charms/glauth_k8s/v0/glauth_endpoint.py:133-151 | relations after the first do not change the answer |
| `GlauthEndpoint.SentEndpointIsRead` | lib/charms/glauth_k8s/v0/glauth_endpoint.py:89-151 | a non-empty endpoint the provider sends, the requirer reads back |
| `GlauthEndpoint.SentEmptyEndpointIsMissing` | lib/charms/glauth_k8s/v0/glauth_endpoint.py:89-151 | an empty endpoint deletes the key, so the requirer reports missing data |
| `GlauthEndpoint.LdapEndpointProvider.OnProviderEndpointRelationCreated` | lib/charms/glauth_k8s/v0/glauth_endpoint.py:86-87 | every unit emits `ready` on relation creation; the relations are unchanged |
| `GlauthEndpoint.LdapEndpointProvider.SendLdapEndpoint` | lib/charms/glauth_k8s/v0/glauth_endpoint.py:89-100 | on the leader every relation's application bag gets the endpoint; a non-leader changes nothing |

## Left out

- Opening a database connection from the DSN and closing the session are left out. A
  session works on a `Store` object passed in.
- The model checks unique names only at commit. The database would reject the row at the
  first flush (the next `select` in the session, or the commit), which the model does not
  capture.
- `Configs.LoadDatabaseConfig` requires that the fetched relation data has an entry for
  the first relation, so the `KeyError` of a missing entry is not modelled; the database
  requirer library fetches data for every relation it lists.
- `Integrations.ProviderData`: the base DN is a string. An unset `base_dn` option, which the
  f-string would render as `None`, is not modelled.
- `select` returns the first match in insertion order. The database's own row order is not
  modelled.
- `secrets.token_hex` and `hashlib.sha256` are parameters: a non-empty token and a hash
  function.
- These library calls are parameters holding their answer: `get_bind_password`,
  `consume_ldap_relation_data`, the ingress URLs and `ipaddress.ip_address` (as `isIp`).
- `Integrations.LdapsUrls`: the LDAPS port is a parameter. `GLAUTH_LDAPS_PORT` is imported
  by `src/integrations.py` but not defined in `src/constants.py`.
- `Integrations.CertificatesIntegration.UpdateCertificates` models the container's files
  as a map from path to contents. The local copies written before the trust-store refresh,
  the TLS library's relation handling and the refresh's retries are left out. The
  refreshed bundle, or its failure, is a parameter.
- `update_certificates` can also raise the `get_relation` error for too many relations.
  That path is not modelled.
- `Relations.GetRelation`: an id that no live relation carries gives `None`. The operator
  framework may instead return an object for a dead relation.
- `Validators`: a handler is a total function on the unit's status and deferral flag, and
  deferral is a flag. Python cannot tell a skipped handler from one that returns `None`;
  the model can.
- Emitted events are kept as logs or counters. Their observers are not run.
- `Configs.LoadStartTlsConfig` takes a configuration of booleans only.
- `src/charm.py`, `src/kubernetes_resource.py`, `src/utils.py`, `ConfigFile.render` and the
  Pebble layer are not part of this model.
- `AuxiliaryIntegration.auxiliary_data` is not part of this model: it calls `AuxiliaryData()`
  without its required fields. Also left out: `provider_base_data`, the charm
  configuration properties and all logging.
