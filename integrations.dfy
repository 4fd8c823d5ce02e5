/**
 * The charm's integrations: provisioning the LDAP bind account in the GLAuth database,
 * reconciling its password, the LDAP provider data (URLs and bind DN) and reading a bind
 * account back from a remote LDAP server's data, and the TLS certificates (the names
 * requested, readiness, the files in the workload and the fan-out to transfer relations).
 *
 * `secrets.token_hex()` and `hashlib.sha256(...).hexdigest()` are parameters: a token is
 * any non-empty string, the hash any function.
 */
module Integrations {
  import opened Wrappers
  import opened Strings
  import opened Database
  import opened Configs

  const DefaultUid: int := 5001
  const DefaultGid: int := 5501
  /** `GLAUTH_LDAP_PORT` (3893) as it appears in a URL. */
  const LdapPort: string := "3893"

  datatype BindAccount = BindAccount(cn: string, ou: string, password: Option<string>)

  datatype Error = RuntimeError(message: string) | IndexError

  // ---------------------------------------------------------------------------
  // Bind-account provisioning over the tables

  predicate HasGroup(t: Tables, name: string) { AnyMatch(t.groups, [NameIs(name)]) }
  predicate HasUser(t: Tables, name: string) { AnyMatch(t.users, [NameIs(name)]) }
  predicate HasCapability(t: Tables, userId: int) { AnyMatch(t.capabilities, [UserIdIs(userId)]) }

  /** Add the group with gid 5501 unless one with this name exists. */
  function EnsureGroup(t: Tables, groupName: string): Tables
  {
    if HasGroup(t, groupName) then t else Stage(t, NewGroup(groupName, DefaultGid))
  }

  /** Add the user with uid 5001, gid 5501 and the given hash unless one with this name exists. */
  function EnsureUser(t: Tables, userName: string, passwordSha256: string): Tables
  {
    if HasUser(t, userName) then t else Stage(t, NewUser(userName, DefaultUid, DefaultGid, Some(passwordSha256)))
  }

  /** Add the default capability for uid 5001 unless that user already has one. */
  function EnsureCapability(t: Tables): Tables
  {
    if HasCapability(t, DefaultUid) then t else Stage(t, NewCapability(DefaultUid))
  }

  /** The tables after `_create_bind_account`: the group, then the user, then the capability, each only when missing. */
  function EnsureBindAccount(t: Tables, userName: string, groupName: string, passwordSha256: string): Tables
  {
    EnsureCapability(EnsureUser(EnsureGroup(t, groupName), userName, passwordSha256))
  }

  /** A name not yet in a unique column can be added to it. */
  lemma AppendKeepsUniqueNames(rows: seq<Row>, row: Row, name: string)
    requires UniqueNames(rows) && !AnyMatch(rows, [NameIs(name)]) && NameOf(row) == Some(name)
    ensures UniqueNames(rows + [row])
  {
    var rows' := rows + [row];
    forall i | 0 <= i < |rows|
      ensures NameOf(rows[i]) != Some(name)
    {
      MatchesName(rows[i], name);
    }
    assert forall i :: 0 <= i < |rows| ==> rows'[i] == rows[i];
  }

  /** A missing group is appended with gid 5501; an existing one leaves the tables alone. */
  lemma EnsureGroupStep(t: Tables, groupName: string)
    requires Consistent(t) && Constraints(t)
    ensures var t1 := EnsureGroup(t, groupName);
      && Consistent(t1) && Constraints(t1) && HasGroup(t1, groupName)
      && t1.users == t.users && t1.capabilities == t.capabilities
      && (HasGroup(t, groupName) ==> t1.groups == t.groups)
      && (!HasGroup(t, groupName) ==>
            t1.groups == t.groups + [GroupRow(NextId(t.groups), groupName, DefaultGid)])
  {
    if !HasGroup(t, groupName) {
      var g := NewGroup(groupName, DefaultGid);
      StageConsistent(t, g);
      StageInserts(t, g);
      var t1 := Stage(t, g);
      var added := GroupRow(NextId(t.groups), groupName, DefaultGid);
      AppendKeepsUniqueNames(t.groups, added, groupName);
      assert t1.groups[|t.groups|] == added && MatchesAll(added, [NameIs(groupName)]);
    }
  }

  /** A missing user is appended with uid 5001, gid 5501 and the given hash; an existing one leaves the tables alone. */
  lemma EnsureUserStep(t: Tables, userName: string, passwordSha256: string)
    requires Consistent(t) && Constraints(t)
    ensures var t2 := EnsureUser(t, userName, passwordSha256);
      && Consistent(t2) && Constraints(t2) && HasUser(t2, userName)
      && t2.groups == t.groups && t2.capabilities == t.capabilities
      && (HasUser(t, userName) ==> t2.users == t.users)
      && (!HasUser(t, userName) ==>
            t2.users == t.users + [UserRow(NextId(t.users), userName, DefaultUid, DefaultGid, passwordSha256, "")])
  {
    if !HasUser(t, userName) {
      var u := NewUser(userName, DefaultUid, DefaultGid, Some(passwordSha256));
      StageConsistent(t, u);
      StageInserts(t, u);
      var t2 := Stage(t, u);
      var added := UserRow(NextId(t.users), userName, DefaultUid, DefaultGid, passwordSha256, "");
      AppendKeepsUniqueNames(t.users, added, userName);
      assert t2.users[|t.users|] == added && MatchesAll(added, [NameIs(userName)]);
    }
  }

  /** A missing capability for uid 5001 is appended with the defaults `search` on `*`. */
  lemma EnsureCapabilityStep(t: Tables)
    requires Consistent(t) && Constraints(t)
    ensures var t3 := EnsureCapability(t);
      && Consistent(t3) && Constraints(t3) && HasCapability(t3, DefaultUid)
      && t3.users == t.users && t3.groups == t.groups
      && (HasCapability(t, DefaultUid) ==> t3.capabilities == t.capabilities)
      && (!HasCapability(t, DefaultUid) ==>
            t3.capabilities == t.capabilities + [CapabilityRow(NextId(t.capabilities), DefaultUid, "search", "*")])
  {
    if !HasCapability(t, DefaultUid) {
      var c := NewCapability(DefaultUid);
      StageConsistent(t, c);
      StageInserts(t, c);
      var t3 := Stage(t, c);
      assert t3.capabilities[|t.capabilities|] == CapabilityRow(NextId(t.capabilities), DefaultUid, "search", "*");
    }
  }

  /**
   * After provisioning, the group, the user and the capability all exist, the constraints
   * still hold, and every row that was there before is still there, unchanged and in
   * place: each table only grows, by at most the one row it lacked.
   */
  lemma {:induction false} EnsureBindAccountProvides(t: Tables, userName: string, groupName: string, passwordSha256: string)
    requires Consistent(t) && Constraints(t)
    ensures var r := EnsureBindAccount(t, userName, groupName, passwordSha256);
      && Consistent(r) && Constraints(r)
      && HasGroup(r, groupName) && HasUser(r, userName) && HasCapability(r, DefaultUid)
      && (HasGroup(t, groupName) ==> r.groups == t.groups)
      && (!HasGroup(t, groupName) ==> r.groups == t.groups + [GroupRow(NextId(t.groups), groupName, DefaultGid)])
      && (HasUser(t, userName) ==> r.users == t.users)
      && (!HasUser(t, userName) ==>
            r.users == t.users + [UserRow(NextId(t.users), userName, DefaultUid, DefaultGid, passwordSha256, "")])
      && (HasCapability(t, DefaultUid) ==> r.capabilities == t.capabilities)
      && (!HasCapability(t, DefaultUid) ==>
            r.capabilities == t.capabilities + [CapabilityRow(NextId(t.capabilities), DefaultUid, "search", "*")])
  {
    EnsureGroupStep(t, groupName);
    var t1 := EnsureGroup(t, groupName);
    EnsureUserStep(t1, userName, passwordSha256);
    EnsureCapabilityStep(EnsureUser(t1, userName, passwordSha256));
  }

  /** Provisioning twice is provisioning once, whatever hash the second call would store. */
  lemma {:induction false} EnsureBindAccountIdempotent(t: Tables, userName: string, groupName: string, sha1: string, sha2: string)
    requires Consistent(t) && Constraints(t)
    ensures var once := EnsureBindAccount(t, userName, groupName, sha1);
      EnsureBindAccount(once, userName, groupName, sha2) == once
  {
    EnsureBindAccountProvides(t, userName, groupName, sha1);
    var once := EnsureBindAccount(t, userName, groupName, sha1);
    assert EnsureGroup(once, groupName) == once;
    assert EnsureUser(once, userName, sha2) == once;
  }

  /** The stored hash of the first user with this name. */
  function UserHash(t: Tables, userName: string): (r: Option<string>)
    requires Consistent(t)
  {
    match FirstMatch(t.users, [NameIs(userName)])
    case None => None
    case Some(i) => Some(t.users[i].passwordSha256)
  }

  /** A newly created user stores the hash it was created with. */
  lemma EnsureBindAccountStoresHash(t: Tables, userName: string, groupName: string, passwordSha256: string)
    requires Consistent(t) && Constraints(t) && !HasUser(t, userName)
    ensures Consistent(EnsureBindAccount(t, userName, groupName, passwordSha256))
    ensures UserHash(EnsureBindAccount(t, userName, groupName, passwordSha256), userName) == Some(passwordSha256)
  {
    EnsureBindAccountProvides(t, userName, groupName, passwordSha256);
    var added := UserRow(NextId(t.users), userName, DefaultUid, DefaultGid, passwordSha256, "");
    MatchesName(added, userName);
    FirstMatchAppend(t.users, added, [NameIs(userName)]);
  }

  /** The tables after `_reset_account_password` hashed a new password for the first user with this name. */
  function ResetPassword(t: Tables, userName: string, passwordSha256: string): Tables
  {
    match FirstMatch(t.users, [NameIs(userName)])
    case None => t
    case Some(i) => Stage(t, WithPassword(t.users[i], passwordSha256))
  }

  /** A user row with its `password_sha256` column set. */
  function WithPassword(row: Row, passwordSha256: string): Row
  {
    if row.UserRow? then row.(passwordSha256 := passwordSha256) else row
  }

  /**
   * Resetting a password changes that user's hash and nothing else: the other users, the
   * other columns, the groups and the capabilities stay as they were.
   */
  lemma ResetPasswordChangesOnlyThatUser(t: Tables, userName: string, passwordSha256: string)
    requires Consistent(t) && Constraints(t) && HasUser(t, userName)
    ensures var r := ResetPassword(t, userName, passwordSha256);
      && Consistent(r) && Constraints(r)
      && r.groups == t.groups && r.capabilities == t.capabilities
      && |r.users| == |t.users|
      && (forall i :: 0 <= i < |t.users| ==>
            r.users[i] == if NameOf(t.users[i]) == Some(userName)
                          then t.users[i].(passwordSha256 := passwordSha256) else t.users[i])
      && UserHash(r, userName) == Some(passwordSha256)
  {
    var k := FirstMatch(t.users, [NameIs(userName)]).value;
    var row := WithPassword(t.users[k], passwordSha256);
    assert TableOf(row) == Users;
    StageConsistent(t, row);
    StageUpdates(t, k, row);
    var r := ResetPassword(t, userName, passwordSha256);
    assert r.users == t.users[k := row];
    forall i | 0 <= i < |t.users|
      ensures NameOf(t.users[i]) == Some(userName) <==> i == k
    {
      MatchesName(t.users[k], userName);
      MatchesName(t.users[i], userName);
    }
    assert forall i :: 0 <= i < |t.users| ==> NameOf(r.users[i]) == NameOf(t.users[i]);
    assert UniqueNames(r.users);
    assert FirstMatch(r.users, [NameIs(userName)]) == Some(k) by {
      assert MatchesAll(r.users[k], [NameIs(userName)]);
      forall j | 0 <= j < k ensures !MatchesAll(r.users[j], [NameIs(userName)]) {
        assert r.users[j] == t.users[j];
      }
    }
  }

  /**
   * `_create_bind_account`: in one database operation, add the group, the user (with the
   * hash of a fresh token as its password) and the capability, each only when missing.
   * The account's password is the token when the user was created and `""` when it
   * already existed.
   */
  method CreateBindAccount(store: Store, userName: string, groupName: string, token: string, sha256: string -> string)
    returns (account: BindAccount)
    requires store.Valid() && token != ""
    modifies store
    ensures store.Valid()
    ensures store.tables == EnsureBindAccount(old(store.tables), userName, groupName, sha256(token))
    ensures account.cn == userName && account.ou == groupName
    ensures account.password == Some(if HasUser(old(store.tables), userName) then "" else token)
  {
    ghost var t := store.tables;
    EnsureBindAccountProvides(t, userName, groupName, sha256(token));
    EnsureGroupStep(t, groupName);
    var op := new Operation.Enter(store);
    var group := op.Select(Groups, [NameIs(groupName)]);
    if group.None? {
      op.Add(NewGroup(groupName, DefaultGid));
    }
    assert op.work == EnsureGroup(t, groupName);
    ghost var t1 := op.work;
    EnsureUserStep(t1, userName, sha256(token));
    assert HasUser(t1, userName) == HasUser(t, userName);
    var user := op.Select(Users, [NameIs(userName)]);
    var password := if user.None? then token else "";
    if user.None? {
      op.Add(NewUser(userName, DefaultUid, DefaultGid, Some(sha256(password))));
    }
    assert op.work == EnsureUser(t1, userName, sha256(token));
    var capability := op.Select(Capabilities, [UserIdIs(DefaultUid)]);
    if capability.None? {
      op.Add(NewCapability(DefaultUid));
    }
    assert op.work == EnsureBindAccount(t, userName, groupName, sha256(token));
    var err := op.Exit(false);
    account := BindAccount(userName, groupName, Some(password));
  }

  /** The message of the error raised when the user to reset does not exist. */
  function NoUserMessage(userName: string): string
  {
    "No user '" + userName + "' found"
  }

  /**
   * `_reset_account_password`: store the hash of a fresh token as the user's password
   * and return the token; without such a user, raise and leave the database unchanged.
   */
  method ResetAccountPassword(store: Store, userName: string, token: string, sha256: string -> string)
    returns (r: Result<string, Error>)
    requires store.Valid() && token != ""
    modifies store
    ensures store.Valid()
    ensures !HasUser(old(store.tables), userName) ==>
      r == Failure(RuntimeError(NoUserMessage(userName))) && store.tables == old(store.tables)
    ensures HasUser(old(store.tables), userName) ==>
      r == Success(token) && store.tables == ResetPassword(old(store.tables), userName, sha256(token))
  {
    var password := token;
    var passwordSha256 := sha256(password);
    var op := new Operation.Enter(store);
    var user := op.Select(Users, [NameIs(userName)]);
    if user.None? {
      var _ := op.Exit(true);
      return Failure(RuntimeError(NoUserMessage(userName)));
    }
    ResetPasswordChangesOnlyThatUser(op.work, userName, passwordSha256);
    var k := FirstMatch(op.work.users, [NameIs(userName)]).value;
    assert user.value == op.work.users[k] by {
      var i :| 0 <= i < |op.work.users| && op.work.users[i] == user.value
        && MatchesAll(user.value, [NameIs(userName)])
        && forall j :: 0 <= j < i ==> !MatchesAll(op.work.users[j], [NameIs(userName)]);
      assert i == k;
    }
    op.Add(user.value.(passwordSha256 := passwordSha256));
    var err := op.Exit(false);
    r := Success(password);
  }

  /** Python truthiness of an optional string: present and not empty. */
  predicate Truthy(s: Option<string>)
  {
    s.Some? && s.value != ""
  }

  // ---------------------------------------------------------------------------
  // The bind DN: `cn=<cn>,ou=<ou>,<base_dn>` and the naive parser

  /** One DN component, `<k>=<v>`. */
  function Pair(k: string, v: string): string
  {
    k + ['='] + v
  }

  /** The bind DN `provider_data` publishes: `cn=<cn>,ou=<ou>,<base_dn>`. */
  function BindDn(cn: string, ou: string, baseDn: string): string
  {
    Pair("cn", cn) + [','] + (Pair("ou", ou) + [','] + baseDn)
  }

  /** `part.split("=")[0]`. */
  function Key(part: string): string
  {
    Split(part, '=')[0]
  }

  /** `part.split("=")[1]`, for a part that has one. */
  function Value(part: string): string
  {
    var fields := Split(part, '=');
    if |fields| >= 2 then fields[1] else ""
  }

  /** The dict comprehension over the parts: later keys overwrite earlier ones; a part without `=` raises. */
  function ParseComponents(parts: seq<string>, acc: map<string, string>): Result<map<string, string>, Error>
  {
    if |parts| == 0 then Success(acc)
    else if |Split(parts[0], '=')| < 2 then Failure(IndexError)
    else ParseComponents(parts[1..], acc[Key(parts[0]) := Value(parts[0])])
  }

  /** `{part.split("=")[0]: part.split("=")[1] for part in bind_dn.split(",")}`. */
  function ParseBindDn(bindDn: string): Result<map<string, string>, Error>
  {
    ParseComponents(Split(bindDn, ','), map[])
  }

  /** Parsing fails exactly when some part has no `=`. */
  lemma {:induction false} ParseComponentsFails(parts: seq<string>, acc: map<string, string>)
    ensures ParseComponents(parts, acc).Failure? <==> exists i :: 0 <= i < |parts| && '=' !in parts[i]
    ensures ParseComponents(parts, acc).Failure? ==> ParseComponents(parts, acc) == Failure(IndexError)
  {
    if |parts| > 0 {
      SplitHasTwoPieces(parts[0], '=');
      if '=' in parts[0] {
        ParseComponentsFails(parts[1..], acc[Key(parts[0]) := Value(parts[0])]);
        assert forall i :: 1 <= i < |parts| ==> parts[i] == parts[1..][i - 1];
      }
    }
  }

  /**
   * On success every part's key is in the result, and it holds that part's value when no
   * later part repeats the key: the last duplicate wins. A key of `acc` that no part
   * names keeps its value.
   */
  lemma {:induction false} ParseComponentsLastWins(parts: seq<string>, acc: map<string, string>)
    requires ParseComponents(parts, acc).Success?
    ensures var m := ParseComponents(parts, acc).value;
      && (forall i :: 0 <= i < |parts| ==> Key(parts[i]) in m)
      && (forall i :: 0 <= i < |parts| && (forall j :: i < j < |parts| ==> Key(parts[j]) != Key(parts[i])) ==>
            m[Key(parts[i])] == Value(parts[i]))
      && (forall k :: k in acc && (forall i :: 0 <= i < |parts| ==> Key(parts[i]) != k) ==> k in m && m[k] == acc[k])
  {
    if |parts| > 0 {
      var acc' := acc[Key(parts[0]) := Value(parts[0])];
      ParseComponentsLastWins(parts[1..], acc');
      assert forall i :: 1 <= i < |parts| ==> parts[i] == parts[1..][i - 1];
    }
  }

  /** A part `k=v` whose key and value hold neither separator splits back into `k` and `v`. */
  lemma KeyValueOf(k: string, v: string)
    requires '=' !in k && '=' !in v
    ensures '=' in Pair(k, v) && Key(Pair(k, v)) == k && Value(Pair(k, v)) == v
  {
    assert Pair(k, v)[|k|] == '=';
    SplitConcat(k, '=', v);
    SplitNoSeparator(v, '=');
  }

  /** Every component of a base DN has a key, and none is `cn` or `ou`. */
  predicate BaseDnParses(baseDn: string)
  {
    forall i :: 0 <= i < |Split(baseDn, ',')| ==>
      '=' in Split(baseDn, ',')[i] && Key(Split(baseDn, ',')[i]) != "cn" && Key(Split(baseDn, ',')[i]) != "ou"
  }

  /**
   * Round trip: when `cn` and `ou` hold neither `,` nor `=` and the base DN's components
   * all have keys other than `cn` and `ou`, parsing the published bind DN gives back `cn`
   * and `ou`.
   */
  lemma BindDnRoundTrip(cn: string, ou: string, baseDn: string)
    requires ',' !in cn && '=' !in cn && ',' !in ou && '=' !in ou
    requires BaseDnParses(baseDn)
    ensures ParseBindDn(BindDn(cn, ou, baseDn)).Success?
    ensures var m := ParseBindDn(BindDn(cn, ou, baseDn)).value;
      "cn" in m && m["cn"] == cn && "ou" in m && m["ou"] == ou
  {
    BindDnParts(cn, ou, baseDn);
    KeyValueOf("cn", cn);
    KeyValueOf("ou", ou);
    ParsedLeadingPairs(Pair("cn", cn), Pair("ou", ou), Split(baseDn, ','), "cn", cn, "ou", ou);
  }

  /** The components of a bind DN: its `cn` part, its `ou` part, then those of the base DN. */
  lemma BindDnParts(cn: string, ou: string, baseDn: string)
    requires ',' !in cn && ',' !in ou
    ensures Split(BindDn(cn, ou, baseDn), ',') == [Pair("cn", cn), Pair("ou", ou)] + Split(baseDn, ',')
  {
    var p0, p1 := Pair("cn", cn), Pair("ou", ou);
    assert ',' !in p0 && ',' !in p1;
    SplitConcat(p0, ',', p1 + [','] + baseDn);
    SplitConcat(p1, ',', baseDn);
  }

  /** A key of the accumulator that no part names keeps its value. */
  lemma {:induction false} ParseComponentsKeeps(parts: seq<string>, acc: map<string, string>, k: string)
    requires ParseComponents(parts, acc).Success? && k in acc
    requires forall i :: 0 <= i < |parts| ==> Key(parts[i]) != k
    ensures k in ParseComponents(parts, acc).value && ParseComponents(parts, acc).value[k] == acc[k]
  {
    if |parts| > 0 {
      assert forall i :: 0 <= i < |parts[1..]| ==> parts[1..][i] == parts[i + 1];
      ParseComponentsKeeps(parts[1..], acc[Key(parts[0]) := Value(parts[0])], k);
    }
  }

  /** Parts that all have keys parse. */
  lemma ParseComponentsSucceeds(parts: seq<string>, acc: map<string, string>)
    requires forall i :: 0 <= i < |parts| ==> '=' in parts[i]
    ensures ParseComponents(parts, acc).Success?
  {
    ParseComponentsFails(parts, acc);
  }

  /** A leading part with a key is read into the accumulator before the rest. */
  lemma ParseComponentsStep(p: string, rest: seq<string>, acc: map<string, string>)
    requires '=' in p
    ensures ParseComponents([p] + rest, acc) == ParseComponents(rest, acc[Key(p) := Value(p)])
  {
    SplitHasTwoPieces(p, '=');
    assert ([p] + rest)[0] == p && ([p] + rest)[1..] == rest;
  }

  /** Two leading `k=v` parts, followed by parts that all have keys other than theirs, are read back. */
  lemma ParsedLeadingPairs(p0: string, p1: string, base: seq<string>, k0: string, v0: string, k1: string, v1: string)
    requires k0 != k1
    requires Key(p0) == k0 && Value(p0) == v0 && Key(p1) == k1 && Value(p1) == v1
    requires '=' in p0 && '=' in p1
    requires forall i :: 0 <= i < |base| ==> '=' in base[i] && Key(base[i]) != k0 && Key(base[i]) != k1
    ensures ParseComponents([p0, p1] + base, map[]).Success?
    ensures var m := ParseComponents([p0, p1] + base, map[]).value; k0 in m && m[k0] == v0 && k1 in m && m[k1] == v1
  {
    var rest := [p1] + base;
    assert [p0, p1] + base == [p0] + rest;
    ParseComponentsStep(p0, rest, map[]);
    var acc0 := map[][k0 := v0];
    ParseComponentsStep(p1, base, acc0);
    var acc := acc0[k1 := v1];
    assert ParseComponents([p0, p1] + base, map[]) == ParseComponents(base, acc);
    ParseComponentsSucceeds(base, acc);
    ParseComponentsKeeps(base, acc, k0);
    ParseComponentsKeeps(base, acc, k1);
  }

  /** An empty base DN leaves a trailing empty component, so the bind DN does not parse. */
  lemma EmptyBaseDnDoesNotParse(cn: string, ou: string)
    ensures ParseBindDn(BindDn(cn, ou, "")).Failure?
  {
    var parts := Split(BindDn(cn, ou, ""), ',');
    JoinSplit(BindDn(cn, ou, ""), ',');
    var last := parts[|parts| - 1];
    if '=' in last {
      // The last part ends the string and holds no `,`; the string ends with `,`.
      assert BindDn(cn, ou, "")[|BindDn(cn, ou, "")| - 1] == ',';
      JoinEndsWithLast(parts, ',');
      assert false;
    }
    ParseComponentsFails(parts, map[]);
  }

  /** A join ends with its last part. */
  lemma {:induction false} JoinEndsWithLast(parts: seq<string>, c: char)
    requires |parts| >= 1
    ensures |Join(parts, c)| >= |parts[|parts| - 1]|
    ensures Join(parts, c)[|Join(parts, c)| - |parts[|parts| - 1]|..] == parts[|parts| - 1]
  {
    if |parts| > 1 {
      JoinEndsWithLast(parts[1..], c);
      var j := Join(parts[1..], c);
      var l := parts[|parts| - 1];
      assert Join(parts, c) == (parts[0] + [c]) + j;
      assert ((parts[0] + [c]) + j)[|(parts[0] + [c]) + j| - |l|..] == j[|j| - |l|..];
    }
  }

  /** The bind account read from a remote LDAP server's data: `cn` and `ou` from the bind DN, `""` when absent. */
  function AccountFromRemote(server: LdapProviderData): Result<BindAccount, Error>
  {
    match ParseBindDn(server.bindDn)
    case Failure(e) => Failure(e)
    case Success(m) => Success(BindAccount(Get(m, "cn").GetOr(""), Get(m, "ou").GetOr(""), server.bindPassword))
  }

  // ---------------------------------------------------------------------------
  // URLs and provider data

  /** `<app>.<model>.svc.cluster.local`. */
  function ServiceHost(appName: string, modelName: string): string
  {
    appName + "." + modelName + ".svc.cluster.local"
  }

  /** `ldap_urls`: one `ldap://` URL per ingress URL, or the in-cluster service address on port 3893. */
  function LdapUrls(ingressUrls: seq<string>, appName: string, modelName: string): (r: seq<string>)
    ensures |ingressUrls| > 0 ==> |r| == |ingressUrls| && forall i :: 0 <= i < |r| ==> r[i] == "ldap://" + ingressUrls[i]
    ensures |ingressUrls| == 0 ==> r == ["ldap://" + ServiceHost(appName, modelName) + ":" + LdapPort]
  {
    if |ingressUrls| > 0 then Prefixed("ldap://", ingressUrls)
    else ["ldap://" + ServiceHost(appName, modelName) + ":" + LdapPort]
  }

  /** `ldaps_urls`: none when LDAPS is off; otherwise as `ldap_urls` with the `ldaps://` scheme and the LDAPS port. */
  function LdapsUrls(ldapsEnabled: bool, ingressUrls: seq<string>, appName: string, modelName: string, ldapsPort: string)
    : (r: seq<string>)
    ensures !ldapsEnabled ==> r == []
    ensures ldapsEnabled && |ingressUrls| > 0 ==>
      |r| == |ingressUrls| && forall i :: 0 <= i < |r| ==> r[i] == "ldaps://" + ingressUrls[i]
    ensures ldapsEnabled && |ingressUrls| == 0 ==> r == ["ldaps://" + ServiceHost(appName, modelName) + ":" + ldapsPort]
  {
    if !ldapsEnabled then []
    else if |ingressUrls| > 0 then Prefixed("ldaps://", ingressUrls)
    else ["ldaps://" + ServiceHost(appName, modelName) + ":" + ldapsPort]
  }

  /** `provider_data`: nothing without a bind account; otherwise its bind DN under the base DN, with simple auth. */
  function ProviderData(account: Option<BindAccount>, urls: seq<string>, ldapsUrls: seq<string>, baseDn: string, starttls: bool)
    : (r: Option<LdapProviderData>)
    ensures r.None? <==> account.None?
    ensures r.Some? ==>
      && r.value.bindDn == "cn=" + account.value.cn + ",ou=" + account.value.ou + "," + baseDn
      && r.value.authMethod == "simple" && r.value.bindPassword == account.value.password
      && r.value.baseDn == baseDn && r.value.urls == urls && r.value.ldapsUrls == ldapsUrls
      && r.value.starttls == starttls
  {
    if account.None? then None
    else Some(LdapProviderData(urls, ldapsUrls, baseDn, BindDn(account.value.cn, account.value.ou, baseDn),
                               account.value.password, "simple", starttls))
  }

  /**
   * A published bind account is read back unchanged by a charm that consumes the data as
   * its remote LDAP server, under the conditions of `BindDnRoundTrip`.
   */
  lemma ProviderDataRoundTrip(account: BindAccount, urls: seq<string>, ldapsUrls: seq<string>, baseDn: string, starttls: bool)
    requires ',' !in account.cn && '=' !in account.cn && ',' !in account.ou && '=' !in account.ou
    requires BaseDnParses(baseDn)
    ensures ProviderData(Some(account), urls, ldapsUrls, baseDn, starttls).Some?
    ensures var d := ProviderData(Some(account), urls, ldapsUrls, baseDn, starttls).value;
      && d.authMethod == "simple" && d.baseDn == baseDn && d.urls == urls && d.ldapsUrls == ldapsUrls
      && AccountFromRemote(d) == Success(account)
  {
    BindDnRoundTrip(account.cn, account.ou, baseDn);
  }

  /** The LDAP integration: the bind account it last loaded. */
  class LdapIntegration {
    var bindAccount: Option<BindAccount>

    constructor ()
      ensures bindAccount.None?
    {
      bindAccount := None;
    }

    /**
     * `load_bind_account_from_remote_ldap`: without remote server data nothing changes;
     * otherwise the bind account is read from it, and a bind DN that does not parse
     * raises and leaves the old account.
     */
    method LoadBindAccountFromRemoteLdap(consumed: Option<LdapProviderData>) returns (err: Option<Error>)
      modifies this
      ensures consumed.None? ==> err.None? && bindAccount == old(bindAccount)
      ensures consumed.Some? && AccountFromRemote(consumed.value).Success? ==>
        err.None? && bindAccount == Some(AccountFromRemote(consumed.value).value)
      ensures consumed.Some? && AccountFromRemote(consumed.value).Failure? ==>
        err == Some(AccountFromRemote(consumed.value).error) && bindAccount == old(bindAccount)
    {
      var ldapConfig := LoadLdapServerConfig(consumed);
      if ldapConfig.None? || ldapConfig.value.ldapServer.None? {
        return None;
      }
      var server := ldapConfig.value.ldapServer.value;
      match ParseBindDn(server.bindDn)
      case Failure(e) =>
        err := Some(e);
      case Success(bindDn) =>
        bindAccount := Some(BindAccount(Get(bindDn, "cn").GetOr(""), Get(bindDn, "ou").GetOr(""), server.bindPassword));
        err := None;
    }

    /**
     * `load_bind_account`: remote LDAP server data takes precedence and the database is
     * not touched; without a database configuration nothing changes; otherwise the account
     * is provisioned and its password is, in order, the fresh one from creation, the one
     * already in the relation (`existingPassword`, from `get_bind_password`), or a reset one.
     */
    method LoadBindAccount(
      user: string, group: string, consumed: Option<LdapProviderData>, databaseRequirer: DatabaseRequirer,
      store: Store, existingPassword: Option<string>, token: string, resetToken: string, sha256: string -> string)
      returns (err: Option<Error>)
      requires FetchedFirst(databaseRequirer) && store.Valid() && token != "" && resetToken != ""
      modifies this, store
      ensures store.Valid()
      ensures consumed.Some? ==>
        store.tables == old(store.tables)
        && (AccountFromRemote(consumed.value).Success? ==>
              err.None? && bindAccount == Some(AccountFromRemote(consumed.value).value))
        && (AccountFromRemote(consumed.value).Failure? ==>
              err == Some(AccountFromRemote(consumed.value).error) && bindAccount == old(bindAccount))
      ensures consumed.None? && LoadDatabaseConfig(databaseRequirer).None? ==>
        err.None? && bindAccount == old(bindAccount) && store.tables == old(store.tables)
      ensures consumed.None? && LoadDatabaseConfig(databaseRequirer).Some? ==>
        var created := EnsureBindAccount(old(store.tables), user, group, sha256(token));
        && err.None?
        && bindAccount.Some? && bindAccount.value.cn == user && bindAccount.value.ou == group
        && bindAccount.value.password.Some?
        && (!HasUser(old(store.tables), user) ==>
              bindAccount.value.password == Some(token) && store.tables == created)
        && (HasUser(old(store.tables), user) && Truthy(existingPassword) ==>
              bindAccount.value.password == existingPassword && store.tables == created)
        && (HasUser(old(store.tables), user) && !Truthy(existingPassword) ==>
              bindAccount.value.password == Some(resetToken)
              && store.tables == ResetPassword(created, user, sha256(resetToken)))
    {
      if LoadLdapServerConfig(consumed).Some? {
        err := LoadBindAccountFromRemoteLdap(consumed);
        return;
      }
      var databaseConfig := LoadDatabaseConfig(databaseRequirer);
      if databaseConfig.None? {
        return None;
      }
      ghost var before := store.tables;
      EnsureBindAccountProvides(before, user, group, sha256(token));
      var account := CreateBindAccount(store, user, group, token, sha256);
      bindAccount := Some(account);
      err := None;
      if !Truthy(account.password) {
        var password := existingPassword;
        if !Truthy(password) {
          var reset := ResetAccountPassword(store, user, resetToken, sha256);
          match reset
          case Success(p) => password := Some(p);
          case Failure(e) => assert false;
        }
        bindAccount := Some(account.(password := password));
      }
    }
  }

  // ---------------------------------------------------------------------------
  // Certificates

  const CertificateFile: string := "/etc/ssl/certs/ca-certificates.crt"
  const ServerCaCert: string := "/usr/local/share/ca-certificates/glauth-ca.crt"

  /** The files `_push_certificates` writes and `_remove_certificates` removes. */
  function CertificateFiles(): set<string>
  {
    {CertificateFile, ServerCaCert, ServerKey, ServerCert}
  }

  /** The certificate the TLS provider assigned to the request. */
  datatype ProviderCertificate = ProviderCertificate(ca: string, certificate: string, chain: seq<string>)

  /** `CertificateData`. */
  datatype CertificateData = CertificateData(caCert: Option<string>, caChain: Option<seq<string>>, cert: Option<string>)

  /** `cert_data`: the assigned certificate's CA, chain and certificate, or nothing at all. */
  function CertData(provided: Option<ProviderCertificate>): (r: CertificateData)
    ensures provided.None? ==> r.caCert.None? && r.caChain.None? && r.cert.None?
    ensures provided.Some? ==>
      r.caCert == Some(provided.value.ca) && r.caChain == Some(provided.value.chain)
      && r.cert == Some(provided.value.certificate)
  {
    if provided.None? then CertificateData(None, None, None)
    else CertificateData(Some(provided.value.ca), Some(provided.value.chain), Some(provided.value.certificate))
  }

  /** `certs_ready`: both a certificate and a private key have been assigned. */
  predicate CertsReady(provided: Option<ProviderCertificate>, privateKey: Option<string>)
    ensures CertsReady(provided, privateKey) ==>
      CertData(provided).caCert.Some? && CertData(provided).caChain.Some? && CertData(provided).cert.Some?
  {
    provided.Some? && privateKey.Some?
  }

  /** `all((ca_cert, ca_chain, certificate))`: each one present and not empty. */
  predicate Complete(d: CertificateData)
  {
    Truthy(d.caCert) && d.caChain.Some? && |d.caChain.value| > 0 && Truthy(d.cert)
  }

  /** Ready certificates give complete data exactly when none of the three parts is empty. */
  lemma ReadyCertificatesComplete(provided: Option<ProviderCertificate>, privateKey: Option<string>)
    requires CertsReady(provided, privateKey)
    ensures Complete(CertData(provided)) <==>
      provided.value.ca != "" && |provided.value.chain| > 0 && provided.value.certificate != ""
  {
  }

  /** The names a certificate is requested for. */
  datatype CsrAttributes = CsrAttributes(commonName: string, sansDns: set<string>, sansIp: set<string>)

  /** The host part of an ingress URL: everything before its last `:`. */
  function IngressHost(url: string): string
  {
    BeforeLast(url, ':')
  }

  /** The hosts of the ingress URLs that are set. */
  function IngressHosts(urls: seq<Option<string>>): set<string>
  {
    set i | 0 <= i < |urls| && Truthy(urls[i]) :: IngressHost(urls[i].value)
  }

  /** The strings of a list, as a set. */
  function Elements(xs: seq<string>): set<string>
  {
    set x | x in xs
  }

  /** Appending adds one element. */
  lemma ElementsSnoc(xs: seq<string>, x: string)
    ensures Elements(xs + [x]) == Elements(xs) + {x}
  {
  }

  /** The ingress hosts that are IP addresses. */
  function IpHosts(urls: seq<Option<string>>, isIp: string -> bool): set<string>
  {
    set h | h in IngressHosts(urls) && isIp(h)
  }

  /** The ingress hosts that are domain names. */
  function DnsHosts(urls: seq<Option<string>>, isIp: string -> bool): set<string>
  {
    set h | h in IngressHosts(urls) && !isIp(h)
  }

  /** One more URL adds its host, when it is set. */
  lemma IngressHostsSnoc(urls: seq<Option<string>>, url: Option<string>)
    ensures IngressHosts(urls + [url]) == IngressHosts(urls) + (if Truthy(url) then {IngressHost(url.value)} else {})
  {
    var post := urls + [url];
    forall h | h in IngressHosts(post)
      ensures h in IngressHosts(urls) || (Truthy(url) && h == IngressHost(url.value))
    {
      var i :| 0 <= i < |post| && Truthy(post[i]) && IngressHost(post[i].value) == h;
      if i < |urls| { assert post[i] == urls[i]; }
    }
    forall h | h in IngressHosts(urls) ensures h in IngressHosts(post) {
      var i :| 0 <= i < |urls| && Truthy(urls[i]) && IngressHost(urls[i].value) == h;
      assert post[i] == urls[i];
    }
    if Truthy(url) {
      assert post[|urls|] == url;
    }
  }

  /**
   * The certificate request of `CertificatesIntegration.__init__`: common name the
   * service host; the host of each set ingress URL (LDAP, then LDAPS) goes to the IP
   * names when `isIp` accepts it (`ipaddress.ip_address`) and to the DNS names otherwise,
   * and the DNS names also hold the service host.
   */
  method RequestAttributes(appName: string, modelName: string, ingressUrls: seq<Option<string>>, isIp: string -> bool)
    returns (attrs: CsrAttributes)
    ensures attrs.commonName == ServiceHost(appName, modelName)
    ensures attrs.sansDns == {ServiceHost(appName, modelName)} + DnsHosts(ingressUrls, isIp)
    ensures attrs.sansIp == IpHosts(ingressUrls, isIp)
  {
    var host := ServiceHost(appName, modelName);
    var sansDns: seq<string>, sansIp: seq<string> := [host], [];
    for n := 0 to |ingressUrls|
      invariant Elements(sansDns) == {host} + DnsHosts(ingressUrls[..n], isIp)
      invariant Elements(sansIp) == IpHosts(ingressUrls[..n], isIp)
    {
      assert ingressUrls[..n + 1] == ingressUrls[..n] + [ingressUrls[n]];
      IngressHostsSnoc(ingressUrls[..n], ingressUrls[n]);
      var url := ingressUrls[n];
      if Truthy(url) {
        var domain := IngressHost(url.value);
        if isIp(domain) {
          ElementsSnoc(sansIp, domain);
          sansIp := sansIp + [domain];
        } else {
          ElementsSnoc(sansDns, domain);
          sansDns := sansDns + [domain];
        }
      }
    }
    assert ingressUrls[..|ingressUrls|] == ingressUrls;
    attrs := CsrAttributes(host, Elements(sansDns), Elements(sansIp));
  }

  /** The certificate files in the workload container, by path. */
  class CertificatesIntegration {
    var files: map<string, string>

    constructor (files: map<string, string>)
      ensures this.files == files
    {
      this.files := files;
    }

    /**
     * `update_certificates`: without the certificates relation or without ready
     * certificates (`CertsReady`), remove the certificate files; otherwise refresh the
     * trust store and push the refreshed bundle (`trustStore`, `None` when the refresh
     * fails, which raises and pushes nothing), the CA, the private key and the server
     * certificate.
     */
    method UpdateCertificates(
      hasRelation: bool, provided: Option<ProviderCertificate>, privateKey: Option<string>, trustStore: Option<string>)
      returns (err: Option<string>)
      modifies this
      ensures !hasRelation || !CertsReady(provided, privateKey) ==>
        err.None? && files == old(files) - CertificateFiles()
      ensures hasRelation && CertsReady(provided, privateKey) && trustStore.None? ==>
        err == Some("Update the TLS certificates failed.") && files == old(files)
      ensures hasRelation && CertsReady(provided, privateKey) && trustStore.Some? ==>
        && err.None? && files.Keys == old(files).Keys + CertificateFiles()
        && files[CertificateFile] == trustStore.value
        && files[ServerCaCert] == provided.value.ca
        && files[ServerKey] == privateKey.value
        && files[ServerCert] == provided.value.certificate
        && forall f :: f in old(files) && f !in CertificateFiles() ==> files[f] == old(files)[f]
    {
      if !hasRelation || !CertsReady(provided, privateKey) {
        files := files - CertificateFiles();
        return None;
      }
      if trustStore.None? {
        return Some("Update the TLS certificates failed.");
      }
      var data := CertData(provided);
      files := files[CertificateFile := trustStore.value][ServerCaCert := data.caCert.value]
        [ServerKey := privateKey.value][ServerCert := data.cert.value];
      err := None;
    }
  }

  /** What the certificate-transfer provider publishes on one relation. */
  datatype TransferredCertificate = TransferredCertificate(ca: string, chain: seq<string>, certificate: string)

  /** The relations a `relation_id` filter keeps, in order. */
  function SelectIds(ids: seq<int>, relationId: Option<int>): (r: seq<int>)
    ensures relationId.None? ==> r == ids
    ensures forall x :: x in r <==> x in ids && (relationId.None? || x == relationId.value)
  {
    if |ids| == 0 then []
    else (if relationId.None? || ids[0] == relationId.value then [ids[0]] else []) + SelectIds(ids[1..], relationId)
  }

  /** What `set_certificate` publishes for complete data. */
  function Bundle(data: CertificateData): TransferredCertificate
    requires Complete(data)
  {
    TransferredCertificate(data.caCert.value, data.caChain.value, data.cert.value)
  }

  /** `set_certificate` on each of the selected relations. */
  function WithCertificate(published: map<int, TransferredCertificate>, selected: seq<int>, bundle: TransferredCertificate)
    : map<int, TransferredCertificate>
  {
    published + map id | id in selected :: bundle
  }

  /** `remove_certificate` on each of the selected relations. */
  function WithoutCertificate(published: map<int, TransferredCertificate>, selected: seq<int>)
    : map<int, TransferredCertificate>
  {
    published - set id | id in selected
  }

  /** The published certificates after transferring `data` to the `selected` relations. */
  function Transferred(published: map<int, TransferredCertificate>, selected: seq<int>, data: CertificateData)
    : map<int, TransferredCertificate>
  {
    if Complete(data) then WithCertificate(published, selected, Bundle(data))
    else WithoutCertificate(published, selected)
  }

  /** Setting the certificate on one more relation. */
  lemma WithCertificateSnoc(published: map<int, TransferredCertificate>, selected: seq<int>, id: int, bundle: TransferredCertificate)
    ensures WithCertificate(published, selected + [id], bundle) == WithCertificate(published, selected, bundle)[id := bundle]
  {
  }

  /** Removing the certificate from one more relation. */
  lemma WithoutCertificateSnoc(published: map<int, TransferredCertificate>, selected: seq<int>, id: int)
    ensures WithoutCertificate(published, selected + [id]) == WithoutCertificate(published, selected) - {id}
  {
  }

  /**
   * A transfer publishes complete data on every selected relation and withdraws
   * incomplete data from every one of them; relations that are not selected keep what
   * they had.
   */
  lemma TransferredOutcome(published: map<int, TransferredCertificate>, selected: seq<int>, data: CertificateData)
    ensures var r := Transferred(published, selected, data);
      && (forall id :: id in selected && Complete(data) ==> id in r && r[id] == Bundle(data))
      && (forall id :: id in selected && !Complete(data) ==> id !in r)
      && (forall id :: id !in selected ==> (id in r <==> id in published) && (id in r ==> r[id] == published[id]))
  {
  }

  /** The certificate-transfer integration with what it has published per relation id. */
  class CertificatesTransferIntegration {
    var published: map<int, TransferredCertificate>

    constructor (published: map<int, TransferredCertificate>)
      ensures this.published == published
    {
      this.published := published;
    }

    /**
     * `transfer_certificates`: over the `send-ca-cert` relations (restricted to one id
     * when given), set the CA, chain and certificate when all three are present, and
     * remove them from every selected relation otherwise.
     */
    method TransferCertificates(relationIds: seq<int>, data: CertificateData, relationId: Option<int>)
      modifies this
      ensures published == Transferred(old(published), SelectIds(relationIds, relationId), data)
    {
      if |relationIds| == 0 {
        return;
      }
      var relations := SelectIds(relationIds, relationId);
      if !Complete(data) {
        for i := 0 to |relations|
          invariant published == WithoutCertificate(old(published), relations[..i])
        {
          assert relations[..i + 1] == relations[..i] + [relations[i]];
          WithoutCertificateSnoc(old(published), relations[..i], relations[i]);
          published := published - {relations[i]};
        }
        assert relations[..|relations|] == relations;
        return;
      }
      var bundle := Bundle(data);
      for i := 0 to |relations|
        invariant published == WithCertificate(old(published), relations[..i], bundle)
      {
        assert relations[..i + 1] == relations[..i] + [relations[i]];
        WithCertificateSnoc(old(published), relations[..i], relations[i], bundle);
        published := published[relations[i] := bundle];
      }
      assert relations[..|relations|] == relations;
    }
  }
}
