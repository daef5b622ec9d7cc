/**
  The local user table of the app (main/utils/auth.py, class SimpleAuth): a dictionary
  from username to a user record, with registration, password check, lookup and a
  merge of per-user settings. SHA-256 is not modelled: the class is given the digest
  function as `hash`. The current time is passed in as `now`.
*/
module Auth {
  import opened Wrappers

  /** A settings value: the defaults hold two strings and one flag. */
  datatype SettingValue = Text(text: string) | Flag(flag: bool)

  type Settings = map<string, SettingValue>

  /** The stored record of one user. */
  datatype UserRecord = UserRecord(
    passwordHash: string, email: string, createdAt: string,
    lastLogin: Option<string>, settings: Settings)

  /** A record as `get_user_info` hands it out: everything but the password hash. */
  datatype UserInfo = UserInfo(
    email: string, createdAt: string, lastLogin: Option<string>, settings: Settings)

  type Users = map<string, UserRecord>

  /** The new users table and the boolean a mutating call returns. */
  datatype Outcome = Outcome(users: Users, ok: bool)

  /** The salt appended to every password before hashing. */
  const Salt: string := "emission_calculator_salt"

  const DefaultSettings: Settings :=
    map["units" := Text("metric"), "language" := Text("en"), "notifications" := Flag(true)]

  function NewUser(passwordHash: string, email: string, now: string): (r: UserRecord)
    ensures r.lastLogin == None && r.settings == DefaultSettings
    ensures r.passwordHash == passwordHash && r.email == email && r.createdAt == now
  {
    UserRecord(passwordHash, email, now, None, DefaultSettings)
  }

  /** Registration: refused for a taken name, otherwise adds exactly that user. */
  function Register(users: Users, username: string, passwordHash: string, email: string, now: string): (r: Outcome)
    ensures r.ok <==> username !in users
    ensures r.users.Keys == users.Keys + {username}
    ensures forall u :: u in users && u != username ==> r.users[u] == users[u]
    ensures !r.ok ==> r.users == users
    ensures r.ok ==> r.users[username] == NewUser(passwordHash, email, now)
  {
    if username in users then Outcome(users, false)
    else Outcome(users[username := NewUser(passwordHash, email, now)], true)
  }

  /** Authentication: succeeds iff the user exists with that hash, and then stamps its last login. */
  function CheckCredentials(users: Users, username: string, passwordHash: string, now: string): (r: Outcome)
    ensures r.ok <==> username in users && users[username].passwordHash == passwordHash
    ensures r.users.Keys == users.Keys
    ensures forall u :: u in users && u != username ==> r.users[u] == users[u]
    ensures !r.ok ==> r.users == users
    ensures r.ok ==> r.users[username] == users[username].(lastLogin := Some(now))
  {
    if username !in users then Outcome(users, false)
    else if users[username].passwordHash == passwordHash then
      Outcome(users[username := users[username].(lastLogin := Some(now))], true)
    else Outcome(users, false)
  }

  /** The user's record without its password hash, or None for an unknown user. */
  function Info(users: Users, username: string): (r: Option<UserInfo>)
    ensures r.Some? <==> username in users
    ensures r.Some? ==>
      var rec := users[username];
      r.value == UserInfo(rec.email, rec.createdAt, rec.lastLogin, rec.settings)
  {
    if username in users then
      var rec := users[username];
      Some(UserInfo(rec.email, rec.createdAt, rec.lastLogin, rec.settings))
    else None
  }

  /** `dict.update`: the given keys take the given values, every other key keeps its own. */
  function Merge(settings: Settings, update: Settings): (r: Settings)
    ensures r.Keys == settings.Keys + update.Keys
    ensures forall k :: k in update ==> r[k] == update[k]
    ensures forall k :: k in settings && k !in update ==> r[k] == settings[k]
  {
    settings + update
  }

  /** Settings update: refused for an unknown user, otherwise merged into that user's settings only. */
  function UpdateSettings(users: Users, username: string, update: Settings): (r: Outcome)
    ensures r.ok <==> username in users
    ensures r.users.Keys == users.Keys
    ensures forall u :: u in users && u != username ==> r.users[u] == users[u]
    ensures !r.ok ==> r.users == users
    ensures r.ok ==> r.users[username] == users[username].(settings := Merge(users[username].settings, update))
  {
    if username in users then
      var rec := users[username];
      Outcome(users[username := rec.(settings := Merge(rec.settings, update))], true)
    else Outcome(users, false)
  }

  /** A freshly registered user can log in with the password it registered with. */
  lemma RegisterThenAuthenticate(users: Users, username: string, passwordHash: string, email: string,
                                 created: string, now: string)
    requires username !in users
    ensures var reg := Register(users, username, passwordHash, email, created);
      var auth := CheckCredentials(reg.users, username, passwordHash, now);
      && auth.ok
      && auth.users[username].lastLogin == Some(now)
      && auth.users[username].createdAt == created
  {
  }

  /** ... and with no password whose digest differs. */
  lemma RegisterThenWrongPassword(users: Users, username: string, passwordHash: string, otherHash: string,
                                  email: string, created: string, now: string)
    requires username !in users && otherHash != passwordHash
    ensures var reg := Register(users, username, passwordHash, email, created);
      CheckCredentials(reg.users, username, otherHash, now) == Outcome(reg.users, false)
  {
  }

  /** A name can be registered only once; the second attempt leaves the first record. */
  lemma RegisterTwiceFails(users: Users, username: string, h1: string, h2: string,
                           e1: string, e2: string, t1: string, t2: string)
    ensures var first := Register(users, username, h1, e1, t1);
      var second := Register(first.users, username, h2, e2, t2);
      !second.ok && second.users == first.users
  {
  }

  /** What lookup shows of a new user: no login yet and the default settings. */
  lemma RegisteredInfo(users: Users, username: string, passwordHash: string, email: string, now: string)
    requires username !in users
    ensures Info(Register(users, username, passwordHash, email, now).users, username)
      == Some(UserInfo(email, now, None, DefaultSettings))
  {
  }

  /** Applying the same settings update twice changes nothing more than applying it once. */
  lemma UpdateSettingsIdempotent(users: Users, username: string, update: Settings)
    ensures var once := UpdateSettings(users, username, update);
      UpdateSettings(once.users, username, update).users == once.users
  {
    if username in users {
      var once := UpdateSettings(users, username, update);
      var rec := once.users[username];
      assert Merge(rec.settings, update) == rec.settings;
      assert once.users[username := rec.(settings := Merge(rec.settings, update))] == once.users;
    }
  }

  /** Every record carries at least the three default setting keys. */
  ghost predicate SettingsComplete(users: Users) {
    forall u :: u in users ==> DefaultSettings.Keys <= users[u].settings.Keys
  }

  /** Registration, login and settings updates all keep the default keys in place. */
  lemma OperationsKeepDefaultKeys(users: Users, username: string, passwordHash: string,
                                  email: string, now: string, update: Settings)
    requires SettingsComplete(users)
    ensures SettingsComplete(Register(users, username, passwordHash, email, now).users)
    ensures SettingsComplete(CheckCredentials(users, username, passwordHash, now).users)
    ensures SettingsComplete(UpdateSettings(users, username, update).users)
  {
  }

  class SimpleAuth {
    var users: Users
    /** The hex digest of SHA-256, given rather than modelled. */
    const hash: string -> string

    /** The table as read from the users file; reading the file is not part of this model. */
    constructor(hash: string -> string, loaded: Users)
      ensures this.hash == hash && users == loaded
    {
      this.hash := hash;
      users := loaded;
    }

    /** The stored digest of a password: the salted password, hashed. */
    function HashPassword(password: string): (r: string)
      ensures r == hash(password + Salt)
    {
      hash(password + Salt)
    }

    method RegisterUser(username: string, password: string, email: string := "", now: string) returns (ok: bool)
      modifies this
      ensures Outcome(users, ok) == Register(old(users), username, HashPassword(password), email, now)
    {
      if username in users {
        return false;
      }
      users := users[username := NewUser(HashPassword(password), email, now)];
      return true;
    }

    method Authenticate(username: string, password: string, now: string) returns (ok: bool)
      modifies this
      ensures Outcome(users, ok) == CheckCredentials(old(users), username, HashPassword(password), now)
    {
      if username !in users {
        return false;
      }
      var storedHash := users[username].passwordHash;
      var passwordHash := HashPassword(password);
      if storedHash == passwordHash {
        users := users[username := users[username].(lastLogin := Some(now))];
        return true;
      }
      return false;
    }

    function UserExists(username: string): (r: bool)
      reads this
      ensures r <==> Info(users, username).Some?
    {
      username in users
    }

    function GetUserInfo(username: string): (r: Option<UserInfo>)
      reads this
      ensures r == Info(users, username)
    {
      Info(users, username)
    }

    method UpdateUserSettings(username: string, settings: Settings) returns (ok: bool)
      modifies this
      ensures Outcome(users, ok) == UpdateSettings(old(users), username, settings)
    {
      if username !in users {
        return false;
      }
      users := users[username := users[username].(settings := users[username].settings + settings)];
      return true;
    }
  }
}
