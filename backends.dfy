/**
 * `TokenBackend.authenticate`: look the user up by name, refuse inactive
 * accounts, and let the token engine decide. The user directory is a map
 * from username to the account's password hash and active flag.
 */
module Backends {
  import opened Common
  import opened Dates
  import opened Tokens

  datatype Account = Account(password: string, isActive: bool)

  type Directory = map<string, Account>

  /** The engine's view of the account stored under `username`. */
  function UserOf(users: Directory, username: string): User
    requires username in users
  {
    User(username, users[username].password)
  }

  /** `authenticate(username, token)`; `None` stands for Python's `None`. */
  method Authenticate(generator: TokenGenerator, users: Directory, username: string, token: string, today: Date)
    returns (user: Option<User>)
    modifies generator
    ensures username !in users ==> user == None && generator.cache == old(generator.cache)
    ensures username in users && !users[username].isActive ==>
              user == None && generator.cache == old(generator.cache)
    ensures username in users && users[username].isActive ==>
              && user == (if Accepts(generator.config, old(generator.cache), UserOf(users, username), token, today)
                          then Some(UserOf(users, username)) else None)
              && generator.cache == CacheAfterCheck(generator.config, old(generator.cache), UserOf(users, username), token)
    ensures user.Some? ==> user.value.username == username && username in users && users[username].isActive
  {
    if username !in users {
      return None;
    }
    var account := users[username];
    if !account.isActive {
      return None;
    }
    var found := User(username, account.password);
    var ok := generator.CheckToken(found, token, today);
    if ok {
      return Some(found);
    }
    return None;
  }
}
