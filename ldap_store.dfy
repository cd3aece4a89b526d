/**
 * The LDAP user store: checks credentials and looks users up over a
 * pooled connection, returning every connection it checked out, and maps
 * a directory entry to a `UserInfo`.  The directory operations
 * (`Authenticate`, `FindUser`) and the liveness probe are oracles passed
 * in by the caller.
 */
module LdapStore {
  import opened Wrappers
  import opened LdapPool

  datatype UserInfo = UserInfo(id: string, name: string, email: string, attributes: map<string, string>)

  datatype StoreError =
    | PoolFailure(poolError: PoolError)
    | DirectoryFailure(message: string)
    | AuthFailed(message: string)
    | MoreInfoFailed(message: string)

  /** What the store methods return: Go's `(*UserInfo, error)`, where both may be set. */
  datatype Reply = Reply(user: Option<UserInfo>, err: Option<StoreError>)

  /** The directory's answer to a bind: success, the entry's attributes, an error. */
  datatype AuthReply = AuthReply(ok: bool, attrs: map<string, string>, err: Option<string>)

  /** The directory's answer to a search by id. */
  datatype FindReply = FindReply(attrs: map<string, string>, err: Option<string>)

  type Authenticator = (LdapClient, string, string) -> AuthReply
  type Finder = (LdapClient, string) -> FindReply

  const DefaultDisplayNameAttr: string := "displayName"
  const DefaultEmailAttr: string := "mail"

  /** A configured attribute name, or the default for an empty one. */
  function AttributeOrDefault(configured: string, fallback: string): (a: string)
    ensures configured != "" ==> a == configured
    ensures configured == "" ==> a == fallback
  {
    if |configured| == 0 then fallback else configured
  }

  /** The error naming the user whose bind the directory refused. */
  function AuthFailedError(username: string): (e: StoreError)
    ensures e.AuthFailed? && e.message == "ldap auth failed for user '" + username + "'"
  {
    AuthFailed("ldap auth failed for user '" + username + "'")
  }

  /** An attribute's value, "" when absent. */
  function Lookup(attrs: map<string, string>, name: string): string {
    if name in attrs then attrs[name] else ""
  }

  /**
   * The loop that copies `extra` into `attrs`: every key of either, the
   * value from `extra` where both have one.
   */
  method Merge(attrs: map<string, string>, extra: map<string, string>) returns (merged: map<string, string>)
    ensures merged.Keys == attrs.Keys + extra.Keys
    ensures forall k | k in extra :: merged[k] == extra[k]
    ensures forall k | k in attrs && k !in extra :: merged[k] == attrs[k]
  {
    merged := attrs;
    var pending := extra.Keys;
    while pending != {}
      invariant pending <= extra.Keys
      invariant merged.Keys == attrs.Keys + (extra.Keys - pending)
      invariant forall k | k in extra.Keys - pending :: merged[k] == extra[k]
      invariant forall k | k in attrs && k !in extra.Keys - pending :: merged[k] == attrs[k]
      decreases pending
    {
      var k :| k in pending;
      merged := merged[k := extra[k]];
      pending := pending - {k};
    }
  }

  class UserStore {
    var pool: Option<Pool>
    const displayNameAttr: string
    const emailAttr: string
    const config: LdapConfig

    ghost function PoolRepr(): set<object>
      reads this
    {
      if pool.Some? then pool.value.Repr() else {}
    }

    ghost predicate Valid()
      reads this, PoolRepr()
    {
      (pool.Some? ==> pool.value.Valid()) && this !in PoolRepr()
    }

    /** `NewUserStore`: empty attribute names become "displayName" and "mail". */
    constructor (p: Pool, config: LdapConfig)
      requires p.Valid()
      ensures Valid() && pool == Some(p) && this.config == config
      ensures displayNameAttr == AttributeOrDefault(config.displayNameAttr, DefaultDisplayNameAttr)
      ensures emailAttr == AttributeOrDefault(config.emailAttr, DefaultEmailAttr)
    {
      pool := Some(p);
      displayNameAttr := AttributeOrDefault(config.displayNameAttr, DefaultDisplayNameAttr);
      emailAttr := AttributeOrDefault(config.emailAttr, DefaultEmailAttr);
      this.config := config;
    }

    /**
     * What `makeUser` returns: name and e-mail from the entry as the
     * directory gave it, the extra attributes merged over it, and the
     * extra-information error alongside the user.
     */
    function UserOf(conn: LdapClient, id: string, attrs: map<string, string>): (r: Reply)
      ensures r.user.Some? && r.user.value.id == id
      ensures r.user.value.name == Lookup(attrs, displayNameAttr)
      ensures r.user.value.email == Lookup(attrs, emailAttr)
      ensures config.getMoreUserInfo.None? ==> r == Reply(Some(UserInfo(id, r.user.value.name, r.user.value.email, attrs)), None)
      ensures config.getMoreUserInfo.Some? ==>
        var more := config.getMoreUserInfo.value(conn, attrs);
        && r.user.value.attributes == (if more.extra.Some? then attrs + more.extra.value else attrs)
        && r.err == (if more.err.Some? then Some(MoreInfoFailed(more.err.value)) else None)
    {
      var name := Lookup(attrs, displayNameAttr);
      var email := Lookup(attrs, emailAttr);
      match config.getMoreUserInfo
      case None => Reply(Some(UserInfo(id, name, email, attrs)), None)
      case Some(getMore) =>
        var more := getMore(conn, attrs);
        var merged := if more.extra.Some? then attrs + more.extra.value else attrs;
        Reply(Some(UserInfo(id, name, email, merged)), if more.err.Some? then Some(MoreInfoFailed(more.err.value)) else None)
    }

    /** `makeUser`, with its merge loop. */
    method MakeUser(conn: LdapClient, id: string, attrs: map<string, string>) returns (r: Reply)
      ensures r == UserOf(conn, id, attrs)
    {
      var name := Lookup(attrs, displayNameAttr);
      var email := Lookup(attrs, emailAttr);
      var merged := attrs;
      var err: Option<StoreError> := None;
      if config.getMoreUserInfo.Some? {
        var more := config.getMoreUserInfo.value(conn, attrs);
        if more.extra.Some? {
          merged := Merge(attrs, more.extra.value);
          assert merged == attrs + more.extra.value;
        }
        if more.err.Some? {
          err := Some(MoreInfoFailed(more.err.value));
        }
      }
      r := Reply(Some(UserInfo(id, name, email, merged)), err);
    }

    /** The reply to a bind the directory answered. */
    function AfterAuthenticate(conn: LdapClient, username: string, a: AuthReply): (r: Reply)
      ensures a.err.Some? ==> r == Reply(None, Some(DirectoryFailure(a.err.value)))
      ensures a.err.None? && !a.ok ==> r == Reply(None, Some(AuthFailedError(username)))
      ensures a.err.None? && a.ok ==> r == UserOf(conn, username, a.attrs)
    {
      if a.err.Some? then Reply(None, Some(DirectoryFailure(a.err.value)))
      else if !a.ok then Reply(None, Some(AuthFailedError(username)))
      else UserOf(conn, username, a.attrs)
    }

    /**
     * `ValidateCredentials`: a pool failure is returned as it is; otherwise
     * the connection checked out is put back, whatever the directory said.
     */
    method ValidateCredentials(username: string, password: string, isAlive: LdapClient -> bool,
                               authenticate: Authenticator)
      returns (r: Reply, ghost conn: LdapClient?)
      requires Valid() && pool.Some?
      modifies PoolRepr()
      ensures Valid() && pool == old(pool)
      ensures conn == null ==>
        r == Reply(None, Some(PoolFailure(PoolClosed))) && pool.value.History() == old(pool.value.History())
      ensures conn == null <==> pool.value.Chan? && old(pool.value.chan.isClosed)
      ensures pool.value.Chan? ==> pool.value.chan.isClosed == old(pool.value.chan.isClosed)
      ensures conn != null && pool.value.Chan? ==>
        pool.value.chan.Idle != [] && pool.value.chan.Idle[|pool.value.chan.Idle| - 1] == conn
      ensures conn != null && pool.value.Dummy? ==> pool.value.dummy.Closed == old(pool.value.dummy.Closed) + {conn}
      ensures conn != null ==>
        && pool.value.History() == old(pool.value.History()) + [Checkout(conn), Release(conn)]
        && r == AfterAuthenticate(conn, username, authenticate(conn, username, password))
    {
      var p := pool.value;
      var client, err := LdapPool.Get(p, isAlive);
      if err.Some? {
        return Reply(None, Some(PoolFailure(err.value))), null;
      }
      conn := client;
      var a := authenticate(client, username, password);
      if a.err.Some? {
        r := Reply(None, Some(DirectoryFailure(a.err.value)));
      } else if !a.ok {
        r := Reply(None, Some(AuthFailedError(username)));
      } else {
        r := MakeUser(client, username, a.attrs);
      }
      LdapPool.Put(p, client);
    }

    /** The reply to a search the directory answered. */
    function AfterFind(conn: LdapClient, userID: string, f: FindReply): (r: Reply)
      ensures f.err.Some? ==> r == Reply(None, Some(DirectoryFailure(f.err.value)))
      ensures f.err.None? ==> r == UserOf(conn, userID, f.attrs)
    {
      if f.err.Some? then Reply(None, Some(DirectoryFailure(f.err.value)))
      else UserOf(conn, userID, f.attrs)
    }

    /** `FindUserByID`: the same checkout discipline around a search by id. */
    method FindUserByID(userID: string, isAlive: LdapClient -> bool, findUser: Finder)
      returns (r: Reply, ghost conn: LdapClient?)
      requires Valid() && pool.Some?
      modifies PoolRepr()
      ensures Valid() && pool == old(pool)
      ensures conn == null ==>
        r == Reply(None, Some(PoolFailure(PoolClosed))) && pool.value.History() == old(pool.value.History())
      ensures conn == null <==> pool.value.Chan? && old(pool.value.chan.isClosed)
      ensures pool.value.Chan? ==> pool.value.chan.isClosed == old(pool.value.chan.isClosed)
      ensures conn != null && pool.value.Chan? ==>
        pool.value.chan.Idle != [] && pool.value.chan.Idle[|pool.value.chan.Idle| - 1] == conn
      ensures conn != null && pool.value.Dummy? ==> pool.value.dummy.Closed == old(pool.value.dummy.Closed) + {conn}
      ensures conn != null ==>
        && pool.value.History() == old(pool.value.History()) + [Checkout(conn), Release(conn)]
        && r == AfterFind(conn, userID, findUser(conn, userID))
    {
      var p := pool.value;
      var client, err := LdapPool.Get(p, isAlive);
      if err.Some? {
        return Reply(None, Some(PoolFailure(err.value))), null;
      }
      conn := client;
      var f := findUser(client, userID);
      if f.err.Some? {
        r := Reply(None, Some(DirectoryFailure(f.err.value)));
      } else {
        r := MakeUser(client, userID, f.attrs);
      }
      LdapPool.Put(p, client);
    }

    /** `Close`: closes the pool once and forgets it; later calls do nothing. */
    method Close()
      requires Valid()
      modifies this, PoolRepr()
      ensures Valid() && pool.None?
      ensures old(pool).Some? && old(pool).value.Chan? ==>
        && old(pool).value.chan.isClosed && old(pool).value.chan.Idle == []
        && old(pool).value.chan.Closed == old(pool.value.chan.Closed) + set c | c in old(pool.value.chan.Idle)
      ensures old(pool).Some? && old(pool).value.Dummy? ==>
        old(pool).value.dummy.Closed == old(pool.value.dummy.Closed)
      ensures old(pool).None? ==> unchanged(this)
    {
      if pool.Some? {
        LdapPool.Close(pool.value);
        pool := None;
      }
    }
  }

  // ---------------------------------------------------------------------
  // Properties of makeUser

  /**
   * The extra attributes win over the entry's, the entry's other
   * attributes survive, and name and e-mail keep the entry's values even
   * when the extra attributes redefine them.
   */
  lemma MakeUserMerges(us: UserStore, conn: LdapClient, id: string, attrs: map<string, string>)
    requires us.config.getMoreUserInfo.Some?
    requires us.config.getMoreUserInfo.value(conn, attrs).extra.Some?
    ensures var extra := us.config.getMoreUserInfo.value(conn, attrs).extra.value;
      var u := us.UserOf(conn, id, attrs).user.value;
      && u.attributes.Keys == attrs.Keys + extra.Keys
      && (forall k | k in extra :: u.attributes[k] == extra[k])
      && (forall k | k in attrs && k !in extra :: u.attributes[k] == attrs[k])
      && u.name == Lookup(attrs, us.displayNameAttr)
      && u.email == Lookup(attrs, us.emailAttr)
  {
  }
}
