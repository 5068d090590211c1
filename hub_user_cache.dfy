/** `HubUserCache`: the in-memory registry of live hub sessions, an ordered
    list of `UserSession`s looked up by connection id or by username, both
    compared ignoring case. */
module UserCache {
  import opened Wrappers
  import opened Sessions

  class HubUserCache {
    /** The case fold behind `StringComparison.CurrentCultureIgnoreCase`. */
    const fold: Fold
    /** `Users`, in insertion order. */
    var users: seq<UserSession>

    /** The registry invariant: no two sessions share a connection id or a username. */
    ghost predicate Valid()
      reads this
    {
      Unique(users, fold)
    }

    constructor (fold: Fold)
      ensures Valid() && this.fold == fold && users == []
    {
      this.fold := fold;
      users := [];
    }

    /** `CountAll`: with the invariant in force, the number of distinct live connections. */
    function CountAll(): (n: nat)
      reads this
      requires Valid()
      ensures n == |ActiveConnections(users, fold)|
    {
      CountIsDistinctConnections(users, fold);
      |users|
    }

    /** `IsExist`: some session matches the key; it holds exactly when `Find` returns a session. */
    function IsExist(key: string, kt: KeyType): (b: bool)
      reads this
      ensures b <==> FindIndex(users, key, kt, fold).Some?
      ensures kt.Undefined? ==> !b
    {
      exists i :: 0 <= i < |users| && Matches(users[i], key, kt, fold)
    }

    /** `IsActive`: a session holds the connection id, ignoring case. */
    function IsActive(connectionId: string): (b: bool)
      reads this
      ensures b <==> exists s :: s in users && fold(s.connectionId) == fold(connectionId)
    {
      IsExist(connectionId, ConnectionId)
    }

    /** `ListAllActive`: the sessions, in insertion order; its length is `CountAll`. */
    function ListAllActive(): (r: seq<UserSession>)
      reads this
      ensures Valid() ==> |r| == CountAll()
      ensures forall s :: s in r <==> s in users
    {
      users
    }

    /** `Find`: the first session whose selected key equals `key` ignoring case, or null. */
    function Find(key: string, kt: KeyType): (r: Option<UserSession>)
      reads this
      ensures r.Some? <==> IsExist(key, kt)
      ensures r.Some? ==> r.value in users && Matches(r.value, key, kt, fold)
      ensures r.Some? ==> forall j :: 0 <= j < |users| && users[j] != r.value ==>
                            (exists i :: 0 <= i < j && users[i] == r.value) || !Matches(users[j], key, kt, fold)
    {
      match FindIndex(users, key, kt, fold)
      case None => None
      case Some(i) => Some(users[i])
    }

    /** `FindUsernameByConnectionId`: the username of the session holding the connection id. */
    function FindUsernameByConnectionId(connectionId: string): (r: Option<string>)
      reads this
      ensures r.Some? <==> IsExist(connectionId, ConnectionId)
      ensures r.Some? ==> exists s :: s in users && fold(s.connectionId) == fold(connectionId) && s.username == r.value
    {
      match Find(connectionId, ConnectionId)
      case None => None
      case Some(s) => Some(s.username)
    }

    /** `FindUsername(context)`: the caller's username, looked up by its connection id. */
    function FindUsername(ctx: HubCallerContext): (r: Option<string>)
      reads this
      ensures r.Some? <==> IsExist(ctx.connectionId, ConnectionId)
      ensures r.Some? ==> exists s :: s in users && fold(s.connectionId) == fold(ctx.connectionId) && s.username == r.value
    {
      FindUsernameByConnectionId(ctx.connectionId)
    }

    /** `FindConnectionIdByUsername`: the connection id of the session holding the username. */
    function FindConnectionIdByUsername(username: string): (r: Option<string>)
      reads this
      ensures r.Some? <==> IsExist(username, Username)
      ensures r.Some? ==> exists s :: s in users && fold(s.username) == fold(username) && s.connectionId == r.value
    {
      match Find(username, Username)
      case None => None
      case Some(s) => Some(s.connectionId)
    }

    /** `AddCore`: checks the connection id, then the username, and appends a new
        session only when both are free. */
    method AddCore(connectionId: string, username: string, now: int) returns (r: ResponseBase)
      requires Valid()
      modifies this
      ensures Valid()
      ensures ExistsIn(old(users), connectionId, ConnectionId, fold) ==>
        r == ResponseBase(false, "Connection ID already exist") && users == old(users)
      ensures !ExistsIn(old(users), connectionId, ConnectionId, fold) && ExistsIn(old(users), username, Username, fold) ==>
        r == ResponseBase(false, "Username " + username + " already exist") && users == old(users)
      ensures !ExistsIn(old(users), connectionId, ConnectionId, fold) && !ExistsIn(old(users), username, Username, fold) ==>
        && r == ResponseBase(true, username + ":" + connectionId + " added")
        && users == old(users) + [UserSession(username, connectionId, now)]
        && FindUsernameByConnectionId(connectionId) == Some(username)
        && FindConnectionIdByUsername(username) == Some(connectionId)
    {
      var connIdExist := IsExist(connectionId, ConnectionId);
      if connIdExist {
        return ResponseBase(false, "Connection ID already exist");
      }
      var usernameExist := IsExist(username, Username);
      if usernameExist {
        return ResponseBase(false, "Username " + username + " already exist");
      }
      var user := UserSession(username, connectionId, now);
      AppendFresh(users, user, fold);
      users := users + [user];
      r := ResponseBase(true, username + ":" + connectionId + " added");
    }

    /** `Remove`: takes out the first session matching the key; a key that matches
        nothing leaves the registry as it was. */
    method Remove(key: string, kt: KeyType)
      requires Valid()
      modifies this
      ensures Valid()
      ensures users == RemoveFirst(old(users), key, kt, fold)
      ensures !ExistsIn(old(users), key, kt, fold) ==> users == old(users)
      ensures ExistsIn(old(users), key, kt, fold) ==> |users| == |old(users)| - 1
      ensures !IsExist(key, kt)
    {
      RemoveFirstClearsKey(users, key, kt, fold);
      RemoveFirstExactly(users, key, kt, fold);
      var user := Find(key, kt);
      if user.Some? {
        users := RemoveFirst(users, key, kt, fold);
      }
    }

    /** `ForceAdd`: evicts the holder of the connection id, or failing that the
        holder of the username, then runs `AddCore`. It evicts one holder only, so
        on its own it fails when the two keys belong to two different sessions. */
    method ForceAdd(connectionId: string, username: string, now: int) returns (r: ResponseBase)
      requires Valid()
      modifies this
      ensures Valid()
      ensures r.isSuccess <==> !(ExistsIn(old(users), connectionId, ConnectionId, fold) &&
                                 ExistsIn(RemoveFirst(old(users), connectionId, ConnectionId, fold), username, Username, fold))
      ensures r.isSuccess ==>
        && r.message == username + ":" + connectionId + " added"
        && users == Evict(old(users), connectionId, username, fold) + [UserSession(username, connectionId, now)]
      ensures !r.isSuccess ==>
        && r.message == "Username " + username + " already exist"
        && users == RemoveFirst(old(users), connectionId, ConnectionId, fold)
    {
      ghost var before := users;
      RemoveFirstClearsKey(before, connectionId, ConnectionId, fold);
      RemoveFirstClearsKey(before, username, Username, fold);
      var connIdExist := IsExist(connectionId, ConnectionId);
      if connIdExist {
        Remove(connectionId, ConnectionId);
        r := AddCore(connectionId, username, now);
        return;
      }
      var usernameExist := IsExist(username, Username);
      if usernameExist {
        Remove(username, Username);
        if ExistsIn(users, connectionId, ConnectionId, fold) {
          RemoveFirstOnlyDeletes(before, username, Username, fold, connectionId, ConnectionId);
        }
        r := AddCore(connectionId, username, now);
        return;
      }
      r := AddCore(connectionId, username, now);
    }

    /** `force ? ForceAdd(..) : AddCore(..)`, as `Add` runs it once the
        connection id is free: a forced add evicts the username's holder and
        always succeeds, a plain one fails when the username is taken. */
    method Dispatch(connectionId: string, username: string, force: bool, now: int) returns (r: ResponseBase)
      requires Valid()
      requires !ExistsIn(users, connectionId, ConnectionId, fold)
      modifies this
      ensures Valid()
      ensures r.isSuccess <==> force || !ExistsIn(old(users), username, Username, fold)
      ensures r.isSuccess ==>
        && r.message == username + ":" + connectionId + " added"
        && users == RemoveFirst(old(users), username, Username, fold) + [UserSession(username, connectionId, now)]
        && FindUsernameByConnectionId(connectionId) == Some(username)
        && FindConnectionIdByUsername(username) == Some(connectionId)
      ensures !r.isSuccess ==>
        && r.message == "Username " + username + " already exist"
        && users == old(users)
    {
      ghost var before := users;
      EvictClearsBoth(before, connectionId, username, fold);
      if force {
        r := ForceAdd(connectionId, username, now);
        AppendFresh(Evict(before, connectionId, username, fold), UserSession(username, connectionId, now), fold);
      } else {
        r := AddCore(connectionId, username, now);
      }
    }

    /** `Add(connectionId, username, force)`. Whatever `force` says, a session
        already holding the connection id (or, failing that, the username) is
        evicted first; then `ForceAdd` or `AddCore` runs. A forced add always
        succeeds and leaves exactly one session for either key. A non-forced add
        fails only when the two keys belong to two different sessions, and then it
        has already evicted the connection id's holder. */
    method Add(connectionId: string, username: string, force: bool, now: int) returns (r: ResponseBase)
      requires Valid()
      modifies this
      ensures Valid()
      ensures r.isSuccess <==> force || !(ExistsIn(old(users), connectionId, ConnectionId, fold) &&
                                          ExistsIn(RemoveFirst(old(users), connectionId, ConnectionId, fold), username, Username, fold))
      ensures r.isSuccess ==>
        && r.message == username + ":" + connectionId + " added"
        && users == Evict(old(users), connectionId, username, fold) + [UserSession(username, connectionId, now)]
        && FindUsernameByConnectionId(connectionId) == Some(username)
        && FindConnectionIdByUsername(username) == Some(connectionId)
      ensures !r.isSuccess ==>
        && r.message == "Username " + username + " already exist"
        && users == RemoveFirst(old(users), connectionId, ConnectionId, fold)
    {
      ghost var before := users;
      var connIdExist := IsExist(connectionId, ConnectionId);
      if connIdExist {
        Remove(connectionId, ConnectionId);
        r := Dispatch(connectionId, username, force, now);
        return;
      }
      var usernameExist := IsExist(username, Username);
      if usernameExist {
        Remove(username, Username);
        if ExistsIn(users, connectionId, ConnectionId, fold) {
          RemoveFirstOnlyDeletes(before, username, Username, fold, connectionId, ConnectionId);
        }
        RemoveFirstClearsKey(users, username, Username, fold);
        r := Dispatch(connectionId, username, force, now);
        return;
      }
      r := Dispatch(connectionId, username, force, now);
    }

    /** `Add(context, force)`: `Add` with the caller's connection id and the
        `username` query parameter of its handshake. */
    method AddContext(ctx: HubCallerContext, force: bool, now: int) returns (r: ResponseBase)
      requires Valid()
      modifies this
      ensures Valid()
      ensures r.isSuccess <==> force || !(ExistsIn(old(users), ctx.connectionId, ConnectionId, fold) &&
                                          ExistsIn(RemoveFirst(old(users), ctx.connectionId, ConnectionId, fold), ctx.usernameQuery, Username, fold))
      ensures r.isSuccess ==>
        && users == Evict(old(users), ctx.connectionId, ctx.usernameQuery, fold) + [UserSession(ctx.usernameQuery, ctx.connectionId, now)]
        && FindUsername(ctx) == Some(ctx.usernameQuery)
      ensures !r.isSuccess ==> users == RemoveFirst(old(users), ctx.connectionId, ConnectionId, fold)
    {
      r := Add(ctx.connectionId, ctx.usernameQuery, force, now);
    }

    /** `Dispose`: clears the registry. */
    method Dispose()
      modifies this
      ensures Valid() && users == []
    {
      users := [];
    }
  }
}
