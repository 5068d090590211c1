/** `HubUserService`: the older twin of `HubUserCache`. It keeps the same
    ordered list of `UserSession`s under the same add and remove rules, but
    `Find` (and so `Remove` and the two lookups) compares lower-cased strings,
    while `IsExist` compares ignoring case under the current culture. The model
    carries both folds and takes as part of the invariant that they agree on
    which strings are equal. */
module UserService {
  import opened Wrappers
  import opened Sessions

  class HubUserService {
    /** The fold behind `StringComparison.CurrentCultureIgnoreCase` (used by `IsExist`). */
    const cultureFold: Fold
    /** `ToLower()` (used by `Find`). */
    const lowerFold: Fold
    /** `Users`, in insertion order. */
    var users: seq<UserSession>

    /** The registry invariant: the two folds agree, and no two sessions share a
        connection id or a username. */
    ghost predicate Valid()
      reads this
    {
      Agree(cultureFold, lowerFold) && Unique(users, cultureFold)
    }

    constructor (cultureFold: Fold, lowerFold: Fold)
      requires Agree(cultureFold, lowerFold)
      ensures Valid() && this.cultureFold == cultureFold && this.lowerFold == lowerFold && users == []
    {
      this.cultureFold := cultureFold;
      this.lowerFold := lowerFold;
      users := [];
    }

    /** `CountAll`: with the invariant in force, the number of distinct live connections. */
    function CountAll(): (n: nat)
      reads this
      requires Valid()
      ensures n == |ActiveConnections(users, cultureFold)|
    {
      CountIsDistinctConnections(users, cultureFold);
      |users|
    }

    /** `ListAllActive`: the sessions, in insertion order; its length is `CountAll`. */
    function ListAllActive(): (r: seq<UserSession>)
      reads this
      ensures Valid() ==> |r| == CountAll()
      ensures forall s :: s in r <==> s in users
    {
      users
    }

    /** `IsExist`: some session matches the key under the culture fold. */
    function IsExist(key: string, kt: KeyType): (b: bool)
      reads this
      ensures b <==> FindIndex(users, key, kt, cultureFold).Some?
      ensures kt.Undefined? ==> !b
    {
      exists i :: 0 <= i < |users| && Matches(users[i], key, kt, cultureFold)
    }

    /** `IsActive`: a session holds the connection id, ignoring case. */
    function IsActive(connectionId: string): (b: bool)
      reads this
      ensures b <==> exists s :: s in users && cultureFold(s.connectionId) == cultureFold(connectionId)
    {
      IsExist(connectionId, ConnectionId)
    }

    /** `Find`: the first session whose lower-cased key equals the lower-cased
        `key`, or null; with the folds agreeing it finds exactly what `IsExist` sees. */
    function Find(key: string, kt: KeyType): (r: Option<UserSession>)
      reads this
      ensures r.Some? ==> r.value in users && Matches(r.value, key, kt, lowerFold)
      ensures r.None? <==> !ExistsIn(users, key, kt, lowerFold)
      ensures Valid() ==> (r.Some? <==> IsExist(key, kt))
      ensures kt.Undefined? ==> r.None?
    {
      assert Valid() ==> FindIndex(users, key, kt, lowerFold) == FindIndex(users, key, kt, cultureFold) by {
        if Valid() {
          FindIndexUnderAgreeingFolds(users, key, kt, cultureFold, lowerFold);
        }
      }
      match FindIndex(users, key, kt, lowerFold)
      case None => None
      case Some(i) => Some(users[i])
    }

    /** `FindUsername(connectionId)`: the username of the session holding the connection id. */
    function FindUsername(connectionId: string): (r: Option<string>)
      reads this
      ensures Valid() ==> (r.Some? <==> IsExist(connectionId, ConnectionId))
      ensures r.Some? ==> exists s :: s in users && lowerFold(s.connectionId) == lowerFold(connectionId) && s.username == r.value
    {
      match Find(connectionId, ConnectionId)
      case None => None
      case Some(s) => Some(s.username)
    }

    /** `FindConnectionId(username)`: the connection id of the session holding the username. */
    function FindConnectionId(username: string): (r: Option<string>)
      reads this
      ensures Valid() ==> (r.Some? <==> IsExist(username, Username))
      ensures r.Some? ==> exists s :: s in users && lowerFold(s.username) == lowerFold(username) && s.connectionId == r.value
    {
      match Find(username, Username)
      case None => None
      case Some(s) => Some(s.connectionId)
    }

    /** `AddCore`: checks the connection id, then the username, and appends a new
        session only when both are free. */
    method AddCore(connectionId: string, username: string, now: int) returns (r: ResponseBase)
      requires Valid()
      modifies this
      ensures Valid()
      ensures ExistsIn(old(users), connectionId, ConnectionId, cultureFold) ==>
        r == ResponseBase(false, "Connection ID already exist") && users == old(users)
      ensures !ExistsIn(old(users), connectionId, ConnectionId, cultureFold) && ExistsIn(old(users), username, Username, cultureFold) ==>
        r == ResponseBase(false, "Username " + username + " already exist") && users == old(users)
      ensures !ExistsIn(old(users), connectionId, ConnectionId, cultureFold) && !ExistsIn(old(users), username, Username, cultureFold) ==>
        && r == ResponseBase(true, username + ":" + connectionId + " added")
        && users == old(users) + [UserSession(username, connectionId, now)]
        && FindUsername(connectionId) == Some(username)
        && FindConnectionId(username) == Some(connectionId)
    {
      var connIdExist := IsExist(connectionId, ConnectionId);
      if connIdExist {
        return ResponseBase(false, "Connection ID already exist");
      }
      var usernameExist := IsExist(username, Username);
      if usernameExist {
        return ResponseBase(false, "Username " + username + " already exist");
      }
      var user := UserSession(username, connectionId, now);
      AppendFresh(users, user, cultureFold);
      users := users + [user];
      r := ResponseBase(true, username + ":" + connectionId + " added");
    }

    /** `Remove`: takes out the first session `Find` returns; a key that matches
        nothing leaves the registry as it was. */
    method Remove(key: string, kt: KeyType)
      requires Valid()
      modifies this
      ensures Valid()
      ensures users == RemoveFirst(old(users), key, kt, lowerFold)
      ensures users == RemoveFirst(old(users), key, kt, cultureFold)
      ensures !ExistsIn(old(users), key, kt, cultureFold) ==> users == old(users)
      ensures ExistsIn(old(users), key, kt, cultureFold) ==> |users| == |old(users)| - 1
      ensures !IsExist(key, kt)
    {
      FindIndexUnderAgreeingFolds(users, key, kt, cultureFold, lowerFold);
      RemoveFirstClearsKey(users, key, kt, cultureFold);
      RemoveFirstExactly(users, key, kt, cultureFold);
      var user := Find(key, kt);
      if user.Some? {
        users := RemoveFirst(users, key, kt, lowerFold);
      }
    }

    /** `ForceAdd`: evicts the holder of the connection id, or failing that the
        holder of the username, then runs `AddCore`; like the cache's, it fails on
        its own when the two keys belong to two different sessions. */
    method ForceAdd(connectionId: string, username: string, now: int) returns (r: ResponseBase)
      requires Valid()
      modifies this
      ensures Valid()
      ensures r.isSuccess <==> !(ExistsIn(old(users), connectionId, ConnectionId, cultureFold) &&
                                 ExistsIn(RemoveFirst(old(users), connectionId, ConnectionId, cultureFold), username, Username, cultureFold))
      ensures r.isSuccess ==>
        && r.message == username + ":" + connectionId + " added"
        && users == Evict(old(users), connectionId, username, cultureFold) + [UserSession(username, connectionId, now)]
      ensures !r.isSuccess ==>
        && r.message == "Username " + username + " already exist"
        && users == RemoveFirst(old(users), connectionId, ConnectionId, cultureFold)
    {
      ghost var before := users;
      RemoveFirstClearsKey(before, connectionId, ConnectionId, cultureFold);
      RemoveFirstClearsKey(before, username, Username, cultureFold);
      var connIdExist := IsExist(connectionId, ConnectionId);
      if connIdExist {
        Remove(connectionId, ConnectionId);
        r := AddCore(connectionId, username, now);
        return;
      }
      var usernameExist := IsExist(username, Username);
      if usernameExist {
        Remove(username, Username);
        if ExistsIn(users, connectionId, ConnectionId, cultureFold) {
          RemoveFirstOnlyDeletes(before, username, Username, cultureFold, connectionId, ConnectionId);
        }
        r := AddCore(connectionId, username, now);
        return;
      }
      r := AddCore(connectionId, username, now);
    }

    /** `force ? ForceAdd(..) : AddCore(..)`, as `Add` runs it once the
        connection id is free: a forced add evicts the username's holder and
        always succeeds, a plain one fails when the username is taken. */
    method Dispatch(connectionId: string, username: string, force: bool, now: int) returns (r: ResponseBase)
      requires Valid()
      requires !ExistsIn(users, connectionId, ConnectionId, cultureFold)
      modifies this
      ensures Valid()
      ensures r.isSuccess <==> force || !ExistsIn(old(users), username, Username, cultureFold)
      ensures r.isSuccess ==>
        && r.message == username + ":" + connectionId + " added"
        && users == RemoveFirst(old(users), username, Username, cultureFold) + [UserSession(username, connectionId, now)]
        && FindUsername(connectionId) == Some(username)
        && FindConnectionId(username) == Some(connectionId)
      ensures !r.isSuccess ==>
        && r.message == "Username " + username + " already exist"
        && users == old(users)
    {
      ghost var before := users;
      EvictClearsBoth(before, connectionId, username, cultureFold);
      if force {
        r := ForceAdd(connectionId, username, now);
        AppendFresh(Evict(before, connectionId, username, cultureFold), UserSession(username, connectionId, now), cultureFold);
      } else {
        r := AddCore(connectionId, username, now);
      }
    }

    /** `Add(connectionId, username, force)`. Whatever `force` says, a session
        already holding the connection id (or, failing that, the username) is
        evicted first; then `ForceAdd` or `AddCore` runs. A forced add always
        succeeds and leaves exactly one session for either key. A non-forced add
        fails only when the two keys belong to two different sessions, and then it
        has already evicted the connection id's holder. */
    method Add(connectionId: string, username: string, force: bool, now: int) returns (r: ResponseBase)
      requires Valid()
      modifies this
      ensures Valid()
      ensures r.isSuccess <==> force || !(ExistsIn(old(users), connectionId, ConnectionId, cultureFold) &&
                                          ExistsIn(RemoveFirst(old(users), connectionId, ConnectionId, cultureFold), username, Username, cultureFold))
      ensures r.isSuccess ==>
        && r.message == username + ":" + connectionId + " added"
        && users == Evict(old(users), connectionId, username, cultureFold) + [UserSession(username, connectionId, now)]
        && FindUsername(connectionId) == Some(username)
        && FindConnectionId(username) == Some(connectionId)
      ensures !r.isSuccess ==>
        && r.message == "Username " + username + " already exist"
        && users == RemoveFirst(old(users), connectionId, ConnectionId, cultureFold)
    {
      ghost var before := users;
      var connIdExist := IsExist(connectionId, ConnectionId);
      if connIdExist {
        Remove(connectionId, ConnectionId);
        r := Dispatch(connectionId, username, force, now);
        return;
      }
      var usernameExist := IsExist(username, Username);
      if usernameExist {
        Remove(username, Username);
        if ExistsIn(users, connectionId, ConnectionId, cultureFold) {
          RemoveFirstOnlyDeletes(before, username, Username, cultureFold, connectionId, ConnectionId);
        }
        RemoveFirstClearsKey(users, username, Username, cultureFold);
        r := Dispatch(connectionId, username, force, now);
        return;
      }
      r := Dispatch(connectionId, username, force, now);
    }

    /** `Dispose`: clears the registry. */
    method Dispose()
      requires Agree(cultureFold, lowerFold)
      modifies this
      ensures Valid() && users == []
    {
      users := [];
    }
  }
}
