/** The session record shared by both session registries (HubUserCache and
    HubUserService) and the list operations their methods are built from:
    key matching under a case fold, first-match lookup (`List.Find`),
    first-match removal (`Find` followed by `List.Remove`), and the compound
    uniqueness invariant the registries keep. */
module Sessions {
  import opened Wrappers

  /** `UserSessionKeyType`. A C# enum variable may hold any integer; such a value
      takes the `_` arm of every switch over the key type. */
  datatype KeyType = Username | ConnectionId | Undefined(value: int)

  /** `UserSession`; `startTime` is the clock reading taken when it was registered. */
  datatype UserSession = UserSession(username: string, connectionId: string, startTime: int)

  /** `ResponseBase`, the result envelope of the registry's add operations. */
  datatype ResponseBase = ResponseBase(isSuccess: bool, message: string)

  /** What the hub knows of a caller: the connection id the transport assigned and
      the `username` query parameter of the handshake. */
  datatype HubCallerContext = HubCallerContext(connectionId: string, usernameQuery: string)

  /** A case fold: two keys are equal ignoring case exactly when their folds are
      equal. It stands in for `StringComparison.CurrentCultureIgnoreCase` and for
      comparing `ToLower()` results. */
  type Fold = string -> string

  /** Two folds that identify the same pairs of keys. */
  ghost predicate Agree(f: Fold, g: Fold) {
    forall a, b :: f(a) == f(b) <==> g(a) == g(b)
  }

  /** The key predicate of `IsExist` and `Find`: the selected key of `s` equals
      `key` ignoring case; an undefined key type matches nothing. */
  predicate Matches(s: UserSession, key: string, kt: KeyType, fold: Fold) {
    match kt
    case Username => fold(s.username) == fold(key)
    case ConnectionId => fold(s.connectionId) == fold(key)
    case Undefined(_) => false
  }

  /** `List.Exists` with the key predicate. */
  predicate ExistsIn(users: seq<UserSession>, key: string, kt: KeyType, fold: Fold) {
    exists i :: 0 <= i < |users| && Matches(users[i], key, kt, fold)
  }

  /** The position `List.Find` stops at: the first session matching the key. */
  function FindIndex(users: seq<UserSession>, key: string, kt: KeyType, fold: Fold): (r: Option<nat>)
    ensures r.None? <==> !ExistsIn(users, key, kt, fold)
    ensures r.Some? ==> r.value < |users| && Matches(users[r.value], key, kt, fold)
    ensures r.Some? ==> forall j :: 0 <= j < r.value ==> !Matches(users[j], key, kt, fold)
    decreases |users|
  {
    if |users| == 0 then None
    else if Matches(users[0], key, kt, fold) then Some(0)
    else match FindIndex(users[1..], key, kt, fold)
      case None => None
      case Some(i) => Some(i + 1)
  }

  /** The list without its element at position `i`. */
  function RemoveAt(users: seq<UserSession>, i: nat): (r: seq<UserSession>)
    requires i < |users|
    ensures |r| == |users| - 1
    ensures forall p :: 0 <= p < |r| ==> r[p] == users[if p < i then p else p + 1]
  {
    users[..i] + users[i + 1..]
  }

  /** `Remove(key, type)`: the first matching session is taken out, if there is one. */
  function RemoveFirst(users: seq<UserSession>, key: string, kt: KeyType, fold: Fold): seq<UserSession> {
    match FindIndex(users, key, kt, fold)
    case None => users
    case Some(i) => RemoveAt(users, i)
  }

  /** The list a forced add ends with before it appends: the holder of the
      connection id, then the holder of the username, taken out. */
  function Evict(users: seq<UserSession>, connectionId: string, username: string, fold: Fold): seq<UserSession> {
    RemoveFirst(RemoveFirst(users, connectionId, ConnectionId, fold), username, Username, fold)
  }

  /** The registry invariant: no two sessions share a connection id, and no two
      share a username, both compared under the fold. */
  ghost predicate Unique(users: seq<UserSession>, fold: Fold) {
    forall i, j :: 0 <= i < j < |users| ==>
      fold(users[i].connectionId) != fold(users[j].connectionId) &&
      fold(users[i].username) != fold(users[j].username)
  }

  /** The folded connection ids of the registered sessions. */
  ghost function ActiveConnections(users: seq<UserSession>, fold: Fold): set<string> {
    set i | 0 <= i < |users| :: fold(users[i].connectionId)
  }

  // ---------------------------------------------------------------------------
  // Lemmas

  /** Under the invariant a session matching a key is the only one: no other
      session matches it. */
  lemma OthersDoNotMatch(users: seq<UserSession>, key: string, kt: KeyType, fold: Fold, i: nat, j: nat)
    requires Unique(users, fold)
    requires i < |users| && j < |users| && i != j
    requires Matches(users[i], key, kt, fold)
    ensures !Matches(users[j], key, kt, fold)
  {
    if i < j {
      assert fold(users[i].connectionId) != fold(users[j].connectionId);
      assert fold(users[i].username) != fold(users[j].username);
    } else {
      assert fold(users[j].connectionId) != fold(users[i].connectionId);
      assert fold(users[j].username) != fold(users[i].username);
    }
  }

  /** Removing any one session keeps the invariant. */
  lemma RemoveAtKeepsUnique(users: seq<UserSession>, i: nat, fold: Fold)
    requires i < |users| && Unique(users, fold)
    ensures Unique(RemoveAt(users, i), fold)
  {
    var r := RemoveAt(users, i);
    forall p, q | 0 <= p < q < |r|
      ensures fold(r[p].connectionId) != fold(r[q].connectionId)
      ensures fold(r[p].username) != fold(r[q].username)
    {
      var p', q' := if p < i then p else p + 1, if q < i then q else q + 1;
      assert r[p] == users[p'] && r[q] == users[q'] && p' < q';
    }
  }

  /** Removal only deletes: whatever matches afterwards matched before. */
  lemma RemoveFirstOnlyDeletes(users: seq<UserSession>, key: string, kt: KeyType, fold: Fold,
                               key2: string, kt2: KeyType)
    requires ExistsIn(RemoveFirst(users, key, kt, fold), key2, kt2, fold)
    ensures ExistsIn(users, key2, kt2, fold)
  {
    var r := RemoveFirst(users, key, kt, fold);
    var p :| 0 <= p < |r| && Matches(r[p], key2, kt2, fold);
    match FindIndex(users, key, kt, fold)
    case None =>
    case Some(i) =>
      var p' := if p < i then p else p + 1;
      assert r[p] == users[p'];
  }

  /** `Remove` on a key that matches nothing leaves the list as it was; otherwise
      exactly one session, the first match, is taken out (the others keep their
      order, as `RemoveAt` states). */
  lemma RemoveFirstExactly(users: seq<UserSession>, key: string, kt: KeyType, fold: Fold)
    ensures !ExistsIn(users, key, kt, fold) ==> RemoveFirst(users, key, kt, fold) == users
    ensures ExistsIn(users, key, kt, fold) ==>
      && |RemoveFirst(users, key, kt, fold)| == |users| - 1
      && multiset(RemoveFirst(users, key, kt, fold)) + multiset{users[FindIndex(users, key, kt, fold).value]} == multiset(users)
  {
    if ExistsIn(users, key, kt, fold) {
      var i := FindIndex(users, key, kt, fold).value;
      SplitAt(users, i);
    }
  }

  lemma SplitAt(users: seq<UserSession>, i: nat)
    requires i < |users|
    ensures multiset(users[..i] + users[i + 1..]) + multiset{users[i]} == multiset(users)
  {
    assert users == users[..i] + [users[i]] + users[i + 1..];
  }

  /** Under the invariant, removing by a defined key leaves no session with that key. */
  lemma RemoveFirstClearsKey(users: seq<UserSession>, key: string, kt: KeyType, fold: Fold)
    requires Unique(users, fold)
    ensures Unique(RemoveFirst(users, key, kt, fold), fold)
    ensures !ExistsIn(RemoveFirst(users, key, kt, fold), key, kt, fold)
  {
    match FindIndex(users, key, kt, fold)
    case None =>
    case Some(i) =>
      RemoveAtKeepsUnique(users, i, fold);
      var r := RemoveAt(users, i);
      forall p | 0 <= p < |r| ensures !Matches(r[p], key, kt, fold) {
        var p' := if p < i then p else p + 1;
        assert r[p] == users[p'];
        OthersDoNotMatch(users, key, kt, fold, i, p');
      }
  }

  /** The list a forced add evicts to keeps the invariant and holds neither key. */
  lemma EvictClearsBoth(users: seq<UserSession>, connectionId: string, username: string, fold: Fold)
    requires Unique(users, fold)
    ensures Unique(Evict(users, connectionId, username, fold), fold)
    ensures !ExistsIn(Evict(users, connectionId, username, fold), connectionId, ConnectionId, fold)
    ensures !ExistsIn(Evict(users, connectionId, username, fold), username, Username, fold)
  {
    var mid := RemoveFirst(users, connectionId, ConnectionId, fold);
    RemoveFirstClearsKey(users, connectionId, ConnectionId, fold);
    RemoveFirstClearsKey(mid, username, Username, fold);
    if ExistsIn(Evict(users, connectionId, username, fold), connectionId, ConnectionId, fold) {
      RemoveFirstOnlyDeletes(mid, username, Username, fold, connectionId, ConnectionId);
    }
  }

  /** Eviction takes out only holders of the two keys: every session that holds
      neither is still there, and nothing new appears. */
  lemma EvictKeepsOthers(users: seq<UserSession>, connectionId: string, username: string, fold: Fold, s: UserSession)
    ensures s in Evict(users, connectionId, username, fold) ==> s in users
    ensures s in users && !Matches(s, connectionId, ConnectionId, fold) && !Matches(s, username, Username, fold)
            ==> s in Evict(users, connectionId, username, fold)
  {
    var mid := RemoveFirst(users, connectionId, ConnectionId, fold);
    RemoveFirstExactly(users, connectionId, ConnectionId, fold);
    RemoveFirstExactly(mid, username, Username, fold);
    if s in users && !Matches(s, connectionId, ConnectionId, fold) && !Matches(s, username, Username, fold) {
      if ExistsIn(users, connectionId, ConnectionId, fold) {
        var i := FindIndex(users, connectionId, ConnectionId, fold).value;
        assert s != users[i];
        assert s in multiset(mid);
      }
      assert s in mid;
      if ExistsIn(mid, username, Username, fold) {
        var i := FindIndex(mid, username, Username, fold).value;
        assert s != mid[i];
        assert s in multiset(Evict(users, connectionId, username, fold));
      }
    }
    if s in Evict(users, connectionId, username, fold) {
      assert s in multiset(Evict(users, connectionId, username, fold));
      assert s in multiset(mid);
      assert s in multiset(users);
    }
  }

  /** With both keys absent, appending a session keeps the invariant, and the new
      session is what a lookup by either of its keys returns. */
  lemma AppendFresh(users: seq<UserSession>, s: UserSession, fold: Fold)
    requires Unique(users, fold)
    requires !ExistsIn(users, s.connectionId, ConnectionId, fold)
    requires !ExistsIn(users, s.username, Username, fold)
    ensures Unique(users + [s], fold)
    ensures FindIndex(users + [s], s.connectionId, ConnectionId, fold) == Some(|users|)
    ensures FindIndex(users + [s], s.username, Username, fold) == Some(|users|)
  {
    var r := users + [s];
    forall i | 0 <= i < |users|
      ensures !Matches(r[i], s.connectionId, ConnectionId, fold) && !Matches(r[i], s.username, Username, fold)
    {
      assert r[i] == users[i];
    }
    assert Matches(r[|users|], s.connectionId, ConnectionId, fold);
    assert Matches(r[|users|], s.username, Username, fold);
    FirstMatchIsFound(r, s.connectionId, ConnectionId, fold, |users|);
    FirstMatchIsFound(r, s.username, Username, fold, |users|);
  }

  /** A matching position with no match before it is where the lookup stops. */
  lemma FirstMatchIsFound(users: seq<UserSession>, key: string, kt: KeyType, fold: Fold, k: nat)
    requires k < |users| && Matches(users[k], key, kt, fold)
    requires forall j :: 0 <= j < k ==> !Matches(users[j], key, kt, fold)
    ensures FindIndex(users, key, kt, fold) == Some(k)
  {
    assert FindIndex(users, key, kt, fold).Some?;
  }

  /** The non-forced add's failure case: when the connection id and the username
      are held by two different sessions A and B, evicting by connection id takes
      out A and leaves B, so the username is still taken. */
  lemma DistinctHoldersBlock(users: seq<UserSession>, connectionId: string, username: string, fold: Fold, a: nat, b: nat)
    requires Unique(users, fold)
    requires FindIndex(users, connectionId, ConnectionId, fold) == Some(a)
    requires FindIndex(users, username, Username, fold) == Some(b)
    requires a != b
    ensures users[a] !in RemoveFirst(users, connectionId, ConnectionId, fold)
    ensures users[b] in RemoveFirst(users, connectionId, ConnectionId, fold)
    ensures ExistsIn(RemoveFirst(users, connectionId, ConnectionId, fold), username, Username, fold)
  {
    var r := RemoveAt(users, a);
    assert RemoveFirst(users, connectionId, ConnectionId, fold) == r;
    var b' := if b < a then b else b - 1;
    assert r[b'] == users[b];
    assert 0 <= b' < |r| && Matches(r[b'], username, Username, fold);
    forall p | 0 <= p < |r| ensures r[p] != users[a] {
      var p' := if p < a then p else p + 1;
      assert r[p] == users[p'];
      OthersDoNotMatch(users, connectionId, ConnectionId, fold, a, p');
      assert !Matches(r[p], connectionId, ConnectionId, fold);
    }
  }

  /** The same session holds both keys, or only one key is taken: evicting by
      connection id leaves the username free. */
  lemma SameHolderFrees(users: seq<UserSession>, connectionId: string, username: string, fold: Fold)
    requires Unique(users, fold)
    requires ExistsIn(users, connectionId, ConnectionId, fold)
    requires var a := FindIndex(users, connectionId, ConnectionId, fold).value;
             forall j :: 0 <= j < |users| && Matches(users[j], username, Username, fold) ==> j == a
    ensures !ExistsIn(RemoveFirst(users, connectionId, ConnectionId, fold), username, Username, fold)
  {
    var a := FindIndex(users, connectionId, ConnectionId, fold).value;
    var r := RemoveFirst(users, connectionId, ConnectionId, fold);
    forall p | 0 <= p < |r| ensures !Matches(r[p], username, Username, fold) {
      var p' := if p < a then p else p + 1;
      assert r[p] == users[p'];
    }
  }

  /** Under the invariant there are as many registered sessions as distinct
      connection ids. */
  lemma {:induction false} CountIsDistinctConnections(users: seq<UserSession>, fold: Fold)
    requires Unique(users, fold)
    ensures |ActiveConnections(users, fold)| == |users|
    decreases |users|
  {
    if |users| > 0 {
      var n := |users| - 1;
      var init := users[..n];
      assert Unique(init, fold) by {
        forall i, j | 0 <= i < j < |init| ensures fold(init[i].connectionId) != fold(init[j].connectionId) {
          assert init[i] == users[i] && init[j] == users[j];
        }
        forall i, j | 0 <= i < j < |init| ensures fold(init[i].username) != fold(init[j].username) {
          assert init[i] == users[i] && init[j] == users[j];
        }
      }
      CountIsDistinctConnections(init, fold);
      var last := fold(users[n].connectionId);
      assert ActiveConnections(users, fold) == ActiveConnections(init, fold) + {last} by {
        forall k | k in ActiveConnections(users, fold) ensures k in ActiveConnections(init, fold) + {last} {
          var i :| 0 <= i < |users| && k == fold(users[i].connectionId);
          if i < n { assert init[i] == users[i]; }
        }
        forall k | k in ActiveConnections(init, fold) ensures k in ActiveConnections(users, fold) {
          var i :| 0 <= i < |init| && k == fold(init[i].connectionId);
          assert init[i] == users[i];
        }
      }
      assert last !in ActiveConnections(init, fold) by {
        forall i | 0 <= i < |init| ensures fold(init[i].connectionId) != last {
          assert init[i] == users[i];
        }
      }
    }
  }

  /** Two agreeing folds make `List.Find` stop at the same session. */
  lemma {:induction false} FindIndexUnderAgreeingFolds(users: seq<UserSession>, key: string, kt: KeyType, f: Fold, g: Fold)
    requires Agree(f, g)
    ensures FindIndex(users, key, kt, f) == FindIndex(users, key, kt, g)
    decreases |users|
  {
    if |users| > 0 {
      assert Matches(users[0], key, kt, f) == Matches(users[0], key, kt, g);
      FindIndexUnderAgreeingFolds(users[1..], key, kt, f, g);
    }
  }

  /** Two agreeing folds make `ExistsIn` and the invariant coincide. */
  lemma UniqueUnderAgreeingFolds(users: seq<UserSession>, key: string, kt: KeyType, f: Fold, g: Fold)
    requires Agree(f, g)
    ensures ExistsIn(users, key, kt, f) == ExistsIn(users, key, kt, g)
    ensures Unique(users, f) == Unique(users, g)
  {
    FindIndexUnderAgreeingFolds(users, key, kt, f, g);
  }

  /** Two agreeing folds remove the same session, so an eviction by either fold
      leaves the same list. */
  lemma EvictUnderAgreeingFolds(users: seq<UserSession>, connectionId: string, username: string, f: Fold, g: Fold)
    requires Agree(f, g)
    ensures RemoveFirst(users, connectionId, ConnectionId, f) == RemoveFirst(users, connectionId, ConnectionId, g)
    ensures Evict(users, connectionId, username, f) == Evict(users, connectionId, username, g)
  {
    FindIndexUnderAgreeingFolds(users, connectionId, ConnectionId, f, g);
    var mid := RemoveFirst(users, connectionId, ConnectionId, f);
    FindIndexUnderAgreeingFolds(mid, username, Username, f, g);
  }
}
