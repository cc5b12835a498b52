/** Following users: the follow table mirrored into one store set per follower, the
    follow check, and the common follows of two users. */
module FollowService {
  import opened Common
  import opened Redis
  import opened Db

  const FOLLOWS_KEY := "follows:"

  function FollowsKey(userId: int): string { FOLLOWS_KEY + Str(userId) }

  /** The users a user follows according to the table, rendered as set members. */
  function FollowedNames(follows: seq<Follow>, userId: int): set<string>
  {
    set f | f in follows && f.userId == userId :: Str(f.followUserId)
  }

  /** The store set of every user holds exactly the ids that user follows in the table. */
  ghost predicate FollowMirror(store: Store, db: Tables)
    reads store`sets, db`follows
  {
    forall u :: store.Members(FollowsKey(u)) == FollowedNames(db.follows, u)
  }

  /** follow(followId, isFollow): a follow saves the row and, once saved, adds followId to
      the follower's set; an unfollow deletes the matching rows and, only if a row was
      deleted, removes followId from the set. Either way the set keeps mirroring the
      table. */
  method FollowUser(store: Store, db: Tables, userId: int, followId: int, isFollow: bool) returns (r: Result<()>)
    modifies store`sets, db`follows
    ensures r == OkEmpty
    ensures isFollow ==>
              && db.follows == old(db.follows) + [Follow(userId, followId)]
              && store.sets == old(store.sets)[FollowsKey(userId) := old(store.Members(FollowsKey(userId))) + {Str(followId)}]
    ensures !isFollow ==>
              && db.follows == WithoutFollow(old(db.follows), Follow(userId, followId))
              && store.sets == if Follow(userId, followId) in old(db.follows)
                               then old(store.sets)[FollowsKey(userId) := old(store.Members(FollowsKey(userId))) - {Str(followId)}]
                               else old(store.sets)
    ensures old(FollowMirror(store, db)) ==> FollowMirror(store, db)
  {
    var key := FollowsKey(userId);
    ghost var mirrored := FollowMirror(store, db);
    ghost var before := db.follows;
    if isFollow {
      var isSuccess := db.SaveFollow(Follow(userId, followId));
      if isSuccess {
        store.SetAdd(key, Str(followId));
      }
      if mirrored {
        forall u ensures store.Members(FollowsKey(u)) == FollowedNames(db.follows, u) {
          SavedFollowMirrors(before, Follow(userId, followId), u);
          if u != userId { KeysDiffer(u, userId); }
        }
      }
    } else {
      var isSuccess := db.RemoveFollows(userId, followId);
      if isSuccess {
        store.SetRemove(key, Str(followId));
      }
      if mirrored {
        forall u ensures store.Members(FollowsKey(u)) == FollowedNames(db.follows, u) {
          RemovedFollowMirrors(before, Follow(userId, followId), u);
          if u != userId { KeysDiffer(u, userId); }
        }
      }
    }
    r := OkEmpty;
  }

  lemma KeysDiffer(a: int, b: int)
    requires a != b
    ensures FollowsKey(a) != FollowsKey(b)
  {
    if FollowsKey(a) == FollowsKey(b) {
      IdKeyInjective(FOLLOWS_KEY, a, b);
    }
  }

  lemma SavedFollowMirrors(follows: seq<Follow>, f: Follow, u: int)
    ensures FollowedNames(follows + [f], u) ==
              if u == f.userId then FollowedNames(follows, u) + {Str(f.followUserId)} else FollowedNames(follows, u)
  {
  }

  /** Deleting the rows of one follow pair removes exactly that followed id from the
      follower's names, and only when such a row existed. */
  lemma RemovedFollowMirrors(follows: seq<Follow>, f: Follow, u: int)
    ensures FollowedNames(WithoutFollow(follows, f), u) ==
              if u == f.userId && f in follows then FollowedNames(follows, u) - {Str(f.followUserId)}
              else FollowedNames(follows, u)
  {
    var after := WithoutFollow(follows, f);
    forall n | n in FollowedNames(follows, u) && !(u == f.userId && n == Str(f.followUserId))
      ensures n in FollowedNames(after, u)
    {
      var g :| g in follows && g.userId == u && Str(g.followUserId) == n;
      if g == f {
        assert false;
      }
      assert g in after;
    }
    forall n | n in FollowedNames(after, u) && u == f.userId && n == Str(f.followUserId)
      ensures false
    {
      var g :| g in after && g.userId == u && Str(g.followUserId) == n;
      StrInjective(g.followUserId, f.followUserId);
    }
  }

  /** isFollow(followId): true exactly when a matching row exists. */
  function IsFollow(db: Tables, userId: int, followId: int): (r: Result<bool>)
    reads db`follows
    ensures r == Ok(Follow(userId, followId) in db.follows)
  {
    Ok(Matching(db.follows, userId, followId) > 0)
  }

  /** The rows of the users table whose id is in `ids`, in table order (listByIds). */
  function UsersWithIdIn(users: seq<User>, ids: set<int>): (r: seq<User>)
    ensures forall u :: u in r <==> u in users && u.id in ids
  {
    if users == [] then []
    else (if users[0].id in ids then [users[0]] else []) + UsersWithIdIn(users[1..], ids)
  }

  /** The users named by a set of members: empty for an empty set, a
      NumberFormatException when a member does not parse, else the rows with those ids. */
  function UsersNamed(users: seq<User>, names: set<string>): (r: Result<seq<User>>)
    ensures names == {} ==> r == Ok([])
    ensures r.Raised? <==> exists m :: m in names && ParseLong(m).None?
    ensures r.Ok? ==> forall u :: u in r.data <==> u in users && exists m :: m in names && ParseLong(m) == Some(u.id)
  {
    if names == {} then Ok([])
    else if exists m :: m in names && ParseLong(m).None? then Raised("NumberFormatException")
    else
      var ids := set m | m in names :: ParseLong(m).value;
      Ok(UsersWithIdIn(users, ids))
  }

  /** followCommons(id) as written: the union of the two follow sets. */
  function FollowCommonsAsWritten(store: Store, db: Tables, userId: int, id: int): (r: Result<seq<User>>)
    reads store`sets, db`users
    ensures r.Ok? ==> forall u :: u in r.data ==>
              exists m :: (m in store.Members(FollowsKey(userId)) || m in store.Members(FollowsKey(id)))
                          && ParseLong(m) == Some(u.id)
  {
    UsersNamed(db.users, store.Members(FollowsKey(userId)) + store.Members(FollowsKey(id)))
  }

  /** followCommons(id) as its comment intends: the intersection of the two follow sets. */
  function FollowCommons(store: Store, db: Tables, userId: int, id: int): (r: Result<seq<User>>)
    reads store`sets, db`users
    ensures r.Ok? ==> forall u :: u in r.data ==>
              exists m :: m in store.Members(FollowsKey(userId)) && m in store.Members(FollowsKey(id))
                          && ParseLong(m) == Some(u.id)
  {
    UsersNamed(db.users, store.Members(FollowsKey(userId)) * store.Members(FollowsKey(id)))
  }

  /** With the sets mirroring the table and every followed id a long, the intended common
      follows are exactly the users both follow. */
  lemma CommonsAreFollowedByBoth(store: Store, db: Tables, userId: int, id: int)
    requires FollowMirror(store, db)
    requires forall f :: f in db.follows ==> LONG_MIN <= f.followUserId <= LONG_MAX
    ensures FollowCommons(store, db, userId, id).Ok?
    ensures forall u :: u in FollowCommons(store, db, userId, id).data <==>
              u in db.users && Follow(userId, u.id) in db.follows && Follow(id, u.id) in db.follows
  {
    var both := store.Members(FollowsKey(userId)) * store.Members(FollowsKey(id));
    assert both == FollowedNames(db.follows, userId) * FollowedNames(db.follows, id);
    forall m | m in both ensures ParseLong(m).Some? {
      var f :| f in db.follows && f.userId == userId && Str(f.followUserId) == m;
      ParseStr(f.followUserId);
    }
    var r := FollowCommons(store, db, userId, id);
    forall u ensures u in r.data <==>
                       u in db.users && Follow(userId, u.id) in db.follows && Follow(id, u.id) in db.follows {
      if u in r.data {
        var m :| m in both && ParseLong(m) == Some(u.id);
        var f :| f in db.follows && f.userId == userId && Str(f.followUserId) == m;
        var g :| g in db.follows && g.userId == id && Str(g.followUserId) == m;
        ParseStr(f.followUserId);
        ParseStr(g.followUserId);
        assert f == Follow(userId, u.id) && g == Follow(id, u.id);
      }
      if u in db.users && Follow(userId, u.id) in db.follows && Follow(id, u.id) in db.follows {
        ParseStr(u.id);
        assert Str(u.id) in both;
      }
    }
  }

  /** The union answers users that only one of the two follows: user 1 follows 3 and user
      2 follows 4, and the union lists both 3 and 4, while the intersection lists nobody. */
  lemma UnionIsNotCommon()
    ensures var users := [User(3, "", "", ""), User(4, "", "", "")];
            && UsersNamed(users, {"3"} + {"4"}) == Ok(users)
            && UsersNamed(users, {"3"} * {"4"}) == Ok([])
  {
    var users := [User(3, "", "", ""), User(4, "", "", "")];
    var names: set<string> := {"3", "4"};
    assert {"3"} + {"4"} == names;
    SingleDigitParses('3');
    SingleDigitParses('4');
    assert forall m :: m in names ==> ParseLong(m).Some?;
    var ids := set m | m in names :: ParseLong(m).value;
    assert ids == {3, 4} by {
      assert ParseLong("3").value == 3 && ParseLong("4").value == 4;
    }
    assert UsersWithIdIn(users[1..], {3, 4}) == [users[1]];
    assert UsersWithIdIn(users, ids) == users;
    assert !(exists m :: m in names && ParseLong(m).None?);
    assert UsersNamed(users, names) == Ok(UsersWithIdIn(users, ids));
    assert {"3"} * {"4"} == {} by { assert "3" != "4"; }
  }

  lemma SingleDigitParses(c: char)
    requires '0' <= c <= '9'
    ensures ParseLong([c]) == Some(c as int - 48)
  {
    assert [c][..0] == [];
    assert DecimalValue([c]) == 10 * DecimalValue([]) + DigitValue(c);
  }
}
