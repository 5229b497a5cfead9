/**
 * The admin's user table: lookup by id, replace-or-append and delete by id.
 */
module Users {
  import opened Wrappers
  import opened Text
  import opened Lists
  import opened Records

  /** `users.findIndex(u => u._id === id)`: the first index holding the id, or -1. */
  function FindIndex(users: seq<UserData>, id: string): (r: int)
    ensures -1 <= r < |users|
    ensures r == -1 <==> forall i :: 0 <= i < |users| ==> users[i].id != id
    ensures r >= 0 ==> users[r].id == id && forall j :: 0 <= j < r ==> users[j].id != id
    decreases |users|
  {
    if users == [] then -1
    else
      var n := |users| - 1;
      var r := FindIndex(users[..n], id);
      if r >= 0 then r
      else if users[n].id == id then n
      else -1
  }

  /** `users.find(u => u._id === id)` */
  function UserById(users: seq<UserData>, id: string): (r: Option<UserData>)
    ensures r.None? <==> forall i :: 0 <= i < |users| ==> users[i].id != id
    ensures r.Some? ==> r.value.id == id && r.value in users
  {
    var i := FindIndex(users, id);
    if i >= 0 then Some(users[i]) else None
  }

  /** The id given to a user that is appended to a table of `n` users. */
  function NewId(n: nat): string {
    "user_" + NatToString(n + 1)
  }

  /**
   * The table after `saveUser(user)`: a known id replaces its first slot and
   * nothing else; an unknown id appends the user, renamed `user_<n + 1>`,
   * keeping every earlier row.
   */
  function SavedUsers(users: seq<UserData>, user: UserData): (r: seq<UserData>)
    ensures var i := FindIndex(users, user.id);
      (i >= 0 ==> |r| == |users| && r[i] == user && forall j :: 0 <= j < |users| && j != i ==> r[j] == users[j]) &&
      (i < 0 ==> (|r| == |users| + 1 && r[..|users|] == users &&
                  r[|users|] == user.(id := "user_" + NatToString(|users| + 1))))
  {
    var i := FindIndex(users, user.id);
    if i >= 0 then users[i := user]
    else users + [user.(id := NewId(|users|))]
  }

  /**
   * Saving twice under a known id is saving once; and the appended row can be
   * found again under its new id whenever no earlier row already holds it.
   */
  lemma SaveUserAgain(users: seq<UserData>, user: UserData)
    ensures FindIndex(users, user.id) >= 0 ==> SavedUsers(SavedUsers(users, user), user) == SavedUsers(users, user)
    ensures FindIndex(users, user.id) < 0 && FindIndex(users, NewId(|users|)) < 0 ==>
      UserById(SavedUsers(users, user), NewId(|users|)) == Some(user.(id := NewId(|users|)))
  {
    var i := FindIndex(users, user.id);
    var r := SavedUsers(users, user);
    if i >= 0 {
      assert r[i] == user;
      assert FindIndex(r, user.id) == i by {
        forall j | 0 <= j < i ensures r[j].id != user.id {
          assert r[j] == users[j];
        }
      }
    } else if FindIndex(users, NewId(|users|)) < 0 {
      var k := NewId(|users|);
      forall j | 0 <= j < |users| ensures r[j].id != k {
        assert r[j] == users[j];
      }
      assert FindIndex(r, k) == |users|;
    }
  }

  function HasId(id: string): UserData -> bool {
    (u: UserData) => u.id == id
  }

  function Keeps(id: string): UserData -> bool {
    (u: UserData) => u.id != id
  }

  /** The table after `deleteUser(id)`. */
  function DeletedUsers(users: seq<UserData>, id: string): seq<UserData> {
    Filter(users, Keeps(id))
  }

  /** Deleting removes every row with the id, keeps every other row, and keeps their order. */
  lemma DeleteUserCorrect(users: seq<UserData>, id: string)
    ensures forall u :: u in DeletedUsers(users, id) <==> u in users && u.id != id
    ensures IsSubsequence(DeletedUsers(users, id), users)
    ensures UserById(DeletedUsers(users, id), id) == None
    ensures |DeletedUsers(users, id)| == |users| - Count(users, HasId(id))
  {
    FilterMembers(users, Keeps(id));
    FilterIsSubsequence(users, Keeps(id));
    DeletedCount(users, id);
  }

  lemma {:induction false} DeletedCount(users: seq<UserData>, id: string)
    ensures |Filter(users, Keeps(id))| + Count(users, HasId(id)) == |users|
    decreases |users|
  {
    if users != [] {
      DeletedCount(users[..|users| - 1], id);
    }
  }
}
