/**
 The client's list of users (src/users.cpp), updated in place by the server's messages.
 */
module UserList {
  import opened Wire
  import opened Network

  class UserList {
    var users: seq<User>
    var dirty: bool

    constructor ()
      ensures users == [] && !dirty
    {
      users, dirty := [], false;
    }

    /** add_users: the first `len` entries of the message are appended one by one. */
    method AddUsers(entries: seq<User>, len: nat)
      requires len <= |entries|
      modifies this
      ensures users == old(users) + entries[..len] && dirty
    {
      var i := 0;
      while i < len
        invariant i <= len && users == old(users) + entries[..i]
      {
        users := users + [entries[i]];
        i := i + 1;
      }
      dirty := true;
    }

    /** remove_user: the first user with the id is erased, if there is one. */
    method RemoveUser(id: ClientId)
      modifies this
      ensures users == Network.RemoveUser(old(users), id) && dirty
    {
      var i := 0;
      while i < |users| && users[i].id != id
        invariant i <= |users| && forall j | 0 <= j < i :: users[j].id != id
      {
        i := i + 1;
      }
      Erased(users, id, i);
      if i < |users| {
        users := users[..i] + users[i + 1..];
      }
      dirty := true;
    }
  }

  lemma {:induction false} Erased(users: seq<User>, id: ClientId, i: nat)
    requires i <= |users| && (forall j | 0 <= j < i :: users[j].id != id) && (i < |users| ==> users[i].id == id)
    ensures Network.RemoveUser(users, id) == if i < |users| then users[..i] + users[i + 1..] else users
  {
    if i > 0 {
      Erased(users[1..], id, i - 1);
    }
  }
}
