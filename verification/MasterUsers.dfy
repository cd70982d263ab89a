// The user table of the master server (MasterServer/LUserManager.cpp).
module MasterUsers {
  import opened ObjectMaps

  const NOT_KNOWN: nat := 0
  const CREATED: nat := 1
  const WAITING_RESPONSE: nat := 2
  const WAITING_LOGIN: nat := 3
  const CONNECTED: nat := 4

  class LUser {
    var db: nat
    var state: nat

    constructor ()
      ensures db == 0 && state == NOT_KNOWN
    {
      db, state := 0, NOT_KNOWN;
    }

    method Reset()
      modifies this
      ensures db == 0 && state == NOT_KNOWN
    {
      db, state := 0, NOT_KNOWN;
    }
  }

  class LUserManager {
    var users: map<nat, LUser>
    var pool: seq<LUser>

    // Every user is filed under its own number; a pooled object is in no map
    // and only once in the pool.
    ghost predicate Valid()
      reads this, users.Values
    {
      && (forall u <- users :: users[u].db == u)
      && (forall i | 0 <= i < |pool| :: pool[i] !in users.Values)
      && (forall i, j | 0 <= i < j < |pool| :: pool[i] != pool[j])
    }

    ghost function View(): map<nat, nat>
      reads this, users.Values
    {
      map u <- users :: users[u].state
    }

    // Everything an operation may write to.
    ghost function Objects(): set<object>
      reads this
    {
      {this} + users.Values + set x <- pool
    }

    constructor ()
      ensures Valid() && View() == map[]
    {
      users, pool := map[], [];
    }

    method InitializeUserPool(size: nat)
      requires Valid()
      modifies this
      ensures Valid() && View() == old(View())
      ensures |pool| == |old(pool)| + if size == 0 then 100 else size
      ensures fresh(Objects() - old(Objects()))
    {
      var n := if size == 0 then 100 else size;
      for i := 0 to n
        invariant Valid() && View() == old(View())
        invariant |pool| == |old(pool)| + i
        invariant fresh(Objects() - old(Objects()))
      {
        var user := new LUser();
        pool := pool + [user];
      }
    }

    method AllocOneUser() returns (user: LUser)
      requires Valid()
      modifies this
      ensures Valid() && View() == old(View()) && users == old(users)
      ensures user !in users.Values && user !in pool
      ensures user in old(Objects()) || fresh(user)
      ensures Objects() <= old(Objects())
    {
      if pool == [] {
        user := new LUser();
      } else {
        user := pool[0];
        pool := pool[1..];
      }
    }

    method FreeOneUser(user: LUser)
      requires Valid() && user !in users.Values && user !in pool
      modifies this, user
      ensures Valid() && View() == old(View()) && users == old(users)
      ensures Objects() == old(Objects()) + {user}
    {
      user.Reset();
      pool := pool + [user];
    }

    method AddNewUserInfo(user: LUser) returns (ok: bool)
      requires Valid() && user !in users.Values && user !in pool
      modifies this
      ensures Valid() && pool == old(pool)
      ensures ok <==> user.db !in old(users)
      ensures View() == if ok then old(View())[user.db := user.state] else old(View())
      ensures Objects() == if ok then old(Objects()) + {user} else old(Objects())
      ensures ok ==> users == old(users)[user.db := user]
    {
      if user.db in users {
        return false;
      }
      ghost var before := users;
      users := users[user.db := user];
      AddedValues(before, user.db, user);
      return true;
    }

    method FindUser(u: nat) returns (user: LUser?)
      requires Valid()
      ensures (user == null) <==> u !in View()
      ensures u in View() <==> u in users
      ensures user != null ==> u in users && user == users[u] && user.state == View()[u]
    {
      if u in users {
        return users[u];
      }
      return null;
    }

    // The state of a user the caller has looked up.
    method SetUserState(u: nat, state: nat)
      requires Valid() && u in users
      modifies users.Values
      ensures Valid() && View() == old(View())[u := state]
      ensures Objects() == old(Objects())
    {
      users[u].state := state;
    }

    method RemoveUser(u: nat)
      requires Valid()
      modifies Objects()
      ensures Valid() && View() == old(View()) - {u}
      ensures Objects() == old(Objects())
    {
      if u !in users {
        return;
      }
      var user := users[u];
      RemovedValues(users, u);
      users := users - {u};
      FreeOneUser(user);
    }

    // Only the move from Created to waiting for the gate is allowed.
    method UpdateUserState(u: nat, state: nat) returns (ok: bool)
      requires Valid()
      modifies Objects()
      ensures Valid() && Objects() == old(Objects())
      ensures ok <==> u in old(View()) && old(View())[u] == CREATED && state == WAITING_RESPONSE
      ensures View() == if ok then old(View())[u := WAITING_RESPONSE] else old(View())
    {
      var user := FindUser(u);
      if user == null {
        return false;
      }
      if state == WAITING_RESPONSE {
        if user.state != CREATED {
          return false;
        }
        SetUserState(u, WAITING_RESPONSE);
        return true;
      }
      return false;
    }
  }
}
