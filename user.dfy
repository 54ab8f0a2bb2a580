/**
 * The user context: the user record a page holds, its two field setters,
 * the `request-connection` emission, and the socket handlers the provider's
 * effect registers (`invalid-token`, `connected`, `disconnect`) and removes
 * again in its cleanup.
 */
module UserProvider {

  datatype UserType = Admin | Participant

  /** The user record; `attr` is an open bag of attributes, empty at first. */
  datatype User = User(id: string, userType: UserType, isConnected: bool, attr: map<string, string>)

  /** The record the provider starts with for the `id` and `type` it is given. */
  function InitialUser(id: string, t: UserType): (u: User)
    ensures u.id == id && u.userType == t
    ensures !u.isConnected && u.attr == map[]
  {
    User(id, t, false, map[])
  }

  /** `setUserId`'s updater: the same record under a new id. */
  function WithId(u: User, id: string): (r: User)
    ensures r.id == id
    ensures r.userType == u.userType && r.isConnected == u.isConnected && r.attr == u.attr
  {
    u.(id := id)
  }

  /** `setIsConnected`'s updater: the same record with a new connection flag. */
  function WithConnection(u: User, isConnected: bool): (r: User)
    ensures r.isConnected == isConnected
    ensures r.id == u.id && r.userType == u.userType && r.attr == u.attr
  {
    u.(isConnected := isConnected)
  }

  /** The two setters touch different fields, so their order does not matter. */
  lemma SettersCommute(u: User, id: string, isConnected: bool)
    ensures WithConnection(WithId(u, id), isConnected) == WithId(WithConnection(u, isConnected), id)
  {
  }

  /** Setting a field back to the value it had gives the record back. */
  lemma SettersRestore(u: User)
    ensures WithId(u, u.id) == u && WithConnection(u, u.isConnected) == u
  {
  }

  /** The events whose handlers the effect registers, one listener each. */
  const EffectEvents: multiset<string> := multiset{"invalid-token", "connected", "disconnect"}

  /** The socket's listener counts after the effect registers its three handlers. */
  function Register(listeners: multiset<string>): (r: multiset<string>)
    ensures r["invalid-token"] == listeners["invalid-token"] + 1
    ensures r["connected"] == listeners["connected"] + 1
    ensures r["disconnect"] == listeners["disconnect"] + 1
    ensures forall e :: e !in EffectEvents ==> r[e] == listeners[e]
  {
    listeners + EffectEvents
  }

  /**
   * The cleanup as the provider writes it: `off` of an event without a
   * handler drops every listener of that event, and the three names it
   * drops are `connected`, `disconnected` and `invalid-token`, so the
   * `disconnect` listeners all stay.
   */
  function CleanupAsWritten(listeners: multiset<string>): (r: multiset<string>)
    ensures r["connected"] == 0 && r["invalid-token"] == 0 && r["disconnected"] == 0
    ensures r["disconnect"] == listeners["disconnect"]
    ensures forall e :: e != "connected" && e != "disconnected" && e != "invalid-token" ==> r[e] == listeners[e]
  {
    listeners["connected" := 0]["disconnected" := 0]["invalid-token" := 0]
  }

  /**
   * The cleanup that undoes `Register`: `off` of each of the three events
   * with the effect's own handler, which removes that one listener and keeps
   * every other component's listeners on the shared socket.
   */
  function Cleanup(listeners: multiset<string>): (r: multiset<string>)
    ensures r <= listeners
    ensures forall e :: e !in EffectEvents ==> r[e] == listeners[e]
    ensures EffectEvents <= listeners ==> r + EffectEvents == listeners
  {
    listeners - EffectEvents
  }

  /** Registering and then cleaning up gives the socket back exactly as it was. */
  lemma CleanupUndoesRegister(listeners: multiset<string>)
    ensures Cleanup(Register(listeners)) == listeners
  {
  }

  /** `n` runs of the effect, each followed by the cleanup as written. */
  function RemountsAsWritten(listeners: multiset<string>, n: nat): multiset<string>
    decreases n
  {
    if n == 0 then listeners else RemountsAsWritten(CleanupAsWritten(Register(listeners)), n - 1)
  }

  /** `n` runs of the effect, each followed by the corrected cleanup. */
  function Remounts(listeners: multiset<string>, n: nat): multiset<string>
    decreases n
  {
    if n == 0 then listeners else Remounts(Cleanup(Register(listeners)), n - 1)
  }

  /** With the cleanup as written, every remount leaves one more `disconnect` listener behind. */
  lemma {:induction false} RemountsAsWrittenLeak(listeners: multiset<string>, n: nat)
    ensures RemountsAsWritten(listeners, n)["disconnect"] == listeners["disconnect"] + n
    decreases n
  {
    if n > 0 {
      var next := CleanupAsWritten(Register(listeners));
      assert next["disconnect"] == listeners["disconnect"] + 1;
      RemountsAsWrittenLeak(next, n - 1);
    }
  }

  /**
   * With the corrected cleanup, any number of effect runs leaves the socket's
   * listeners, including other components' listeners of the same events,
   * exactly as they were.
   */
  lemma {:induction false} RemountsBalanced(listeners: multiset<string>, n: nat)
    ensures Remounts(listeners, n) == listeners
    decreases n
  {
    if n > 0 {
      CleanupUndoesRegister(listeners);
      RemountsBalanced(listeners, n - 1);
    }
  }

  /**
   * The provider: the user record it holds, the records it has emitted with
   * `request-connection`, the ids it has handed to `setIdFromShow`, whether
   * its socket is still open, and the socket's listeners, among them the
   * listeners `others` that other components hold on the same socket.
   */
  class Session {
    const socketPresent: bool
    const others: multiset<string>
    var user: User
    var emitted: seq<User>
    var shownIds: seq<string>
    var socketOpen: bool
    var listeners: multiset<string>
    var effectActive: bool   // the effect registered its handlers and its cleanup has not run

    /**
     * Only a record that is not connected is ever sent, and the socket holds
     * the other components' listeners plus, while the effect is active, the
     * effect's three handlers once each.
     */
    ghost predicate Valid()
      reads this
    {
      && (forall k :: 0 <= k < |emitted| ==> !emitted[k].isConnected)
      && listeners == if effectActive then Register(others) else others
    }

    constructor (id: string, t: UserType, socketPresent: bool, others: multiset<string>)
      ensures Valid()
      ensures this.socketPresent == socketPresent && this.others == others && user == InitialUser(id, t)
      ensures emitted == [] && shownIds == [] && socketOpen == socketPresent
      ensures listeners == others && !effectActive
    {
      this.socketPresent := socketPresent;
      this.others := others;
      user := InitialUser(id, t);
      emitted, shownIds := [], [];
      socketOpen := socketPresent;
      listeners := others;
      effectActive := false;
    }

    method SetUserId(id: string)
      modifies this`user
      ensures user == WithId(old(user), id)
    {
      user := WithId(user, id);
    }

    method SetIsConnected(isConnected: bool)
      modifies this`user
      ensures user == WithConnection(old(user), isConnected)
    {
      user := WithConnection(user, isConnected);
    }

    /** `requestConnection`: a connected user sends nothing; otherwise the record goes out over the socket, if there is one. */
    method RequestConnection()
      requires Valid()
      modifies this`emitted
      ensures Valid()
      ensures emitted == old(emitted) + (if !user.isConnected && socketPresent then [user] else [])
    {
      if user.isConnected {
        return;
      }
      if socketPresent {
        emitted := emitted + [user];
      }
    }

    /**
     * The effect: nothing without a socket; otherwise request a connection
     * and register the three handlers. React runs the cleanup before running
     * the effect again, so the effect is never active twice.
     */
    method RunEffect()
      requires Valid() && !effectActive
      modifies this`emitted, this`listeners, this`effectActive
      ensures Valid()
      ensures !socketPresent ==> emitted == old(emitted) && listeners == old(listeners) && !effectActive
      ensures socketPresent ==>
        && emitted == old(emitted) + (if !user.isConnected then [user] else [])
        && listeners == Register(old(listeners)) && effectActive
    {
      if !socketPresent {
        return;
      }
      RequestConnection();
      listeners := Register(listeners);
      effectActive := true;
    }

    /** The effect's cleanup, with the corrected `Cleanup`: it removes exactly the handlers the effect registered. */
    method CleanupEffect()
      requires Valid() && effectActive
      modifies this`listeners, this`effectActive
      ensures Valid()
      ensures listeners == Cleanup(old(listeners)) && listeners == others && !effectActive
    {
      CleanupUndoesRegister(others);
      listeners := Cleanup(listeners);
      effectActive := false;
    }

    /** `connected`: adopt the record the server sent and show its id. */
    method OnConnected(newUser: User)
      requires Valid() && effectActive
      modifies this`user, this`shownIds
      ensures Valid()
      ensures user == newUser && shownIds == old(shownIds) + [newUser.id]
    {
      user := newUser;
      shownIds := shownIds + [newUser.id];
    }

    /** `disconnect`: mark the user disconnected and close the socket. */
    method OnDisconnect()
      requires Valid() && effectActive
      modifies this`user, this`socketOpen
      ensures Valid()
      ensures user == WithConnection(old(user), false) && !socketOpen
    {
      user := WithConnection(user, false);
      socketOpen := false;
    }
  }

  /**
   * A provider that mounts, is told it is connected, remounts and is then
   * disconnected: the remount sends no second request, and the disconnect
   * keeps the server's id.
   */
  method MountConnectRemount()
  {
    var session := new Session("u1", Participant, true, multiset{"disconnect"});
    session.RunEffect();
    assert session.emitted == [InitialUser("u1", Participant)];
    session.OnConnected(User("s-42", Participant, true, map[]));
    session.CleanupEffect();
    assert session.listeners == multiset{"disconnect"};
    session.RunEffect();
    assert |session.emitted| == 1;
    session.OnDisconnect();
    assert session.user.id == "s-42" && !session.user.isConnected && !session.socketOpen;
    assert session.shownIds == ["s-42"];
  }
}
