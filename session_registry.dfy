/**
 * The module-level registry of spec chat sessions, one per project name.
 * Each operation is one atomic update of the map, followed by closing
 * whatever the update removed.
 */
module SessionRegistry {
  import opened Wrappers
  import opened SpecChat

  predicate Distinct<T(==)>(s: seq<T>) {
    forall i, j :: 0 <= i < j < |s| ==> s[i] != s[j]
  }

  /** The keys in dictionary order once `name` is popped. */
  function Without(order: seq<string>, name: string): (r: seq<string>)
    ensures forall x :: x in r <==> x in order && x != name
    ensures Distinct(order) ==> Distinct(r)
    ensures name !in order ==> r == order
    ensures |r| <= |order|
  {
    if order == [] then []
    else if order[0] == name then Without(order[1..], name)
    else
      assert Distinct(order) ==> Distinct(order[1..]) && order[0] !in order[1..];
      [order[0]] + Without(order[1..], name)
  }

  /**
   * Popping a key that stands at position `k` removes exactly that
   * position: the keys before and after it keep their order.
   */
  lemma {:induction false} WithoutKeepsOrder(order: seq<string>, name: string, k: nat)
    requires Distinct(order) && k < |order| && order[k] == name
    ensures Without(order, name) == order[..k] + order[k + 1..]
    decreases |order|
  {
    if k == 0 {
      assert name !in order[1..];
    } else {
      assert order[0] != name;
      var tail := order[1..];
      assert Distinct(tail) && tail[k - 1] == name;
      WithoutKeepsOrder(tail, name, k - 1);
      assert order[..k] == [order[0]] + tail[..k - 1];
      assert order[k + 1..] == tail[k..];
    }
  }

  /** Popping a key and inserting it again moves it to the end; the other keys keep their order. */
  lemma ReinsertOrder(order: seq<string>, name: string)
    requires Distinct(order)
    ensures var r := Without(order, name) + [name];
            && Distinct(r)
            && (forall x :: x in r <==> x in order || x == name)
            && r[|r| - 1] == name
  {
  }

  class Registry {
    /** `_sessions`. */
    var sessions: map<string, SpecChatSession>
    /** The keys of `_sessions` in insertion order, as the dictionary iterates them. */
    var order: seq<string>

    /** The order lists each key once, and every session is filed under its own project name. */
    ghost predicate Valid()
      reads this
    {
      && Distinct(order)
      && (forall x :: x in order <==> x in sessions)
      && (forall k :: k in sessions ==> sessions[k].projectName == k)
    }

    constructor()
      ensures Valid() && sessions == map[] && order == []
    {
      sessions := map[];
      order := [];
    }

    /** `get_session`. */
    method GetSession(name: string) returns (s: Option<SpecChatSession>)
      requires Valid()
      ensures name in sessions <==> s.Some?
      ensures s.Some? ==> s.value == sessions[name] && s.value.projectName == name
    {
      if name in sessions {
        s := Some(sessions[name]);
      } else {
        s := None;
      }
    }

    /** `list_sessions`: every current key exactly once, in insertion order. */
    method ListSessions() returns (names: seq<string>)
      requires Valid()
      ensures Distinct(names)
      ensures forall x :: x in names <==> x in sessions
      ensures names == order
    {
      names := order;
    }

    /**
     * `create_session`: files a fresh session under `name`, leaving the
     * other keys alone; the session it replaced, if any, is closed once,
     * after the update.
     */
    method CreateSession(name: string) returns (s: SpecChatSession)
      requires Valid()
      modifies this, if name in sessions then {sessions[name]} else {}
      ensures Valid()
      ensures fresh(s) && s.projectName == name
      ensures s.client == None && !s.clientEntered && s.messages == [] && !s.complete && s.closeCalls == 0
      ensures sessions == old(sessions)[name := s]
      ensures order == Without(old(order), name) + [name]
      ensures name in old(sessions) ==>
                var gone := old(sessions)[name];
                gone.closeCalls == old(gone.closeCalls) + 1 && !(gone.client.Some? && gone.clientEntered)
    {
      var previous: Option<SpecChatSession> := None;
      if name in sessions {
        previous := Some(sessions[name]);
      }
      s := new SpecChatSession(name);
      sessions := sessions[name := s];
      ReinsertOrder(order, name);
      order := Without(order, name) + [name];
      if previous.Some? {
        previous.value.Close();
      }
    }

    /** `remove_session`: pops `name`, leaving the other keys alone, and closes the popped session once. */
    method RemoveSession(name: string)
      requires Valid()
      modifies this, if name in sessions then {sessions[name]} else {}
      ensures Valid()
      ensures sessions == old(sessions) - {name}
      ensures order == Without(old(order), name)
      ensures name in old(sessions) ==>
                var gone := old(sessions)[name];
                gone.closeCalls == old(gone.closeCalls) + 1 && !(gone.client.Some? && gone.clientEntered)
    {
      var previous: Option<SpecChatSession> := None;
      if name in sessions {
        previous := Some(sessions[name]);
      }
      sessions := sessions - {name};
      order := Without(order, name);
      if previous.Some? {
        previous.value.Close();
      }
    }

    /** `cleanup_all_sessions`: empties the map, then closes every session it held, each once. */
    method CleanupAllSessions()
      requires Valid()
      modifies this, sessions.Values
      ensures Valid() && sessions == map[] && order == []
      ensures forall s :: s in old(sessions.Values) ==>
                s.closeCalls == old(s.closeCalls) + 1 && !(s.client.Some? && s.clientEntered)
    {
      var toClose := seq(|order|, k requires 0 <= k < |order| && order[k] in sessions reads this => sessions[order[k]]);
      assert forall s :: s in sessions.Values ==> s in toClose by {
        forall s | s in sessions.Values
          ensures s in toClose
        {
          var key :| key in sessions && sessions[key] == s;
          var k :| 0 <= k < |order| && order[k] == key;
          assert toClose[k] == s;
        }
      }
      assert Distinct(toClose) by {
        forall i, j | 0 <= i < j < |toClose|
          ensures toClose[i] != toClose[j]
        {
          assert toClose[i].projectName == order[i] && toClose[j].projectName == order[j];
        }
      }
      sessions := map[];
      order := [];
      var i := 0;
      while i < |toClose|
        invariant 0 <= i <= |toClose|
        invariant sessions == map[] && order == []
        invariant forall k :: 0 <= k < i ==>
                    toClose[k].closeCalls == old(toClose[k].closeCalls) + 1
                    && !(toClose[k].client.Some? && toClose[k].clientEntered)
        invariant forall k :: i <= k < |toClose| ==> toClose[k].closeCalls == old(toClose[k].closeCalls)
      {
        toClose[i].Close();
        i := i + 1;
      }
    }
  }
}
