/** The in-memory session registry (crates/zclone-core/src/session.rs): sessions
    keyed by id, and the id of the active one. */
module Session {
  import opened Common
  import opened Models

  /** No two positions of `s` hold the same session id. */
  predicate DistinctIds(s: seq<ChatSession>) {
    forall i, j :: 0 <= i < j < |s| ==> s[i].id != s[j].id
  }

  /** Non-increasing `updatedAt`: most recently updated first. */
  predicate ByRecency(s: seq<ChatSession>) {
    forall i, j :: 0 <= i < j < |s| ==> s[i].updatedAt >= s[j].updatedAt
  }

  lemma DistinctCountsAtMostOne<T>(s: seq<T>, x: T)
    requires forall i, j :: 0 <= i < j < |s| ==> s[i] != s[j]
    ensures multiset(s)[x] <= 1
  {
    if s != [] {
      assert s == [s[0]] + s[1..];
      DistinctCountsAtMostOne(s[1..], x);
      if s[0] == x {
        assert x !in s[1..];
      }
    }
  }

  lemma CountsAtMostOneDistinct<T>(s: seq<T>)
    requires forall x :: multiset(s)[x] <= 1
    ensures forall i, j :: 0 <= i < j < |s| ==> s[i] != s[j]
  {
    forall i, j | 0 <= i < j < |s| ensures s[i] != s[j] {
      if s[i] == s[j] {
        TwoOccurrences(s, i, j);
      }
    }
  }

  lemma TwoOccurrences<T>(s: seq<T>, i: nat, j: nat)
    requires i < j < |s| && s[i] == s[j]
    ensures multiset(s)[s[i]] >= 2
  {
    var x := s[i];
    assert s == s[..j] + s[j..];
    assert x in s[..j];
    assert s[j..][0] == x;
    assert multiset(s)[x] == multiset(s[..j])[x] + multiset(s[j..])[x];
  }

  /** A reordering of a listing that holds each stored session once holds each once too. */
  lemma PermutedListing(sessions: map<string, ChatSession>, collected: seq<ChatSession>, r: seq<ChatSession>)
    requires multiset(r) == multiset(collected)
    requires forall i :: 0 <= i < |collected| ==> collected[i].id in sessions && sessions[collected[i].id] == collected[i]
    requires DistinctIds(collected)
    requires forall k :: k in sessions ==> sessions[k] in collected
    ensures |r| == |collected|
    ensures forall i :: 0 <= i < |r| ==> r[i].id in sessions && sessions[r[i].id] == r[i]
    ensures forall k :: k in sessions ==> sessions[k] in r
    ensures DistinctIds(r)
  {
    assert |r| == |multiset(r)| == |multiset(collected)| == |collected|;
    forall i | 0 <= i < |r| ensures r[i] in collected {
      assert r[i] in multiset(r);
    }
    assert forall i, j :: 0 <= i < j < |collected| ==> collected[i] != collected[j];
    forall x ensures multiset(r)[x] <= 1 {
      DistinctCountsAtMostOne(collected, x);
    }
    CountsAtMostOneDistinct(r);
    forall k | k in sessions ensures sessions[k] in r {
      assert sessions[k] in multiset(collected);
    }
  }

  /** Exchanges two cells; the contents stay a permutation. */
  method Swap(a: array<ChatSession>, i: nat, j: nat)
    requires i < a.Length && j < a.Length
    modifies a
    ensures a[..] == old(a[..])[i := old(a[j])][j := old(a[i])]
    ensures multiset(a[..]) == multiset(old(a[..]))
  {
    a[i], a[j] := a[j], a[i];
  }

  /** Moves `a[i]` down past the newer sessions before it, so that `a[..i + 1]` is by recency
      when `a[..i]` was: one step of insertion sort. */
  method InsertDown(a: array<ChatSession>, i: nat)
    requires i < a.Length
    requires forall p, q :: 0 <= p < q < i ==> a[p].updatedAt >= a[q].updatedAt
    modifies a
    ensures forall p, q :: 0 <= p < q <= i ==> a[p].updatedAt >= a[q].updatedAt
    ensures multiset(a[..]) == multiset(old(a[..]))
  {
    var j := i;
    while j > 0 && a[j - 1].updatedAt < a[j].updatedAt
      invariant 0 <= j <= i
      invariant forall p, q :: 0 <= p < q <= i && p != j && q != j ==> a[p].updatedAt >= a[q].updatedAt
      invariant forall q :: j < q <= i ==> a[j].updatedAt > a[q].updatedAt
      invariant multiset(a[..]) == multiset(old(a[..]))
    {
      Swap(a, j - 1, j);
      j := j - 1;
    }
  }

  /** Sorts in place by non-increasing `updatedAt` (the `sort_by` of `list_sessions`). */
  method SortByRecency(a: array<ChatSession>)
    modifies a
    ensures ByRecency(a[..])
    ensures multiset(a[..]) == multiset(old(a[..]))
  {
    var i := 0;
    while i < a.Length
      invariant 0 <= i <= a.Length
      invariant forall p, q :: 0 <= p < q < i ==> a[p].updatedAt >= a[q].updatedAt
      invariant multiset(a[..]) == multiset(old(a[..]))
    {
      InsertDown(a, i);
      i := i + 1;
    }
  }

  /** `SessionManager`. */
  class SessionManager {
    var sessions: map<string, ChatSession>
    var activeSessionId: Option<string>

    /** The active id, when set, names a stored session. */
    ghost predicate ActiveIsKey()
      reads this
    {
      activeSessionId.Some? ==> activeSessionId.value in sessions
    }

    /** Every session is stored under its own id. */
    ghost predicate KeysAreIds()
      reads this
    {
      forall k :: k in sessions ==> sessions[k].id == k
    }

    ghost predicate Valid()
      reads this
    {
      ActiveIsKey() && KeysAreIds()
    }

    /** `SessionManager::new` (also `Default`). */
    constructor ()
      ensures Valid() && sessions == map[] && activeSessionId == None
    {
      sessions := map[];
      activeSessionId := None;
    }

    /** `create_session`: stores a new session under its fresh `id` and makes it active. */
    method CreateSession(title: string, id: string, now: int) returns (r: string)
      modifies this
      ensures r == id && id in sessions
      ensures sessions == old(sessions)[id := NewSession(id, title, now)]
      ensures activeSessionId == Some(id)
      ensures old(Valid()) ==> Valid()
    {
      var session := NewSession(id, title, now);
      sessions := sessions[session.id := session];
      activeSessionId := Some(session.id);
      r := session.id;
    }

    /** `get_session`. */
    function GetSession(id: string): (r: Option<ChatSession>)
      reads this
      ensures r.Some? <==> id in sessions
      ensures r.Some? ==> r.value == sessions[id]
    {
      if id in sessions then Some(sessions[id]) else None
    }

    /** `set_active_session`: switches only to a stored id. */
    method SetActiveSession(id: string)
      modifies this
      ensures sessions == old(sessions)
      ensures activeSessionId == if id in old(sessions) then Some(id) else old(activeSessionId)
      ensures old(Valid()) ==> Valid()
    {
      if id in sessions {
        activeSessionId := Some(id);
      }
    }

    /** `get_active_session`: present exactly when an active id is set and stored. */
    function GetActiveSession(): (r: Option<ChatSession>)
      reads this
      ensures r.Some? <==> activeSessionId.Some? && activeSessionId.value in sessions
      ensures r.Some? ==> r.value == sessions[activeSessionId.value]
    {
      match activeSessionId
      case None => None
      case Some(id) => GetSession(id)
    }

    /** `list_sessions`: every stored session once, most recently updated first. */
    method ListSessions() returns (r: seq<ChatSession>)
      requires KeysAreIds()
      ensures |r| == |sessions|
      ensures forall i :: 0 <= i < |r| ==> r[i].id in sessions && sessions[r[i].id] == r[i]
      ensures forall k :: k in sessions ==> sessions[k] in r
      ensures DistinctIds(r)
      ensures ByRecency(r)
    {
      var collected := CollectSessions();
      var a := new ChatSession[|collected|](i requires 0 <= i < |collected| => collected[i]);
      assert a[..] == collected;
      SortByRecency(a);
      r := a[..];
      PermutedListing(sessions, collected, r);
    }

    /** `self.sessions.values().collect()`: each stored session once, in no particular order. */
    method CollectSessions() returns (collected: seq<ChatSession>)
      requires KeysAreIds()
      ensures |collected| == |sessions|
      ensures forall i :: 0 <= i < |collected| ==> collected[i].id in sessions && sessions[collected[i].id] == collected[i]
      ensures forall k :: k in sessions ==> sessions[k] in collected
      ensures DistinctIds(collected)
    {
      var remaining := sessions.Keys;
      collected := [];
      while remaining != {}
        invariant remaining <= sessions.Keys
        invariant |collected| + |remaining| == |sessions.Keys|
        invariant forall i :: 0 <= i < |collected| ==>
                    collected[i].id in sessions && sessions[collected[i].id] == collected[i] && collected[i].id !in remaining
        invariant DistinctIds(collected)
        invariant forall k :: k in sessions && k !in remaining ==> sessions[k] in collected
        decreases remaining
      {
        var k :| k in remaining;
        collected := collected + [sessions[k]];
        remaining := remaining - {k};
      }
      assert |sessions| == |sessions.Keys|;
    }

    /** `delete_session`: removes the entry and clears the active id if it was that one. */
    method DeleteSession(id: string) returns (removed: bool)
      modifies this
      ensures removed == (id in old(sessions))
      ensures sessions == old(sessions) - {id}
      ensures activeSessionId == if old(activeSessionId) == Some(id) then None else old(activeSessionId)
      ensures old(Valid()) ==> Valid()
    {
      if activeSessionId == Some(id) {
        activeSessionId := None;
      }
      removed := id in sessions;
      sessions := sessions - {id};
    }
  }
}
