/**
 * The admin's list of pending join requests: `addRequest` merges the users
 * of an incoming `room:join:request` into the list, skipping ids already
 * in the list before the call, and `removeRequest` drops every entry with
 * a given id. Both build a new list from the previous one.
 */
module Notifications {
  import opened JsStrings

  datatype User = User(userId: string, name: string)

  /** The `{roomId, users}` payload of an incoming request. */
  datatype IncomingRequest = IncomingRequest(roomId: int, users: seq<User>)

  /** One list entry; `timestamp` is `Date.now()` at the call. */
  datatype JoinRequest = JoinRequest(id: string, roomId: int, userId: string, name: string, timestamp: int)

  /**
   * The entry id `${roomId}-${userId}`: the room id in decimal (with a
   * leading "-" when negative, and no other "-"), then "-", then the user id.
   */
  function RequestId(roomId: int, userId: string): (r: string)
    ensures var k := |IntToString(roomId)|;
      1 <= k < |r| && r[k] == '-' && r[k + 1..] == userId
      && (roomId < 0 <==> r[0] == '-') && '-' !in r[1..k]
      && DecimalValue(r[(if roomId < 0 then 1 else 0)..k]) == (if roomId < 0 then -roomId else roomId)
    ensures var k, d := |IntToString(roomId)|, if roomId < 0 then 1 else 0;
      (forall i :: d <= i < k ==> '0' <= r[i] <= '9') && (k > d + 1 ==> r[d] != '0')
  {
    var p := IntToString(roomId);
    var r := p + "-" + userId;
    assert r[..|p|] == p;
    assert r[1..|p|] == p[1..];
    assert roomId < 0 ==> r[1..|p|] == p[1..];
    r
  }

  /** Distinct (room, user) pairs get distinct ids, so the id check in `addRequest` compares pairs. */
  lemma RequestIdInjective(a: int, u: string, b: int, v: string)
    requires RequestId(a, u) == RequestId(b, v)
    ensures a == b && u == v
  {
    var p, q := IntToString(a), IntToString(b);
    var r := RequestId(a, u);
    assert |p| == |q| by {
      if |p| != |q| {
        assert false;
      }
    }
    assert p == r[..|p|] == q;
    IntToStringInjective(a, b);
  }

  /** The ids present in a list. */
  function Ids(reqs: seq<JoinRequest>): (r: set<string>)
    ensures forall i :: 0 <= i < |reqs| ==> reqs[i].id in r
    ensures forall x :: x in r ==> exists i :: 0 <= i < |reqs| && reqs[i].id == x
  {
    set i | 0 <= i < |reqs| :: reqs[i].id
  }

  /** The entry built for the incoming user at position `i`. */
  function EntryFor(request: IncomingRequest, i: nat, now: int): (r: JoinRequest)
    requires i < |request.users|
    ensures r.id == RequestId(request.roomId, request.users[i].userId)
    ensures r.roomId == request.roomId && r.userId == request.users[i].userId
    ensures r.name == request.users[i].name && r.timestamp == now
  {
    var u := request.users[i];
    JoinRequest(RequestId(request.roomId, u.userId), request.roomId, u.userId, u.name, now)
  }

  /** `request.users.map(...)`: one entry per incoming user, in order. */
  function Entries(request: IncomingRequest, now: int): (r: seq<JoinRequest>)
    ensures |r| == |request.users|
    ensures forall i :: 0 <= i < |r| ==> r[i] == EntryFor(request, i, now)
  {
    seq(|request.users|, i requires 0 <= i < |request.users| => EntryFor(request, i, now))
  }

  /** `entries.filter(r => !existing.has(r.id))`. */
  function DropKnown(entries: seq<JoinRequest>, known: set<string>): (r: seq<JoinRequest>)
    ensures |r| <= |entries|
    ensures forall e :: e in r ==> e in entries && e.id !in known
    ensures forall e :: e in entries && e.id !in known ==> e in r
    decreases |entries|
  {
    if entries == [] then []
    else if entries[0].id in known then DropKnown(entries[1..], known)
    else [entries[0]] + DropKnown(entries[1..], known)
  }

  /** `addRequest`: the previous list followed by the incoming users whose id it did not hold. */
  function AddRequest(prev: seq<JoinRequest>, request: IncomingRequest, now: int): (r: seq<JoinRequest>)
    ensures |prev| <= |r| <= |prev| + |request.users|
    ensures r[..|prev|] == prev
    ensures forall k :: |prev| <= k < |r| ==> r[k].id !in Ids(prev)
    ensures forall k :: |prev| <= k < |r| ==>
      exists i :: 0 <= i < |request.users| && r[k] == EntryFor(request, i, now)
    ensures forall i :: 0 <= i < |request.users| && EntryFor(request, i, now).id !in Ids(prev) ==>
      EntryFor(request, i, now) in r
  {
    var e := Entries(request, now);
    var added := DropKnown(e, Ids(prev));
    var r := prev + added;
    forall k | |prev| <= k < |r|
      ensures r[k].id !in Ids(prev)
      ensures exists i :: 0 <= i < |request.users| && r[k] == EntryFor(request, i, now)
    {
      assert r[k] == added[k - |prev|] && r[k] in added;
      var i :| 0 <= i < |e| && e[i] == r[k];
    }
    forall i | 0 <= i < |request.users| && EntryFor(request, i, now).id !in Ids(prev)
      ensures EntryFor(request, i, now) in r
    {
      assert e[i] == EntryFor(request, i, now) && e[i] in e;
    }
    assert r[..|prev|] == prev;
    r
  }

  /** Filtering keeps order: filtering a concatenation concatenates the filtered parts. */
  lemma {:induction false} DropKnownAppend(a: seq<JoinRequest>, b: seq<JoinRequest>, known: set<string>)
    ensures DropKnown(a + b, known) == DropKnown(a, known) + DropKnown(b, known)
    decreases |a|
  {
    if a == [] {
      assert a + b == b;
    } else {
      assert (a + b)[0] == a[0] && (a + b)[1..] == a[1..] + b;
      DropKnownAppend(a[1..], b, known);
    }
  }

  /** The entries appended for users `users[..n]` come before those for the users after them. */
  lemma AppendedInUserOrder(prev: seq<JoinRequest>, request: IncomingRequest, now: int, n: nat)
    requires n <= |request.users|
    ensures AddRequest(prev, request, now) ==
      prev + DropKnown(Entries(request, now)[..n], Ids(prev)) + DropKnown(Entries(request, now)[n..], Ids(prev))
  {
    var e := Entries(request, now);
    assert e == e[..n] + e[n..];
    DropKnownAppend(e[..n], e[n..], Ids(prev));
  }

  /** Nothing survives the filter when every id is already known. */
  lemma {:induction false} DropAllKnown(entries: seq<JoinRequest>, known: set<string>)
    requires forall i :: 0 <= i < |entries| ==> entries[i].id in known
    ensures DropKnown(entries, known) == []
    decreases |entries|
  {
    if entries != [] {
      DropAllKnown(entries[1..], known);
    }
  }

  /** Adding the same payload a second time adds nothing, whatever the second timestamp. */
  lemma AddRequestIdempotent(prev: seq<JoinRequest>, request: IncomingRequest, t1: int, t2: int)
    ensures AddRequest(AddRequest(prev, request, t1), request, t2) == AddRequest(prev, request, t1)
  {
    var r1 := AddRequest(prev, request, t1);
    var e2 := Entries(request, t2);
    forall i | 0 <= i < |e2|
      ensures e2[i].id in Ids(r1)
    {
      var e1 := EntryFor(request, i, t1);
      assert e1.id == e2[i].id;
      if e1.id !in Ids(prev) {
        var k :| 0 <= k < |r1| && r1[k] == e1;
      } else {
        var j :| 0 <= j < |prev| && prev[j].id == e1.id;
        assert r1[j] == prev[j];
      }
    }
    DropAllKnown(e2, Ids(r1));
    assert AddRequest(r1, request, t2) == r1 + [];
  }

  /**
   * Duplicates inside one batch are not collapsed: a payload naming the same
   * new user twice appends two entries with the same id.
   */
  lemma BatchDuplicatesKept(roomId: int, u: User, now: int)
    ensures var r := AddRequest([], IncomingRequest(roomId, [u, u]), now);
      |r| == 2 && r[0].id == r[1].id == RequestId(roomId, u.userId)
  {
    var request := IncomingRequest(roomId, [u, u]);
    var e := Entries(request, now);
    var known := Ids([]);
    assert known == {};
    assert e[1..][1..] == [];
    assert DropKnown(e[1..], known) == [e[1]];
    assert DropKnown(e, known) == [e[0], e[1]];
    assert e[0].id == e[1].id == RequestId(roomId, u.userId);
  }

  /** `removeRequest(id)`: `prev.filter(r => r.id !== id)`. */
  function RemoveRequest(prev: seq<JoinRequest>, id: string): (r: seq<JoinRequest>)
    ensures |r| <= |prev|
    ensures id !in Ids(r)
    ensures forall e :: e in r <==> e in prev && e.id != id
    decreases |prev|
  {
    if prev == [] then []
    else if prev[0].id == id then RemoveRequest(prev[1..], id)
    else [prev[0]] + RemoveRequest(prev[1..], id)
  }

  /** Removing keeps order: removing from a concatenation concatenates the parts. */
  lemma {:induction false} RemoveRequestAppend(a: seq<JoinRequest>, b: seq<JoinRequest>, id: string)
    ensures RemoveRequest(a + b, id) == RemoveRequest(a, id) + RemoveRequest(b, id)
    decreases |a|
  {
    if a == [] {
      assert a + b == b;
    } else {
      assert (a + b)[0] == a[0] && (a + b)[1..] == a[1..] + b;
      RemoveRequestAppend(a[1..], b, id);
    }
  }

  /** Removing an id the list does not hold leaves the list as it was. */
  lemma {:induction false} RemoveAbsent(prev: seq<JoinRequest>, id: string)
    requires id !in Ids(prev)
    ensures RemoveRequest(prev, id) == prev
    decreases |prev|
  {
    if prev != [] {
      assert prev[0].id != id;
      forall i | 0 <= i < |prev[1..]|
        ensures prev[1..][i].id != id
      {
        assert prev[1..][i] == prev[i + 1];
      }
      RemoveAbsent(prev[1..], id);
      assert [prev[0]] + prev[1..] == prev;
    }
  }

  /** Removing twice is removing once. */
  lemma RemoveIdempotent(prev: seq<JoinRequest>, id: string)
    ensures RemoveRequest(RemoveRequest(prev, id), id) == RemoveRequest(prev, id)
  {
    RemoveAbsent(RemoveRequest(prev, id), id);
  }
}
