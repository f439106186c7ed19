/** The permission manager: one table of pending requests under two indexes,
    and the operations that fill and empty it (`permissions.rs`). */
module Permissions {
  import opened Wrappers
  import opened RequestIds

  datatype Decision = Allow | AlwaysAllow | Deny | AlwaysDeny | AutoReview

  // `channel` names the one-shot sender created for this registration; each
  // registration creates one, so its sequence number names it.
  datatype Pending = Pending(requestId: string, sessionId: string, toolUseId: string, channel: nat)
  {
    function ToolKey(): (string, string) { (sessionId, toolUseId) }
  }

  datatype Table = Table(byRequestId: map<string, Pending>, byTool: map<(string, string), string>)

  function Registered(t: Table, p: Pending): Table {
    Table(t.byRequestId[p.requestId := p], t.byTool[p.ToolKey() := p.requestId])
  }

  function WithoutId(t: Table, id: string): Table
    requires id in t.byRequestId
  {
    Table(t.byRequestId - {id}, t.byTool - {t.byRequestId[id].ToolKey()})
  }

  // Every entry is filed under its own id, and every tool entry leads to a live
  // request with exactly that key.
  ghost predicate WellFormed(t: Table) {
    && (forall id :: id in t.byRequestId ==> t.byRequestId[id].requestId == id)
    && (forall k :: k in t.byTool ==>
         t.byTool[k] in t.byRequestId && t.byRequestId[t.byTool[k]].ToolKey() == k)
  }

  // Every live request is reachable through its tool key.
  ghost predicate Indexed(t: Table) {
    forall id :: id in t.byRequestId ==>
      var k := t.byRequestId[id].ToolKey(); k in t.byTool && t.byTool[k] == id
  }

  ghost predicate NoDuplicateKeys(t: Table) {
    forall i, j :: i in t.byRequestId && j in t.byRequestId && i != j ==>
      t.byRequestId[i].ToolKey() != t.byRequestId[j].ToolKey()
  }

  lemma RegisterKeepsWellFormed(t: Table, p: Pending)
    requires WellFormed(t) && p.requestId !in t.byRequestId
    ensures WellFormed(Registered(t, p))
  {
    var u := Registered(t, p);
    forall k | k in u.byTool
      ensures u.byTool[k] in u.byRequestId && u.byRequestId[u.byTool[k]].ToolKey() == k
    {
      if k != p.ToolKey() { assert k in t.byTool; }
    }
  }

  lemma RemoveKeepsWellFormed(t: Table, id: string)
    requires WellFormed(t) && id in t.byRequestId
    ensures WellFormed(WithoutId(t, id))
  {
    var u := WithoutId(t, id);
    forall k | k in u.byTool
      ensures u.byTool[k] in u.byRequestId && u.byRequestId[u.byTool[k]].ToolKey() == k
    {
      assert k in t.byTool;
    }
  }

  // A tool key already in use is overwritten: the older request stays pending
  // but loses its tool entry. A caller that checks the key first avoids it, and
  // only such a caller does.
  lemma RegisterKeepsIndexed(t: Table, p: Pending)
    requires WellFormed(t) && Indexed(t) && p.requestId !in t.byRequestId
    ensures Indexed(Registered(t, p)) <==> p.ToolKey() !in t.byTool
  {
    var u := Registered(t, p);
    if p.ToolKey() in t.byTool {
      var older := t.byTool[p.ToolKey()];
      assert older in u.byRequestId && u.byRequestId[older].ToolKey() == p.ToolKey();
    } else {
      forall id | id in u.byRequestId
        ensures var k := u.byRequestId[id].ToolKey(); k in u.byTool && u.byTool[k] == id
      {
        if id != p.requestId { assert id in t.byRequestId; }
      }
    }
  }

  lemma RemoveKeepsIndexed(t: Table, id: string)
    requires WellFormed(t) && Indexed(t) && id in t.byRequestId
    ensures Indexed(WithoutId(t, id))
  {
    var u := WithoutId(t, id);
    forall j | j in u.byRequestId
      ensures var k := u.byRequestId[j].ToolKey(); k in u.byTool && u.byTool[k] == j
    {
      assert j in t.byRequestId;
    }
  }

  // With one live request per tool key the two maps are inverse to each other:
  // following one and then the other returns to the start, from either side.
  lemma MutualInverses(t: Table)
    requires WellFormed(t)
    ensures Indexed(t) ==> NoDuplicateKeys(t)
    ensures Indexed(t) <==>
      (forall id, k :: id in t.byRequestId && t.byRequestId[id].ToolKey() == k <==> k in t.byTool && t.byTool[k] == id)
  {
    if forall id, k :: id in t.byRequestId && t.byRequestId[id].ToolKey() == k <==> k in t.byTool && t.byTool[k] == id {
      forall id | id in t.byRequestId
        ensures var k := t.byRequestId[id].ToolKey(); k in t.byTool && t.byTool[k] == id
      {
        var k := t.byRequestId[id].ToolKey();
        assert k in t.byTool && t.byTool[k] == id;
      }
    }
  }

  // While the two maps are inverse to each other, `take` finds a request under a
  // key exactly if one is pending.
  lemma TakeFindsPending(t: Table, k: (string, string))
    requires WellFormed(t)
    ensures Indexed(t) ==>
      (k in t.byTool <==> exists id :: id in t.byRequestId && t.byRequestId[id].ToolKey() == k)
  {
    if k in t.byTool {
      assert t.byTool[k] in t.byRequestId;
    }
  }

  // Two registrations under one key, then the first is answered: the second is
  // still pending and `take` no longer finds it.
  lemma TakeMissesAfterDuplicate(first: Pending, second: Pending)
    requires first.ToolKey() == second.ToolKey() && first.requestId != second.requestId
    ensures var t := WithoutId(Registered(Registered(Table(map[], map[]), first), second), first.requestId);
      WellFormed(t) && second.requestId in t.byRequestId && second.ToolKey() !in t.byTool
  {
  }

  ghost predicate IssuedBy(p: Pending, next: nat) {
    p.channel <= next && p.requestId == PermissionId(p.sessionId, p.channel)
  }

  // The next number has never been used, so no table entry is overwritten.
  lemma IssuedIsFresh(t: Table, next: nat, p: Pending)
    requires WellFormed(t) && IssuedBy(p, p.channel) && next < p.channel
    requires forall id :: id in t.byRequestId ==> IssuedBy(t.byRequestId[id], next)
    ensures p.requestId !in t.byRequestId
  {
    if p.requestId in t.byRequestId {
      var q := t.byRequestId[p.requestId];
      PermissionIdInjective(q.sessionId, q.channel, p.sessionId, p.channel);
    }
  }

  ghost function OfSession(pending: map<string, Pending>, sessionId: string): set<string> {
    set id | id in pending && pending[id].sessionId == sessionId
  }

  ghost predicate Enumerates(order: seq<string>, ids: set<string>) {
    && (forall id :: id in order <==> id in ids)
    && (forall i, j :: 0 <= i < j < |order| ==> order[i] != order[j])
  }

  // Cancelling the listed ids one after the other; an id no longer pending is
  // passed over.
  ghost function Swept(t: Table, log: seq<(nat, Decision)>, order: seq<string>): (Table, seq<(nat, Decision)>)
    decreases |order|
  {
    if order == [] then (t, log)
    else if order[0] !in t.byRequestId then Swept(t, log, order[1..])
    else Swept(WithoutId(t, order[0]), log + [(t.byRequestId[order[0]].channel, Deny)], order[1..])
  }

  ghost function Denials(pending: map<string, Pending>, order: seq<string>): seq<(nat, Decision)>
    requires forall id :: id in order ==> id in pending
  {
    if order == [] then []
    else [(pending[order[0]].channel, Deny)] + Denials(pending, order[1..])
  }

  // Undisturbed, a sweep removes exactly the listed requests and sends each of
  // them one deny, in the order listed.
  lemma {:induction false} SweepDeniesEach(t: Table, log: seq<(nat, Decision)>, order: seq<string>)
    requires forall id :: id in order ==> id in t.byRequestId
    requires forall i, j :: 0 <= i < j < |order| ==> order[i] != order[j]
    ensures Swept(t, log, order).0.byRequestId == t.byRequestId - (set id | id in order)
    ensures Swept(t, log, order).1 == log + Denials(t.byRequestId, order)
    decreases |order|
  {
    if order != [] {
      var id, rest := order[0], order[1..];
      var u, log' := WithoutId(t, id), log + [(t.byRequestId[id].channel, Deny)];
      assert forall j :: j in rest ==> j in order;
      assert forall i :: 0 <= i < |rest| ==> rest[i] == order[i + 1];
      SweepDeniesEach(u, log', rest);
      SameDenials(u.byRequestId, t.byRequestId, rest);
      assert (set j | j in order) == {id} + (set j | j in rest);
    }
  }

  lemma {:induction false} SameDenials(m: map<string, Pending>, n: map<string, Pending>, order: seq<string>)
    requires forall id :: id in order ==> id in m && id in n && m[id] == n[id]
    ensures Denials(m, order) == Denials(n, order)
  {
    if order != [] {
      assert order[0] in order && forall j :: j in order[1..] ==> j in order;
      SameDenials(m, n, order[1..]);
    }
  }

  /** The manager object. `sent` records what the reply channels received. */
  class PermissionManager {
    var byRequestId: map<string, Pending>
    var byTool: map<(string, string), string>
    var nextRequest: nat
    var sent: seq<(nat, Decision)>

    ghost function View(): Table
      reads this
    {
      Table(byRequestId, byTool)
    }

    ghost predicate Valid()
      reads this
    {
      && WellFormed(View())
      && forall id :: id in byRequestId ==> IssuedBy(byRequestId[id], nextRequest)
    }

    constructor ()
      ensures Valid() && View() == Table(map[], map[]) && nextRequest == 0 && sent == []
    {
      byRequestId, byTool, nextRequest, sent := map[], map[], 0, [];
    }

    method Register(sessionId: string, toolUseId: string) returns (requestId: string)
      requires Valid()
      modifies this
      ensures Valid() && nextRequest == old(nextRequest) + 1 && sent == old(sent)
      ensures requestId == PermissionId(sessionId, nextRequest) && requestId !in old(byRequestId)
      ensures View() == Registered(old(View()), Pending(requestId, sessionId, toolUseId, nextRequest))
    {
      nextRequest := nextRequest + 1;
      requestId := PermissionId(sessionId, nextRequest);
      var pending := Pending(requestId, sessionId, toolUseId, nextRequest);
      IssuedIsFresh(View(), old(nextRequest), pending);
      RegisterKeepsWellFormed(View(), pending);
      byTool := byTool[(sessionId, toolUseId) := requestId];
      byRequestId := byRequestId[requestId := pending];
    }

    method Take(sessionId: string, toolUseId: string) returns (found: Option<Pending>)
      requires Valid()
      modifies this`byRequestId, this`byTool
      ensures Valid()
      ensures (sessionId, toolUseId) !in old(byTool) ==> found == None && View() == old(View())
      ensures (sessionId, toolUseId) in old(byTool) ==>
        var id := old(byTool)[(sessionId, toolUseId)];
        && id in old(byRequestId) && found == Some(old(byRequestId)[id])
        && found.value.ToolKey() == (sessionId, toolUseId)
        && View() == WithoutId(old(View()), id)
    {
      var key := (sessionId, toolUseId);
      if key !in byTool {
        return None;
      }
      ghost var before := View();
      var id := byTool[key];
      byTool := byTool - {key};
      found := if id in byRequestId then Some(byRequestId[id]) else None;
      byRequestId := byRequestId - {id};
      RemoveKeepsWellFormed(before, id);
    }

    method TakeByRequestId(id: string) returns (found: Option<Pending>)
      requires Valid()
      modifies this`byRequestId, this`byTool
      ensures Valid()
      ensures id !in old(byRequestId) ==> found == None && View() == old(View())
      ensures id in old(byRequestId) ==>
        found == Some(old(byRequestId)[id]) && View() == WithoutId(old(View()), id)
    {
      if id !in byRequestId {
        return None;
      }
      ghost var before := View();
      var pending := byRequestId[id];
      byRequestId := byRequestId - {id};
      byTool := byTool - {(pending.sessionId, pending.toolUseId)};
      RemoveKeepsWellFormed(before, id);
      return Some(pending);
    }

    method ResolveRequestId(id: RequestId, response: Decision) returns (settled: bool)
      requires Valid()
      modifies this
      ensures Valid() && nextRequest == old(nextRequest)
      ensures settled <==> Key(id) in old(byRequestId)
      ensures settled ==> View() == WithoutId(old(View()), Key(id))
      ensures settled ==> sent == old(sent) + [(old(byRequestId)[Key(id)].channel, response)]
      ensures !settled ==> View() == old(View()) && sent == old(sent)
    {
      var found := TakeByRequestId(Key(id));
      if found.None? {
        return false;
      }
      sent := sent + [(found.value.channel, response)];
      return true;
    }

    method CancelRequestId(id: string) returns (settled: bool)
      requires Valid()
      modifies this
      ensures Valid() && nextRequest == old(nextRequest)
      ensures settled <==> id in old(byRequestId)
      ensures settled ==> View() == WithoutId(old(View()), id)
      ensures settled ==> sent == old(sent) + [(old(byRequestId)[id].channel, Deny)]
      ensures !settled ==> View() == old(View()) && sent == old(sent)
    {
      var found := TakeByRequestId(id);
      if found.None? {
        return false;
      }
      sent := sent + [(found.value.channel, Deny)];
      return true;
    }

    // Snapshot, then one removal at a time, in whatever order the map lists its
    // values. `PermissionRuns` treats the case where other calls come between.
    method CancelAll(sessionId: string)
      requires Valid()
      modifies this
      ensures Valid() && nextRequest == old(nextRequest)
      ensures exists order ::
        && Enumerates(order, OfSession(old(byRequestId), sessionId))
        && (View(), sent) == Swept(old(View()), old(sent), order)
    {
      ghost var order, was, log := [], View(), sent;
      var requestIds := Snapshot(sessionId);
      order := requestIds;
      for i := 0 to |requestIds|
        invariant Valid() && nextRequest == old(nextRequest)
        invariant Swept(View(), sent, requestIds[i..]) == Swept(was, log, requestIds)
      {
        assert requestIds[i..][1..] == requestIds[i + 1..];
        var settled := CancelRequestId(requestIds[i]);
      }
    }

    method Snapshot(sessionId: string) returns (requestIds: seq<string>)
      requires Valid()
      ensures Enumerates(requestIds, OfSession(byRequestId, sessionId))
    {
      requestIds := [];
      var rest := byRequestId.Keys;
      while rest != {}
        invariant rest <= byRequestId.Keys
        invariant Enumerates(requestIds, OfSession(byRequestId, sessionId) - rest)
      {
        var id :| id in rest;
        rest := rest - {id};
        if byRequestId[id].sessionId == sessionId {
          requestIds := requestIds + [byRequestId[id].requestId];
        }
      }
    }
  }
}
