/**
 * The waiting queue of main.go:367-411: a container/list of client names plus
 * the map ClientsInQueue from a name to the list element pushed for it.
 * An element's `id` stands for the identity of its *list.Element.
 */
module Queues {

  datatype Element = Element(id: nat, name: string)

  /** The names in the list, front first. */
  function Names(elems: seq<Element>): (r: seq<string>)
    ensures |r| == |elems|
    ensures forall i :: 0 <= i < |elems| ==> r[i] == elems[i].name
  {
    seq(|elems|, i requires 0 <= i < |elems| => elems[i].name)
  }

  /** Where the element with identity `id` sits; |elems| when it is not in the list. */
  function Position(elems: seq<Element>, id: nat): (k: nat)
    ensures k <= |elems|
    ensures k < |elems| ==> elems[k].id == id
    ensures forall j :: 0 <= j < k ==> elems[j].id != id
  {
    if |elems| == 0 then 0
    else if elems[0].id == id then 0
    else 1 + Position(elems[1..], id)
  }

  predicate DistinctIds(elems: seq<Element>)
  {
    forall i, j :: 0 <= i < j < |elems| ==> elems[i].id != elems[j].id
  }

  predicate DistinctNames(elems: seq<Element>)
  {
    forall i, j :: 0 <= i < j < |elems| ==> elems[i].name != elems[j].name
  }

  /** With distinct identities, Position finds the one element that has it. */
  lemma PositionAt(elems: seq<Element>, id: nat, p: nat)
    requires DistinctIds(elems) && p < |elems| && elems[p].id == id
    ensures Position(elems, id) == p
  {
  }

  /** The value of a Queue object. */
  datatype QueueVal = QueueVal(elems: seq<Element>, index: map<string, nat>, nextId: nat)
  {
    /** Len (main.go:384-386). */
    function Len(): nat
    {
      |elems|
    }

    /** IsInQueue (main.go:406-411): a lookup in ClientsInQueue, not in the list. */
    predicate IsInQueue(client: string)
    {
      client in index
    }

    /** PushBack (main.go:379-382): append an element and point the name at it. */
    function PushBack(client: string): QueueVal
    {
      QueueVal(elems + [Element(nextId, client)], index[client := nextId], nextId + 1)
    }

    /**
     * GetFront (main.go:388-397): "" and no change on an empty list; otherwise
     * the front name, dropping the front element and the name's map entry.
     */
    function GetFront(): (string, QueueVal)
    {
      if |elems| == 0 then ("", this)
      else (elems[0].name, QueueVal(elems[1..], index - {elems[0].name}, nextId))
    }

    /** Remove (main.go:400-404): drop the element the name points at, and the entry. */
    function Remove(client: string): QueueVal
      requires client in index
    {
      var k := Position(elems, index[client]);
      QueueVal(if k < |elems| then Without(elems, k) else elems, index - {client}, nextId)
    }
  }

  const EmptyQueue := QueueVal([], map[], 0)

  /**
   * The invariant every Queue operation keeps: identities are distinct and
   * fresh, and every entry of ClientsInQueue points at an element in the list
   * that carries that name.
   */
  ghost predicate WellFormed(q: QueueVal)
  {
    && DistinctIds(q.elems)
    && (forall i :: 0 <= i < |q.elems| ==> q.elems[i].id < q.nextId)
    && (forall c :: c in q.index ==>
          Position(q.elems, q.index[c]) < |q.elems| && q.elems[Position(q.elems, q.index[c])].name == c)
  }

  /**
   * A stronger invariant that holds while no name is pushed twice: the list has
   * no repeated name and ClientsInQueue holds exactly the names in the list.
   */
  ghost predicate Coherent(q: QueueVal)
  {
    && WellFormed(q)
    && DistinctNames(q.elems)
    && (forall i :: 0 <= i < |q.elems| ==> q.elems[i].name in q.index)
  }

  lemma EmptyQueueCoherent()
    ensures Coherent(EmptyQueue) && Names(EmptyQueue.elems) == []
  {
  }

  /** PushBack appends the name at the back, keeps the invariant and leaves the other names' entries alone. */
  lemma PushBackAppends(q: QueueVal, client: string)
    requires WellFormed(q)
    ensures WellFormed(q.PushBack(client))
    ensures Names(q.PushBack(client).elems) == Names(q.elems) + [client]
    ensures q.PushBack(client).IsInQueue(client) && q.PushBack(client).Len() == q.Len() + 1
    ensures Coherent(q) && !q.IsInQueue(client) ==> Coherent(q.PushBack(client))
    ensures forall c :: c != client ==> (q.PushBack(client).IsInQueue(c) <==> q.IsInQueue(c))
  {
    PushBackKeepsWellFormed(q, client);
    var r := q.PushBack(client);
    assert Names(r.elems) == Names(q.elems) + [client];
    if Coherent(q) && !q.IsInQueue(client) {
      PushBackKeepsCoherent(q, client);
    }
  }

  lemma PushBackKeepsWellFormed(q: QueueVal, client: string)
    requires WellFormed(q)
    ensures WellFormed(q.PushBack(client))
  {
    var r := q.PushBack(client);
    var elems := q.elems + [Element(q.nextId, client)];
    assert r.elems == elems;
    assert forall i :: 0 <= i < |q.elems| ==> elems[i] == q.elems[i];
    assert DistinctIds(elems);
    forall c | c in r.index
      ensures Position(elems, r.index[c]) < |elems| && elems[Position(elems, r.index[c])].name == c
    {
      if c == client {
        PositionAt(elems, q.nextId, |q.elems|);
      } else {
        var p := Position(q.elems, q.index[c]);
        PositionAt(elems, q.index[c], p);
      }
    }
  }

  lemma PushBackKeepsCoherent(q: QueueVal, client: string)
    requires Coherent(q) && !q.IsInQueue(client) && WellFormed(q.PushBack(client))
    ensures Coherent(q.PushBack(client))
  {
    var r := q.PushBack(client);
    assert forall i :: 0 <= i < |q.elems| ==> r.elems[i] == q.elems[i];
    assert forall i :: 0 <= i < |q.elems| ==> q.elems[i].name != client;
  }

  /** GetFront deletes only the front name's entry: every other name keeps its IsInQueue answer. */
  lemma GetFrontSparesOthers(q: QueueVal)
    requires q.Len() > 0
    ensures var (front, r) := q.GetFront();
      forall c :: c != front ==> (r.IsInQueue(c) <==> q.IsInQueue(c))
  {
  }

  /**
   * GetFront on an empty queue gives "" and changes nothing; otherwise it gives
   * the front name and leaves the rest of the list in order.
   */
  lemma GetFrontPops(q: QueueVal)
    requires WellFormed(q)
    ensures var (front, r) := q.GetFront();
      && WellFormed(r)
      && (q.Len() == 0 ==> front == "" && r == q)
      && (q.Len() > 0 ==> front == Names(q.elems)[0] && Names(r.elems) == Names(q.elems)[1..]
                          && r.Len() == q.Len() - 1 && !r.IsInQueue(front))
      && (Coherent(q) ==> Coherent(r))
  {
    if |q.elems| > 0 {
      GetFrontKeepsWellFormed(q);
      var r := q.GetFront().1;
      assert Names(r.elems) == Names(q.elems)[1..];
      if Coherent(q) {
        GetFrontKeepsCoherent(q);
      }
    }
  }

  lemma GetFrontKeepsWellFormed(q: QueueVal)
    requires WellFormed(q) && |q.elems| > 0
    ensures WellFormed(q.GetFront().1)
  {
    var r := q.GetFront().1;
    assert r.elems == q.elems[1..];
    forall c | c in r.index
      ensures Position(r.elems, r.index[c]) < |r.elems| && r.elems[Position(r.elems, r.index[c])].name == c
    {
      var p := Position(q.elems, q.index[c]);
      assert p != 0;
      assert r.elems[p - 1] == q.elems[p];
      PositionAt(r.elems, q.index[c], p - 1);
    }
  }

  lemma GetFrontKeepsCoherent(q: QueueVal)
    requires Coherent(q) && |q.elems| > 0
    ensures Coherent(q.GetFront().1)
  {
    GetFrontKeepsWellFormed(q);
    var r := q.GetFront().1;
    forall i | 0 <= i < |r.elems| ensures r.elems[i].name in r.index {
      assert r.elems[i] == q.elems[i + 1];
    }
    forall i, j | 0 <= i < j < |r.elems| ensures r.elems[i].name != r.elems[j].name {
      assert r.elems[i] == q.elems[i + 1] && r.elems[j] == q.elems[j + 1];
    }
  }

  /** The list without its element at position k (list.Remove). */
  function Without(elems: seq<Element>, k: nat): (r: seq<Element>)
    requires k < |elems|
    ensures |r| == |elems| - 1
    ensures forall i :: 0 <= i < k ==> r[i] == elems[i]
    ensures forall i :: k <= i < |r| ==> r[i] == elems[i + 1]
  {
    elems[..k] + elems[k + 1..]
  }

  lemma DropAt(elems: seq<Element>, k: nat)
    requires k < |elems|
    ensures var r := Without(elems, k);
      && Names(r) == Names(elems)[..k] + Names(elems)[k + 1..]
      && (DistinctIds(elems) ==> DistinctIds(r))
  {
    var r := Without(elems, k);
    assert Names(r) == Names(elems)[..k] + Names(elems)[k + 1..];
  }

  /**
   * Remove deletes the one element the name points at and keeps the order of
   * all other elements.
   */
  lemma RemoveDeletes(q: QueueVal, client: string)
    requires WellFormed(q) && q.IsInQueue(client)
    ensures var k := Position(q.elems, q.index[client]);
      && k < q.Len() && Names(q.elems)[k] == client
      && Names(q.Remove(client).elems) == Names(q.elems)[..k] + Names(q.elems)[k + 1..]
    ensures !q.Remove(client).IsInQueue(client) && q.Remove(client).Len() == q.Len() - 1
    ensures WellFormed(q.Remove(client))
    ensures Coherent(q) ==> Coherent(q.Remove(client))
    ensures forall c :: c != client ==> (q.Remove(client).IsInQueue(c) <==> q.IsInQueue(c))
  {
    var k := Position(q.elems, q.index[client]);
    RemoveShape(q, client);
    DropAt(q.elems, k);
    RemoveKeepsWellFormed(q, client);
    if Coherent(q) {
      RemoveKeepsCoherent(q, client);
    }
  }

  lemma RemoveShape(q: QueueVal, client: string)
    requires WellFormed(q) && q.IsInQueue(client)
    ensures var k := Position(q.elems, q.index[client]);
      && k < q.Len() && Names(q.elems)[k] == client
      && q.Remove(client).elems == Without(q.elems, k)
      && q.Remove(client).index == q.index - {client}
  {
  }

  lemma RemoveKeepsWellFormed(q: QueueVal, client: string)
    requires WellFormed(q) && q.IsInQueue(client)
    ensures WellFormed(q.Remove(client))
  {
    var k := Position(q.elems, q.index[client]);
    var r := q.Remove(client);
    var rest := Without(q.elems, k);
    RemoveShape(q, client);
    DropAt(q.elems, k);
    forall c | c in r.index
      ensures Position(rest, r.index[c]) < |rest| && rest[Position(rest, r.index[c])].name == c
    {
      var id := q.index[c];
      var p := Position(q.elems, id);
      assert p != k;
      var p' := if p < k then p else p - 1;
      assert rest[p'] == q.elems[p];
      PositionAt(rest, id, p');
    }
    assert forall i :: 0 <= i < |rest| ==> rest[i].id < q.nextId;
  }

  lemma RemoveKeepsCoherent(q: QueueVal, client: string)
    requires Coherent(q) && q.IsInQueue(client)
    ensures Coherent(q.Remove(client))
  {
    var k := Position(q.elems, q.index[client]);
    RemoveShape(q, client);
    RemoveKeepsWellFormed(q, client);
    NamesAfterDrop(q.elems, k, q.index, client);
  }

  /** Dropping the only element named `client` leaves distinct names, all still in the map without `client`. */
  lemma NamesAfterDrop(elems: seq<Element>, k: nat, index: map<string, nat>, client: string)
    requires k < |elems| && elems[k].name == client && DistinctNames(elems)
    requires forall i :: 0 <= i < |elems| ==> elems[i].name in index
    ensures DistinctNames(Without(elems, k))
    ensures forall i :: 0 <= i < |Without(elems, k)| ==> Without(elems, k)[i].name in index - {client}
  {
    var r := Without(elems, k);
    forall i | 0 <= i < |r| ensures r[i].name in index - {client} {
      if i < k {
        assert r[i] == elems[i];
      } else {
        assert r[i] == elems[i + 1];
      }
    }
    forall i, j | 0 <= i < j < |r| ensures r[i].name != r[j].name {
      var i', j' := if i < k then i else i + 1, if j < k then j else j + 1;
      assert r[i] == elems[i'] && r[j] == elems[j'];
    }
  }

  /** While the queue is coherent, IsInQueue is membership in the list. */
  lemma IsInQueueIsListMembership(q: QueueVal, client: string)
    requires Coherent(q)
    ensures q.IsInQueue(client) <==> client in Names(q.elems)
  {
    if client in Names(q.elems) {
      var i :| 0 <= i < |q.elems| && Names(q.elems)[i] == client;
      assert q.elems[i].name == client;
    }
    if q.IsInQueue(client) {
      var p := Position(q.elems, q.index[client]);
      assert Names(q.elems)[p] == client;
    }
  }

  /**
   * A second PushBack of a queued name leaves it twice in the list: the source
   * reaches this when a seated client who is still queued waits again (main.go:586).
   */
  lemma PushBackTwice(q: QueueVal, client: string)
    requires WellFormed(q) && q.IsInQueue(client)
    ensures var names := Names(q.PushBack(client).elems);
      names[q.Len()] == client && names[Position(q.elems, q.index[client])] == client
  {
  }

  /** The Queue object; its fields are the list, ClientsInQueue and the next element identity. */
  class Queue {
    var list: seq<Element>
    var clientsInQueue: map<string, nat>
    var nextId: nat

    function Value(): QueueVal
      reads this
    {
      QueueVal(list, clientsInQueue, nextId)
    }

    ghost predicate Valid()
      reads this
    {
      WellFormed(Value())
    }

    /** New (main.go:372-377). */
    constructor ()
      ensures Valid() && Value() == EmptyQueue
    {
      list, clientsInQueue, nextId := [], map[], 0;
    }

    method PushBack(client: string)
      requires Valid()
      modifies this
      ensures Valid() && Value() == old(Value()).PushBack(client)
      ensures Names(list) == old(Names(list)) + [client] && client in clientsInQueue
    {
      PushBackAppends(Value(), client);
      list := list + [Element(nextId, client)];
      clientsInQueue := clientsInQueue[client := nextId];
      nextId := nextId + 1;
    }

    method Len() returns (n: int)
      ensures n == |list|
    {
      n := |list|;
    }

    method GetFront() returns (client: string)
      requires Valid()
      modifies this
      ensures Valid() && (client, Value()) == old(Value()).GetFront()
      ensures old(|list|) == 0 ==> client == "" && list == old(list) && clientsInQueue == old(clientsInQueue)
      ensures old(|list|) > 0 ==> client == old(Names(list))[0] && Names(list) == old(Names(list))[1..]
    {
      GetFrontPops(Value());
      if |list| == 0 {
        return "";
      }
      var cl := list[0];
      list := list[1..];
      client := cl.name;
      clientsInQueue := clientsInQueue - {client};
    }

    method Remove(client: string)
      requires Valid() && client in clientsInQueue
      modifies this
      ensures Valid() && Value() == old(Value()).Remove(client)
      ensures |list| == old(|list|) - 1 && client !in clientsInQueue
    {
      RemoveDeletes(Value(), client);
      var cl := Position(list, clientsInQueue[client]);
      clientsInQueue := clientsInQueue - {client};
      list := list[..cl] + list[cl + 1..];
    }

    method IsInQueue(client: string) returns (b: bool)
      ensures b == (client in clientsInQueue)
    {
      b := client in clientsInQueue;
    }
  }
}
