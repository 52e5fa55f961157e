/** In which stored machine an interface ends up: in exactly one, whatever orders the maps yield, exactly when no other card of
    the lab has the same machine name. */
module Placement {
  import opened Text
  import opened S = Spokes
  import opened Wiring
  import opened Machines

  /** No other card has the card's machine name. */
  ghost predicate Alone(lab: string, cards: map<string, set<string>>, q: Place) {
    forall p | IsCard(cards, p) && p != q :: MachineName(lab, p) != MachineName(lab, q)
  }

  /** Among the cards' interfaces this one is that of q, once. */
  ghost predicate OnlyAt(m: Maps, lab: string, cards: map<string, set<string>>, q: Place, a: Attachment) {
    forall p | IsCard(cards, p) :: multiset(Interfaces(m, lab, p))[a] == if p == q then 1 else 0
  }

  function Count(machine: Machine, a: Attachment): nat { multiset(machine.interfaces)[a] }

  /** The machine under this name is the lab's, has the interface once, and no other machine of the lab has it. */
  ghost predicate OnlyIn(stored: map<string, Machine>, uid: nat, a: Attachment, name: string) {
    && name in stored && stored[name].uid == uid && Count(stored[name], a) == 1
    && forall other | other in stored && other != name && stored[other].uid == uid :: Count(stored[other], a) == 0
  }

  ghost predicate Nowhere(stored: map<string, Machine>, a: Attachment) { forall name | name in stored :: Count(stored[name], a) == 0 }

  /** Every machine of the lab was made for a card with its name, as earlier reconciles leave it. */
  ghost predicate Backed(stored: map<string, Machine>, m: Maps, lab: string, uid: nat, cards: map<string, set<string>>) {
    forall name | name in stored && stored[name].uid == uid :: exists p :: MadeFor(stored[name], m, lab, cards, name, p)
  }

  ghost predicate MadeFor(machine: Machine, m: Maps, lab: string, cards: map<string, set<string>>, name: string, p: Place) {
    IsCard(cards, p) && MachineName(lab, p) == name && machine.interfaces == Interfaces(m, lab, p)
  }

  ghost predicate AreAllCards(order: seq<Place>, cards: map<string, set<string>>) { forall p | p in order :: IsCard(cards, p) }

  lemma {:induction false} CreatedBacked(stored: map<string, Machine>, m: Maps, lab: string, uid: nat,
                                         cards: map<string, set<string>>, order: seq<Place>)
    requires Backed(stored, m, lab, uid, cards) && AreAllCards(order, cards)
    ensures Backed(Created(stored, m, lab, uid, order), m, lab, uid, cards)
  {
    if order != [] {
      var n := |order| - 1;
      CreatedBacked(stored, m, lab, uid, cards, order[..n]);
      var now := Created(stored, m, lab, uid, order);
      assert IsCard(cards, order[n]);
      forall name | name in now && now[name].uid == uid
        ensures exists p :: MadeFor(now[name], m, lab, cards, name, p)
      {
        var before := Created(stored, m, lab, uid, order[..n]);
        if name in before {
          assert now[name] == before[name];
        } else {
          assert MadeFor(now[name], m, lab, cards, name, order[n]);
        }
      }
    }
  }

  /** Every card handled has a machine under its name, of the lab if nobody else's stood there. */
  lemma {:induction false} CreatedHas(stored: map<string, Machine>, m: Maps, lab: string, uid: nat, order: seq<Place>, p: Place)
    requires p in order && NoneForeign(stored, lab, uid, p)
    ensures MachineName(lab, p) in Created(stored, m, lab, uid, order)
    ensures Created(stored, m, lab, uid, order)[MachineName(lab, p)].uid == uid
  {
    var n := |order| - 1;
    if p in order[..n] {
      CreatedHas(stored, m, lab, uid, order[..n], p);
    } else {
      CreatedForeign(stored, m, lab, uid, order[..n], p);
    }
  }

  // ---- the loops reach every card ----

  lemma {:induction false} FlattenHas(nodes: seq<string>, slots: map<string, seq<string>>, p: Place)
    requires NodesNamed(nodes, slots)
    ensures p in Flatten(nodes, slots) <==> p.node in nodes && p.slot in slots[p.node]
  {
    if nodes != [] {
      var j := |nodes| - 1;
      FlattenHas(nodes[..j], slots, p);
      PlacesHas(nodes[j], slots[nodes[j]], p);
      assert nodes == nodes[..j] + [nodes[j]];
    }
  }

  lemma PlacesHas(node: string, slots: seq<string>, p: Place)
    ensures p in PlacesOf(node, slots) <==> p.node == node && p.slot in slots
  {
    if p.node == node && p.slot in slots {
      var i :| 0 <= i < |slots| && slots[i] == p.slot;
      assert PlacesOf(node, slots)[i] == p;
    }
  }

  lemma OrderHasCards(nodes: seq<string>, slots: map<string, seq<string>>, cards: map<string, set<string>>, p: Place)
    requires LoopOrder(nodes, slots, cards) && NodesNamed(nodes, slots)
    ensures p in Flatten(nodes, slots) <==> IsCard(cards, p)
  {
    FlattenHas(nodes, slots, p);
    assert p.node in nodes <==> p.node in Elems(nodes);
    if p.node in cards {
      assert p.slot in slots[p.node] <==> p.slot in Elems(slots[p.node]);
    }
  }

  // ---- a name of its own ----

  /** A card whose machine name is its own has its interface in exactly that machine, in whatever order the machines are
      made, and also when earlier reconciles made some of them. */
  lemma AloneIsPlaced(stored: map<string, Machine>, m: Maps, lab: string, uid: nat, cards: map<string, set<string>>,
                      nodes: seq<string>, slots: map<string, seq<string>>, q: Place, a: Attachment)
    requires LoopOrder(nodes, slots, cards) && NodesNamed(nodes, slots) && Backed(stored, m, lab, uid, cards)
    requires IsCard(cards, q) && Alone(lab, cards, q) && OnlyAt(m, lab, cards, q, a) && NoneForeign(stored, lab, uid, q)
    ensures OnlyIn(Created(stored, m, lab, uid, Flatten(nodes, slots)), uid, a, MachineName(lab, q))
  {
    var order := Flatten(nodes, slots);
    forall p | p in order
      ensures IsCard(cards, p)
    {
      OrderHasCards(nodes, slots, cards, p);
    }
    OrderHasCards(nodes, slots, cards, q);
    CreatedBacked(stored, m, lab, uid, cards, order);
    CreatedHas(stored, m, lab, uid, order, q);
    BackedCounts(Created(stored, m, lab, uid, order), m, lab, uid, cards, q, a);
  }

  lemma BackedCounts(stored: map<string, Machine>, m: Maps, lab: string, uid: nat, cards: map<string, set<string>>, q: Place, a: Attachment)
    requires Backed(stored, m, lab, uid, cards) && Alone(lab, cards, q) && OnlyAt(m, lab, cards, q, a)
    ensures forall name | name in stored && stored[name].uid == uid ::
              Count(stored[name], a) == if name == MachineName(lab, q) then 1 else 0
  {
    forall name | name in stored && stored[name].uid == uid
      ensures Count(stored[name], a) == if name == MachineName(lab, q) then 1 else 0
    {
      var p :| MadeFor(stored[name], m, lab, cards, name, p);
    }
  }

  // ---- a shared name ----

  lemma {:induction false} CreatedFirst(m: Maps, lab: string, uid: nat, order: seq<Place>)
    requires order != []
    ensures MachineName(lab, order[0]) in Created(map[], m, lab, uid, order)
    ensures Created(map[], m, lab, uid, order)[MachineName(lab, order[0])] == Machine(uid, Interfaces(m, lab, order[0]))
  {
    var n := |order| - 1;
    if n > 0 {
      CreatedFirst(m, lab, uid, order[..n]);
    } else {
      assert order[..0] == [];
    }
  }

  lemma {:induction false} FlattenHead(nodes: seq<string>, slots: map<string, seq<string>>)
    requires NodesNamed(nodes, slots) && nodes != [] && slots[nodes[0]] != []
    ensures Flatten(nodes, slots) != [] && Flatten(nodes, slots)[0] == Place(nodes[0], slots[nodes[0]][0])
  {
    var j := |nodes| - 1;
    if j > 0 {
      FlattenHead(nodes[..j], slots);
    } else {
      assert Flatten(nodes[..0], slots) == [];
    }
  }

  ghost function WithFirst(x: string, all: set<string>): seq<string> { [x] + Sorted(all - {x}) }

  lemma WithFirstOrders(x: string, all: set<string>)
    requires x in all
    ensures Distinct(WithFirst(x, all)) && Elems(WithFirst(x, all)) == all
  {
    SortedOrders(all - {x});
    Prepended(x, Sorted(all - {x}), all);
  }

  lemma Prepended(x: string, rest: seq<string>, all: set<string>)
    requires x in all && Distinct(rest) && Elems(rest) == all - {x}
    ensures Distinct([x] + rest) && Elems([x] + rest) == all
  {
    assert forall i | 0 <= i < |rest| :: rest[i] in Elems(rest);
    assert Elems([x] + rest) == {x} + Elems(rest);
  }

  lemma SortedOrders(all: set<string>)
    ensures Distinct(Sorted(all)) && Elems(Sorted(all)) == all
  {
    AscendingDistinct(Sorted(all));
  }

  /** An order that reaches a given card first. */
  lemma OrderWithFirst(cards: map<string, set<string>>, p: Place) returns (nodes: seq<string>, slots: map<string, seq<string>>)
    requires IsCard(cards, p)
    ensures LoopOrder(nodes, slots, cards) && NodesNamed(nodes, slots)
    ensures Flatten(nodes, slots) != [] && Flatten(nodes, slots)[0] == p
  {
    nodes := WithFirst(p.node, cards.Keys);
    slots := map n | n in cards :: if n == p.node then WithFirst(p.slot, cards[n]) else Sorted(cards[n]);
    WithFirstOrders(p.node, cards.Keys);
    WithFirstOrders(p.slot, cards[p.node]);
    forall n | n in cards
      ensures Distinct(slots[n]) && Elems(slots[n]) == cards[n]
    {
      SortedOrders(cards[n]);
    }
    LoopOrderNamed(nodes, slots, cards);
    FlattenHead(nodes, slots);
  }

  lemma EmptyIsBacked(m: Maps, lab: string, uid: nat, cards: map<string, set<string>>)
    ensures Backed(map[], m, lab, uid, cards)
  {
  }

  lemma {:induction false} AllOurs(m: Maps, lab: string, uid: nat, order: seq<Place>, name: string)
    requires name in Created(map[], m, lab, uid, order)
    ensures Created(map[], m, lab, uid, order)[name].uid == uid
  {
    if order != [] && name in Created(map[], m, lab, uid, order[..|order| - 1]) {
      AllOurs(m, lab, uid, order[..|order| - 1], name);
    }
  }

  /** When another card with the same name is reached first, the interface is in no machine at all. */
  lemma SharedIsLost(m: Maps, lab: string, uid: nat, cards: map<string, set<string>>, q: Place, other: Place, a: Attachment)
    returns (nodes: seq<string>, slots: map<string, seq<string>>)
    requires IsCard(cards, other) && other != q && MachineName(lab, other) == MachineName(lab, q) && OnlyAt(m, lab, cards, q, a)
    ensures LoopOrder(nodes, slots, cards) && NodesNamed(nodes, slots)
    ensures Nowhere(Created(map[], m, lab, uid, Flatten(nodes, slots)), a)
  {
    nodes, slots := OrderWithFirst(cards, other);
    var order := Flatten(nodes, slots);
    forall p | p in order
      ensures IsCard(cards, p)
    {
      OrderHasCards(nodes, slots, cards, p);
    }
    EmptyIsBacked(m, lab, uid, cards);
    CreatedBacked(map[], m, lab, uid, cards, order);
    CreatedFirst(m, lab, uid, order);
    var now := Created(map[], m, lab, uid, order);
    forall name | name in now
      ensures Count(now[name], a) == 0
    {
      AllOurs(m, lab, uid, order, name);
      if name != MachineName(lab, q) {
        var p :| MadeFor(now[name], m, lab, cards, name, p);
      }
    }
  }

  ghost predicate AlwaysPlaced(m: Maps, lab: string, uid: nat, cards: map<string, set<string>>, a: Attachment) {
    forall nodes, slots | LoopOrder(nodes, slots, cards) && NodesNamed(nodes, slots) ::
      exists name :: OnlyIn(Created(map[], m, lab, uid, Flatten(nodes, slots)), uid, a, name)
  }

  /** In a new lab an interface is in exactly one stored machine, whatever orders the maps yield, exactly when no other card of
      the lab has its card's machine name. */
  lemma PlacedIff(m: Maps, lab: string, uid: nat, cards: map<string, set<string>>, q: Place, a: Attachment)
    requires IsCard(cards, q) && OnlyAt(m, lab, cards, q, a)
    ensures AlwaysPlaced(m, lab, uid, cards, a) <==> Alone(lab, cards, q)
  {
    if Alone(lab, cards, q) {
      EmptyIsBacked(m, lab, uid, cards);
      forall nodes, slots | LoopOrder(nodes, slots, cards) && NodesNamed(nodes, slots)
        ensures exists name :: OnlyIn(Created(map[], m, lab, uid, Flatten(nodes, slots)), uid, a, name)
      {
        AloneIsPlaced(map[], m, lab, uid, cards, nodes, slots, q, a);
      }
    }
    if other :| IsCard(cards, other) && other != q && MachineName(lab, other) == MachineName(lab, q) {
      var nodes, slots := SharedIsLost(m, lab, uid, cards, q, other, a);
      LostIsNotPlaced(Created(map[], m, lab, uid, Flatten(nodes, slots)), uid, a);
    }
  }

  lemma LostIsNotPlaced(stored: map<string, Machine>, uid: nat, a: Attachment)
    requires Nowhere(stored, a)
    ensures !exists name :: OnlyIn(stored, uid, a, name)
  {
  }
}
