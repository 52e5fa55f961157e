/** The virtual machines Ensure creates: one per card, by get-or-create under a lower-cased name. Exactly when every card gets
    a machine of its own. */
module Machines {
  import opened Text
  import opened S = Spokes
  import opened Wiring

  /** A card of a router node. */
  datatype Place = Place(node: string, slot: string)

  /** GetSRVMCardVMName. */
  function MachineName(lab: string, p: Place): string { ToLower(lab + "-" + p.node + "-" + p.slot) }

  /** A stored machine: the lab that owns it, and its link interfaces. */
  datatype Machine = Machine(uid: nat, interfaces: seq<Attachment>)

  // ---- names ----

  /** Two cards of a lab have the same machine name exactly when "node-slot" agree in lower case. */
  lemma SameMachineName(lab: string, p: Place, q: Place)
    ensures MachineName(lab, p) == MachineName(lab, q) <==>
            ToLower(p.node + "-" + p.slot) == ToLower(q.node + "-" + q.slot)
  {
    LabPrefix(lab, p);
    LabPrefix(lab, q);
    var head := ToLower(lab + "-");
    assert MachineName(lab, p)[|head|..] == ToLower(p.node + "-" + p.slot);
    assert MachineName(lab, q)[|head|..] == ToLower(q.node + "-" + q.slot);
  }

  /** A machine's name is in lower case throughout: lab, node and slot, with dashes in between. */
  lemma MachineInParts(lab: string, p: Place)
    ensures MachineName(lab, p) == ToLower(lab) + "-" + ToLower(p.node) + "-" + ToLower(p.slot)
  {
    ToLowerConcat(lab + "-" + p.node + "-", p.slot);
    ToLowerConcat(lab + "-" + p.node, "-");
    ToLowerConcat(lab + "-", p.node);
    ToLowerConcat(lab, "-");
    assert ToLower("-") == "-";
    assert MachineName(lab, p) == ToLower(lab + "-" + p.node + "-") + ToLower(p.slot);
  }

  lemma LabPrefix(lab: string, p: Place)
    ensures MachineName(lab, p) == ToLower(lab + "-") + ToLower(p.node + "-" + p.slot)
  {
    assert lab + "-" + p.node + "-" + p.slot == (lab + "-") + (p.node + "-" + p.slot);
    ToLowerConcat(lab + "-", p.node + "-" + p.slot);
  }

  // ---- what the loops store ----

  ghost predicate HavePorts(m: Maps, node: string) { AllHavePorts(m, node, Sorted(LinksOf(m, node))) }

  /** The link interfaces getVMI gives a card's machine. */
  ghost function Interfaces(m: Maps, lab: string, p: Place): seq<Attachment> {
    if HavePorts(m, p.node) then CardLinks(m, lab, p.node, p.slot, Sorted(LinksOf(m, p.node))) else []
  }

  /** Get-or-create of the machines of some cards, one after the other. */
  ghost function Created(stored: map<string, Machine>, m: Maps, lab: string, uid: nat, order: seq<Place>): map<string, Machine> {
    if order == [] then stored
    else
      var n := |order| - 1;
      var before := Created(stored, m, lab, uid, order[..n]);
      if MachineName(lab, order[n]) in before then before
      else before[MachineName(lab, order[n]) := Machine(uid, Interfaces(m, lab, order[n]))]
  }

  lemma {:induction false} CreatedConcat(stored: map<string, Machine>, m: Maps, lab: string, uid: nat, a: seq<Place>, b: seq<Place>)
    ensures Created(stored, m, lab, uid, a + b) == Created(Created(stored, m, lab, uid, a), m, lab, uid, b)
  {
    if b == [] {
      assert a + b == a;
    } else {
      var n := |b| - 1;
      assert (a + b)[..|a + b| - 1] == a + b[..n];
      CreatedConcat(stored, m, lab, uid, a, b[..n]);
    }
  }

  lemma CreatedOne(stored: map<string, Machine>, m: Maps, lab: string, uid: nat, order: seq<Place>, p: Place)
    ensures var before := Created(stored, m, lab, uid, order);
            Created(stored, m, lab, uid, order + [p]) ==
            if MachineName(lab, p) in before then before
            else before[MachineName(lab, p) := Machine(uid, Interfaces(m, lab, p))]
  {
    assert (order + [p])[..|order|] == order;
  }

  /** No name of the cards is taken by a machine of somebody else. */
  ghost predicate NoneForeign(stored: map<string, Machine>, lab: string, uid: nat, p: Place) {
    MachineName(lab, p) in stored ==> stored[MachineName(lab, p)].uid == uid
  }

  lemma {:induction false} CreatedForeign(stored: map<string, Machine>, m: Maps, lab: string, uid: nat, order: seq<Place>, p: Place)
    ensures NoneForeign(Created(stored, m, lab, uid, order), lab, uid, p) <==> NoneForeign(stored, lab, uid, p)
  {
    if order != [] {
      CreatedForeign(stored, m, lab, uid, order[..|order| - 1], p);
    }
  }

  // ---- Ensure ----

  function PlacesOf(node: string, slots: seq<string>): seq<Place> { seq(|slots|, i requires 0 <= i < |slots| => Place(node, slots[i])) }

  /** One card: the machine is described, looked up by name, and created if there is none. Not ok is a panic, or a machine of
      somebody else under the name. */
  method EnsureMachine(stored: map<string, Machine>, m: Maps, lab: string, uid: nat, p: Place)
    returns (ok: bool, stored': map<string, Machine>)
    ensures ok <==> HavePorts(m, p.node) && NoneForeign(stored, lab, uid, p)
    ensures ok ==> stored' == if MachineName(lab, p) in stored then stored
                              else stored[MachineName(lab, p) := Machine(uid, Interfaces(m, lab, p))]
  {
    stored' := stored;
    var interfaces := PortLinks(m, lab, p.node, p.slot);
    if interfaces.None? {
      return false, stored';
    }
    var name := MachineName(lab, p);
    if name in stored {
      ok := stored[name].uid == uid;
    } else {
      stored' := stored[name := Machine(uid, interfaces.value)];
      ok := true;
    }
  }

  /** The cards in `todo` are left; the others were handled in the order `order`. */
  ghost predicate CardsDone(stored: map<string, Machine>, now: map<string, Machine>, m: Maps, lab: string, uid: nat, node: string,
                            cards: set<string>, todo: set<string>, order: seq<string>) {
    && todo <= cards && Distinct(order) && Elems(order) == cards - todo
    && now == Created(stored, m, lab, uid, PlacesOf(node, order))
    && forall slot | slot in order :: HavePorts(m, node) && NoneForeign(stored, lab, uid, Place(node, slot))
  }

  lemma CardsDoneStep(stored: map<string, Machine>, now: map<string, Machine>, m: Maps, lab: string, uid: nat, node: string,
                      cards: set<string>, todo: set<string>, order: seq<string>, slot: string)
    requires CardsDone(stored, now, m, lab, uid, node, cards, todo, order) && slot in todo
    requires HavePorts(m, node) && NoneForeign(now, lab, uid, Place(node, slot))
    ensures var name := MachineName(lab, Place(node, slot));
            var now' := if name in now then now else now[name := Machine(uid, Interfaces(m, lab, Place(node, slot)))];
            CardsDone(stored, now', m, lab, uid, node, cards, todo - {slot}, order + [slot])
  {
    OneMore(order, slot, cards, todo);
    CreatedNext(stored, m, lab, uid, node, order, slot);
    CreatedForeign(stored, m, lab, uid, PlacesOf(node, order), Place(node, slot));
  }

  lemma CreatedNext(stored: map<string, Machine>, m: Maps, lab: string, uid: nat, node: string, order: seq<string>, slot: string)
    ensures var now := Created(stored, m, lab, uid, PlacesOf(node, order));
            var name := MachineName(lab, Place(node, slot));
            Created(stored, m, lab, uid, PlacesOf(node, order + [slot])) ==
            if name in now then now else now[name := Machine(uid, Interfaces(m, lab, Place(node, slot)))]
  {
    assert PlacesOf(node, order + [slot]) == PlacesOf(node, order) + [Place(node, slot)];
    CreatedOne(stored, m, lab, uid, PlacesOf(node, order), Place(node, slot));
  }

  lemma OneMore(order: seq<string>, x: string, all: set<string>, todo: set<string>)
    requires Distinct(order) && Elems(order) == all - todo && todo <= all && x in todo
    ensures Distinct(order + [x]) && Elems(order + [x]) == all - (todo - {x})
  {
    assert x !in Elems(order);
    assert Elems(order + [x]) == Elems(order) + {x};
    assert all - (todo - {x}) == (all - todo) + {x};
  }

  /** The card loop of Ensure for one node, in whatever order the map yields the cards. */
  method EnsureCards(stored: map<string, Machine>, m: Maps, lab: string, uid: nat, node: string, cards: set<string>)
    returns (ok: bool, stored': map<string, Machine>, ghost order: seq<string>)
    ensures ok <==> forall slot | slot in cards :: HavePorts(m, node) && NoneForeign(stored, lab, uid, Place(node, slot))
    ensures ok ==> Distinct(order) && Elems(order) == cards && stored' == Created(stored, m, lab, uid, PlacesOf(node, order))
  {
    var todo := cards;
    stored', order := stored, [];
    assert PlacesOf(node, []) == [];
    while todo != {}
      invariant CardsDone(stored, stored', m, lab, uid, node, cards, todo, order)
      decreases todo
    {
      var slot :| slot in todo;
      ghost var before := stored';
      ok, stored' := EnsureMachine(stored', m, lab, uid, Place(node, slot));
      if !ok {
        CreatedForeign(stored, m, lab, uid, PlacesOf(node, order), Place(node, slot));
        return;
      }
      CardsDoneStep(stored, before, m, lab, uid, node, cards, todo, order, slot);
      order := order + [slot];
      todo := todo - {slot};
    }
    ok := true;
    forall slot | slot in cards
      ensures HavePorts(m, node) && NoneForeign(stored, lab, uid, Place(node, slot))
    {
      assert slot in Elems(order);
    }
  }

  // ---- all nodes ----

  /** The cards in the order in which the node loop and the card loop reach them. */
  ghost function Flatten(nodes: seq<string>, slots: map<string, seq<string>>): seq<Place>
    requires forall n | n in nodes :: n in slots
  {
    if nodes == [] then []
    else
      var j := |nodes| - 1;
      Flatten(nodes[..j], slots) + PlacesOf(nodes[j], slots[nodes[j]])
  }

  /** An order in which the loops may reach the cards of the lab's routers: `cards` are the slots of each. */
  ghost predicate LoopOrder(nodes: seq<string>, slots: map<string, seq<string>>, cards: map<string, set<string>>) {
    && Distinct(nodes) && Elems(nodes) == cards.Keys && slots.Keys == cards.Keys
    && forall n | n in cards :: Distinct(slots[n]) && Elems(slots[n]) == cards[n]
  }

  ghost predicate NodesNamed(nodes: seq<string>, slots: map<string, seq<string>>) { forall n | n in nodes :: n in slots }

  lemma LoopOrderNamed(nodes: seq<string>, slots: map<string, seq<string>>, cards: map<string, set<string>>)
    requires LoopOrder(nodes, slots, cards)
    ensures NodesNamed(nodes, slots)
  {
    assert forall n | n in nodes :: n in Elems(nodes);
  }

  predicate IsCard(cards: map<string, set<string>>, p: Place) { p.node in cards && p.slot in cards[p.node] }

  /** Orders for the nodes not in `todo`. */
  ghost predicate OrdersTo(cards: map<string, set<string>>, todo: set<string>, nodes: seq<string>, slots: map<string, seq<string>>) {
    && todo <= cards.Keys && Distinct(nodes) && Elems(nodes) == cards.Keys - todo == slots.Keys
    && forall n | n in slots :: Distinct(slots[n]) && Elems(slots[n]) == cards[n]
  }

  /** The machines of these nodes can be had. */
  ghost predicate Possible(stored: map<string, Machine>, m: Maps, lab: string, uid: nat, cards: map<string, set<string>>,
                           nodes: set<string>) {
    forall p | IsCard(cards, p) && p.node in nodes :: HavePorts(m, p.node) && NoneForeign(stored, lab, uid, p)
  }

  /** The nodes in `todo` are left. */
  ghost predicate NodesDone(stored: map<string, Machine>, now: map<string, Machine>, m: Maps, lab: string, uid: nat,
                            cards: map<string, set<string>>, todo: set<string>, nodes: seq<string>, slots: map<string, seq<string>>) {
    && OrdersTo(cards, todo, nodes, slots) && NodesNamed(nodes, slots)
    && now == Created(stored, m, lab, uid, Flatten(nodes, slots))
    && Possible(stored, m, lab, uid, cards, slots.Keys)
  }

  lemma OrdersToStep(cards: map<string, set<string>>, todo: set<string>, nodes: seq<string>, slots: map<string, seq<string>>,
                     n: string, order: seq<string>)
    requires OrdersTo(cards, todo, nodes, slots) && n in todo && Distinct(order) && Elems(order) == cards[n]
    ensures n !in nodes && OrdersTo(cards, todo - {n}, nodes + [n], slots[n := order])
  {
    OneMore(nodes, n, cards.Keys, todo);
    assert n !in Elems(nodes);
    assert cards.Keys - (todo - {n}) == (cards.Keys - todo) + {n};
  }

  lemma FlattenStep(nodes: seq<string>, slots: map<string, seq<string>>, n: string, order: seq<string>)
    requires NodesNamed(nodes, slots) && n !in nodes
    ensures NodesNamed(nodes + [n], slots[n := order])
    ensures Flatten(nodes + [n], slots[n := order]) == Flatten(nodes, slots) + PlacesOf(n, order)
  {
    FlattenMore(nodes, slots, n, order);
    assert (nodes + [n])[..|nodes|] == nodes;
  }

  lemma PossibleStep(stored: map<string, Machine>, m: Maps, lab: string, uid: nat, cards: map<string, set<string>>,
                     nodes: set<string>, order: seq<Place>, n: string)
    requires Possible(stored, m, lab, uid, cards, nodes) && n in cards
    requires forall slot | slot in cards[n] ::
               HavePorts(m, n) && NoneForeign(Created(stored, m, lab, uid, order), lab, uid, Place(n, slot))
    ensures Possible(stored, m, lab, uid, cards, nodes + {n})
  {
    forall p | IsCard(cards, p) && p.node == n
      ensures HavePorts(m, p.node) && NoneForeign(stored, lab, uid, p)
    {
      assert p == Place(n, p.slot);
      CreatedForeign(stored, m, lab, uid, order, p);
    }
  }

  lemma {:induction false} FlattenMore(nodes: seq<string>, slots: map<string, seq<string>>, n: string, order: seq<string>)
    requires NodesNamed(nodes, slots) && n !in nodes
    ensures NodesNamed(nodes, slots[n := order]) && Flatten(nodes, slots[n := order]) == Flatten(nodes, slots)
  {
    if nodes != [] {
      FlattenMore(nodes[..|nodes| - 1], slots, n, order);
    }
  }

  lemma NodesDoneStep(stored: map<string, Machine>, now: map<string, Machine>, m: Maps, lab: string, uid: nat,
                      cards: map<string, set<string>>, todo: set<string>, nodes: seq<string>, slots: map<string, seq<string>>,
                      n: string, order: seq<string>)
    requires NodesDone(stored, now, m, lab, uid, cards, todo, nodes, slots) && n in todo
    requires Distinct(order) && Elems(order) == cards[n]
    requires forall slot | slot in cards[n] :: HavePorts(m, n) && NoneForeign(now, lab, uid, Place(n, slot))
    ensures NodesDone(stored, Created(now, m, lab, uid, PlacesOf(n, order)), m, lab, uid, cards, todo - {n}, nodes + [n], slots[n := order])
  {
    OrdersToStep(cards, todo, nodes, slots, n, order);
    FlattenStep(nodes, slots, n, order);
    CreatedConcat(stored, m, lab, uid, Flatten(nodes, slots), PlacesOf(n, order));
    PossibleStep(stored, m, lab, uid, cards, slots.Keys, Flatten(nodes, slots), n);
    assert slots[n := order].Keys == slots.Keys + {n};
  }

  /** The machines of all routers of a lab, in whatever order the maps yield nodes and cards. It fails exactly when a router
      with cards has a connector without a port, or a card's name is taken by somebody else. */
  method EnsureMachines(stored: map<string, Machine>, m: Maps, lab: string, uid: nat, cards: map<string, set<string>>)
    returns (ok: bool, stored': map<string, Machine>, ghost nodes: seq<string>, ghost slots: map<string, seq<string>>)
    ensures ok <==> forall p | IsCard(cards, p) :: HavePorts(m, p.node) && NoneForeign(stored, lab, uid, p)
    ensures ok ==> LoopOrder(nodes, slots, cards) && NodesNamed(nodes, slots)
                   && stored' == Created(stored, m, lab, uid, Flatten(nodes, slots))
  {
    var todo := cards.Keys;
    stored', nodes, slots := stored, [], map[];
    while todo != {}
      invariant NodesDone(stored, stored', m, lab, uid, cards, todo, nodes, slots)
      decreases todo
    {
      var node :| node in todo;
      ghost var order, before := [], stored';
      ok, stored', order := EnsureCards(stored', m, lab, uid, node, cards[node]);
      if !ok {
        NodeFails(stored, before, m, lab, uid, cards, nodes, slots, node);
        return;
      }
      NodesDoneStep(stored, before, m, lab, uid, cards, todo, nodes, slots, node, order);
      nodes, slots := nodes + [node], slots[node := order];
      todo := todo - {node};
    }
    ok := true;
  }

  lemma NodeFails(stored: map<string, Machine>, now: map<string, Machine>, m: Maps, lab: string, uid: nat,
                  cards: map<string, set<string>>, nodes: seq<string>, slots: map<string, seq<string>>, n: string)
    requires NodesNamed(nodes, slots) && now == Created(stored, m, lab, uid, Flatten(nodes, slots)) && n in cards
    requires exists slot :: slot in cards[n] && !(HavePorts(m, n) && NoneForeign(now, lab, uid, Place(n, slot)))
    ensures exists p :: IsCard(cards, p) && !(HavePorts(m, p.node) && NoneForeign(stored, lab, uid, p))
  {
    var slot :| slot in cards[n] && !(HavePorts(m, n) && NoneForeign(now, lab, uid, Place(n, slot)));
    CreatedForeign(stored, m, lab, uid, Flatten(nodes, slots), Place(n, slot));
    assert IsCard(cards, Place(n, slot));
  }
}
