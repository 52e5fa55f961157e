/** Whether a lab sees its own model in the sysinfo of its cards, which other labs may share: exactly when it does, and how it
    comes not to. */
module Isolation {
  import opened Wrappers
  import opened Text
  import opened Names
  import opened Chassis
  import opened Cluster
  import opened LabSpec
  import opened NodePasses
  import opened Defaulting
  import opened Admission
  import opened Sysinfo

  /** The sysinfo is there and reads back as the model of the chassis. */
  predicate Tells(sysInfo: Option<string>, ch: Chassis)
    requires ch.model.Some?
  {
    sysInfo.Some? && ChassisOf(sysInfo.value) == ch.model.value
  }

  // ---- one chassis ----

  lemma DefaultSysinfoReads(ch: Chassis, slot: string, s: string)
    requires Valid(ch) && slot in Slots(ch) && IsDefaultSysinfo(ch, slot, s)
    ensures ChassisOf(s) == ch.model.value[..WordLength(ch.model.value)]
  {
    var xioms :| s == SysinfoWith(ch, slot, xioms);
    var card := Slots(ch)[slot];
    assert SysinfoWith(ch, slot, xioms) ==
           DefaultSysinfo(ch.nodeType.value, ch.model.value, ch.sfm, slot, card.model.value, card.mdas, xioms);
    assert s == SysinfoWith(ch, slot, xioms);
    ChassisReadBack(ch.model.value, Rest(ch.nodeType.value, ch.sfm, slot, card.model.value, card.mdas, xioms));
  }

  lemma FirstWordIs(model: string)
    ensures NoSpace(model[..WordLength(model)])
    ensures model[..WordLength(model)] == model <==> NoSpace(model)
  {
    if WordLength(model) == |model| {
      assert model[..WordLength(model)] == model;
    }
  }

  /** After its cards are filled a chassis sees its own model in a card exactly when the card had no sysinfo before, and the
      model has no white space, or when what it had told this model already. */
  lemma CardTellsIff(ch: Chassis, slot: string, c: Card, before: Fields, after: Fields)
    requires Valid(ch) && In(ch, slot, c) && Justified(ch, c, before, after) && after.sysInfo.Some?
    ensures Tells(after.sysInfo, ch) <==> if before.sysInfo.Some? then Tells(before.sysInfo, ch) else NoSpace(ch.model.value)
  {
    if before.sysInfo.None? {
      var s :| In(ch, s, c) && IsDefaultSysinfo(ch, s, after.sysInfo.value);
      DefaultSysinfoReads(ch, s, after.sysInfo.value);
      FirstWordIs(ch.model.value);
    }
  }

  /** SRVM.FillDefaultVal of one chassis: which of its cards tell its model afterwards. */
  method FillCardsTells(ch: Chassis) returns (ok: bool)
    requires Valid(ch)
    modifies Slots(ch).Values
    ensures ok <==> !FillPanics(ch)
    ensures ok ==> forall c | c in Slots(ch).Values ::
              Tells(c.sysInfo, ch) <==> if old(c.sysInfo).Some? then Tells(old(c.sysInfo), ch) else NoSpace(ch.model.value)
  {
    ok := FillCards(ch);
    if ok {
      forall c | c in Slots(ch).Values
        ensures Tells(c.sysInfo, ch) <==> if old(c.sysInfo).Some? then Tells(old(c.sysInfo), ch) else NoSpace(ch.model.value)
      {
        var slot :| slot in Slots(ch) && Slots(ch)[slot] == c;
        assert c.Filled(ch.nodeType.value, slot);
        CardTellsIff(ch, slot, c, old(c.Now()), c.Now());
      }
    }
  }

  // ---- one lab ----

  ghost predicate HeldBy(nodes: Nodes, n: string, c: Card) {
    Holds(nodes, n) && c in Slots(RouterChassis(nodes[n])).Values
  }

  ghost predicate OneHolds(one: OneOf, c: Card) {
    IsRouter(one) && Valid(RouterChassis(one)) && c in Slots(RouterChassis(one)).Values
  }

  /** Every node of the lab that has the card sees its own model in it. */
  ghost predicate SeesOwnModel(nodes: Nodes, c: Card, f: Fields) {
    forall n | HeldBy(nodes, n, c) :: Tells(f.sysInfo, RouterChassis(nodes[n]))
  }

  function ModelOf(nodes: Nodes, n: string): string
    requires n in nodes && IsRouter(nodes[n]) && Valid(RouterChassis(nodes[n]))
  {
    RouterChassis(nodes[n]).model.value
  }

  /** The lab's nodes that have the card agree on a model without white space. */
  ghost predicate OneModel(nodes: Nodes, c: Card) {
    forall m, n | HeldBy(nodes, m, c) && HeldBy(nodes, n, c) :: NoSpace(ModelOf(nodes, m)) && ModelOf(nodes, m) == ModelOf(nodes, n)
  }

  lemma WrittenByNode(nodes: Nodes, c: Card, before: Fields, after: Fields) returns (m: string)
    requires LabJustified(nodes, c, before, after) && before.sysInfo.None? && after.sysInfo.Some?
    ensures HeldBy(nodes, m, c)
    ensures ChassisOf(after.sysInfo.value) == ModelOf(nodes, m)[..WordLength(ModelOf(nodes, m))]
  {
    assert SomeSysinfo(nodes, c, after.sysInfo);
    m :| Holds(nodes, m) && SysinfoFor(RouterChassis(nodes[m]), c, after.sysInfo);
    var s :| In(RouterChassis(nodes[m]), s, c) && IsDefaultSysinfo(RouterChassis(nodes[m]), s, after.sysInfo.value);
    DefaultSysinfoReads(RouterChassis(nodes[m]), s, after.sysInfo.value);
  }

  /** A lab sees its own model in a card after it was defaulted exactly when the card had no sysinfo before and the lab's
      nodes that have it agree on a model, or when what the card had told their models already. */
  lemma IsolatedIff(nodes: Nodes, c: Card, before: Fields, after: Fields)
    requires LabJustified(nodes, c, before, after) && after.sysInfo.Some?
    ensures SeesOwnModel(nodes, c, after) <==> if before.sysInfo.Some? then SeesOwnModel(nodes, c, before) else OneModel(nodes, c)
  {
    if before.sysInfo.None? {
      var m := WrittenByNode(nodes, c, before, after);
      FirstWordIs(ModelOf(nodes, m));
      if SeesOwnModel(nodes, c, after) {
        assert Tells(after.sysInfo, RouterChassis(nodes[m]));
        assert forall n | HeldBy(nodes, n, c) :: ModelOf(nodes, n) == ModelOf(nodes, m);
      }
      if OneModel(nodes, c) {
        assert forall n | HeldBy(nodes, n, c) :: ModelOf(nodes, n) == ModelOf(nodes, m);
      }
    }
  }

  // ---- Default ----

  lemma RouterWithMac(name: string, one: OneOf, index: nat)
    ensures IsRouter(WithMac(name, one, index)) == IsRouter(one)
    ensures IsRouter(one) ==>
              RouterChassis(WithMac(name, one, index)) ==
              RouterChassis(one).(mac := RouterChassis(WithMac(name, one, index)).mac)
  {
    FirstOfSame(Kinds, one, WithMac(name, one, index));
  }

  lemma MacIsHeld(nodes: Nodes, n: string, c: Card)
    requires n in nodes
    ensures HeldBy(WithMacs(nodes), n, c) <==> HeldBy(nodes, n, c)
    ensures HeldBy(nodes, n, c) ==> ModelOf(WithMacs(nodes), n) == ModelOf(nodes, n)
  {
    RouterWithMac(n, nodes[n], IndexIn(Sorted(nodes.Keys), n));
    SameButMac(nodes[n], WithMacs(nodes)[n], c);
  }

  lemma SameButMac(a: OneOf, b: OneOf, c: Card)
    requires IsRouter(a) == IsRouter(b)
    requires IsRouter(a) ==> RouterChassis(b) == RouterChassis(a).(mac := RouterChassis(b).mac)
    ensures OneHolds(a, c) == OneHolds(b, c)
    ensures OneHolds(a, c) ==> RouterChassis(a).model == RouterChassis(b).model
  {
  }

  lemma MacsChangeNoModel(nodes: Nodes, c: Card, f: Fields)
    ensures SeesOwnModel(WithMacs(nodes), c, f) <==> SeesOwnModel(nodes, c, f)
    ensures OneModel(WithMacs(nodes), c) <==> OneModel(nodes, c)
    ensures (exists n :: HeldBy(WithMacs(nodes), n, c)) <==> (exists n :: HeldBy(nodes, n, c))
  {
    forall n | n in nodes
      ensures HeldBy(WithMacs(nodes), n, c) <==> HeldBy(nodes, n, c)
      ensures HeldBy(nodes, n, c) ==> ModelOf(WithMacs(nodes), n) == ModelOf(nodes, n)
    {
      MacIsHeld(nodes, n, c);
    }
  }

  lemma HeldIsFilled(nodes: Nodes, n: string, c: Card, m: map<Card, Fields>)
    requires NodesFilled(nodes, {}, m) && HeldBy(nodes, n, c)
    ensures c in m && m[c].sysInfo.Some?
  {
    assert NodeFilled(nodes[n], m);
    var slot :| slot in Slots(RouterChassis(nodes[n])) && Slots(RouterChassis(nodes[n]))[slot] == c;
  }

  ghost predicate IsolationExact(nodes: Nodes, c: Card, before: Fields, after: Fields) {
    (exists n :: HeldBy(nodes, n, c)) ==>
      (SeesOwnModel(nodes, c, after) <==> if before.sysInfo.Some? then SeesOwnModel(nodes, c, before) else OneModel(nodes, c))
  }

  lemma DefaultedIsolation(prepared: Nodes, c: Card, before: Fields, m: map<Card, Fields>)
    requires NodesFilled(WithMacs(prepared), {}, m) && c in m && LabJustified(prepared, c, before, m[c])
    ensures IsolationExact(WithMacs(prepared), c, before, m[c])
  {
    if n :| HeldBy(WithMacs(prepared), n, c) {
      HeldIsFilled(WithMacs(prepared), n, c, m);
      IsolatedIff(prepared, c, before, m[c]);
      MacsChangeNoModel(prepared, c, m[c]);
      MacsChangeNoModel(prepared, c, before);
    }
  }

  /** Default: for every card of the lab, shared or not, exactly when its nodes see their own model in it. */
  method DefaultIsolates(lab: LabObject, defaults: OneOf, ghost cards: set<Card>)
    returns (r: Verdict, ghost before: map<Card, Fields>, ghost after: map<Card, Fields>)
    requires Within(lab.nodes, cards) && OneWithin(defaults, cards)
    modifies lab, cards
    ensures before == old(Snapshot(cards)) && after == Snapshot(cards)
    ensures r == VerdictOf(old(lab.nodes), old(lab.links), defaults)
    ensures r.Ok? ==> lab.nodes == DefaultedNodes(old(lab.nodes), old(lab.links), defaults)
    ensures r.Ok? ==> forall c | c in cards :: IsolationExact(lab.nodes, c, before[c], after[c])
    ensures Stayed(before, after) && (r.Ok? ==> NodesFilled(lab.nodes, {}, after))
  {
    ghost var prepared, starts := PreparedNodes(lab.nodes, lab.links, defaults), map[];
    before := Snapshot(cards);
    r, starts, after := Default(lab, defaults, cards);
    AllLabJustifiedStayed(prepared, before, after);
    if r.Ok? {
      forall c | c in cards
        ensures IsolationExact(lab.nodes, c, before[c], after[c])
      {
        DefaultedIsolation(prepared, c, before[c], after);
      }
    }
  }

  // ---- two labs ----

  /** A vsim for which the user gave a model but no cards. */
  function ModelOnly(model: string): OneOf { map[VSIM := System(Some(NoChassis.(model := Some(model))), map[])] }

  /** A configuration that supplies the cards of a vsim. */
  function CardsOnly(card: Card): OneOf { map[VSIM := System(Some(NoChassis.(cards := Some(map["A" := card]))), map[])] }

  const Node := "vsim-1"

  lemma NodeName()
    ensures NodeTypeOf(Node) == VSIM && CpmName(Node).None?
  {
    assert Node == VSIM + ['-'] + "1";
    assert IndexOf(Node, '-') == 4 && Node[..4] == VSIM;
    TrimSpaceUnchanged(Node);
    SplitHead(VSIM, '-', "1");
    SplitNone("1", '-');
  }

  /** The chassis of the node before it is given an address. */
  function Merged(model: string, card: Card): Chassis { Chassis(Some(VSIM), Some(model), Some(map["A" := card]), None, None) }

  lemma PreparedVsim(model: string, card: Card)
    ensures Prepared(Node, ModelOnly(model), CardsOnly(card)) == map[VSIM := System(Some(Merged(model, card)), map[])]
  {
    var one := ModelOnly(model);
    assert GetSystem(one) == Some(VSIM);
    var src := CardsOnly(card)[VSIM];
    assert FillSystem(one[VSIM], src) == System(Some(Merged(model, card).(nodeType := None)), map[]);
    assert Loaded(one, CardsOnly(card)) == one[VSIM := FillSystem(one[VSIM], src)];
  }

  function OneVsim(model: string): Nodes { map[Node := ModelOnly(model)] }

  lemma VsimClosure(model: string)
    ensures NodeClosure(OneVsim(model), map[]) == OneVsim(model)
  {
    NodeName();
    SettledClosure(OneVsim(model), map[]);
  }

  lemma VsimPrepared(model: string, card: Card)
    ensures PreparedNodes(OneVsim(model), map[], CardsOnly(card)) == map[Node := map[VSIM := System(Some(Merged(model, card)), map[])]]
  {
    VsimClosure(model);
    PreparedVsim(model, card);
  }

  lemma VsimIsHeld(model: string, card: Card, prepared: Nodes)
    requires card.Acceptable() && prepared == map[Node := map[VSIM := System(Some(Merged(model, card)), map[])]]
    ensures HeldBy(prepared, Node, card) && ModelOf(prepared, Node) == model
  {
    var one := prepared[Node];
    assert GetSystem(one) == Some(VSIM) && IsRouter(one) && RouterChassis(one) == Merged(model, card);
    assert Slots(Merged(model, card))["A"] == card;
  }

  lemma VsimIsCalm(model: string, card: Card, prepared: Nodes)
    requires prepared == map[Node := map[VSIM := System(Some(Merged(model, card)), map[])]]
    ensures !SomeNodePanics(prepared) && !SomeConnectorPanics(prepared, map[]) && !SomeMacPanics(prepared)
  {
    NodeName();
    var one := prepared[Node];
    assert GetSystem(one) == Some(VSIM) && !NodePanics(one) && !MacPanics(Node, one);
  }

  /** Such a lab is defaulted without error. */
  lemma VsimVerdict(model: string, card: Card)
    ensures VerdictOf(OneVsim(model), map[], CardsOnly(card)) == Ok
  {
    VsimClosure(model);
    VsimPrepared(model, card);
    VsimIsCalm(model, card, PreparedNodes(OneVsim(model), map[], CardsOnly(card)));
    assert GetSystem(ModelOnly(model)) == Some(VSIM);
    assert !SomeUntyped(OneVsim(model));
  }

  /** It holds the card, and nothing else does. */
  lemma VsimDefaulted(model: string, card: Card)
    requires card.Acceptable()
    ensures var nodes := DefaultedNodes(OneVsim(model), map[], CardsOnly(card));
            nodes.Keys == {Node} && HeldBy(nodes, Node, card) && ModelOf(nodes, Node) == model
  {
    VsimPrepared(model, card);
    VsimWithMac(model, card, PreparedNodes(OneVsim(model), map[], CardsOnly(card)));
  }

  lemma VsimWithMac(model: string, card: Card, prepared: Nodes)
    requires card.Acceptable() && prepared == map[Node := map[VSIM := System(Some(Merged(model, card)), map[])]]
    ensures var nodes := WithMacs(prepared); nodes.Keys == {Node} && HeldBy(nodes, Node, card) && ModelOf(nodes, Node) == model
  {
    VsimIsHeld(model, card, prepared);
    MacIsHeld(prepared, Node, card);
  }

  lemma SoleNode(nodes: Nodes, c: Card, before: Fields, after: Fields)
    requires nodes.Keys == {Node} && HeldBy(nodes, Node, c) && IsolationExact(nodes, c, before, after)
    requires before.sysInfo.None? && NoSpace(ModelOf(nodes, Node))
    ensures Tells(after.sysInfo, RouterChassis(nodes[Node]))
  {
    assert OneModel(nodes, c);
  }

  /** One such request: a lab whose node has this model, admitted under a configuration with this card. */
  method AdmitVsim(model: string, card: Card) returns (lab: LabObject, r: Verdict)
    requires card.Acceptable()
    modifies card
    ensures fresh(lab) && r.Ok? && HeldBy(lab.nodes, Node, card) && ModelOf(lab.nodes, Node) == model
    ensures Kept(old(card.sysInfo), card.sysInfo) && card.sysInfo.Some?
    ensures old(card.sysInfo).None? && NoSpace(model) ==> ChassisOf(card.sysInfo.value) == model
  {
    lab := new LabObject(OneVsim(model), map[]);
    VsimWithin(model, card);
    VsimVerdict(model, card);
    ghost var before, after;
    r, before, after := DefaultIsolates(lab, CardsOnly(card), {card});
    VsimTells(model, card, before, after);
  }

  lemma VsimWithin(model: string, card: Card)
    ensures Within(OneVsim(model), {card}) && OneWithin(CardsOnly(card), {card})
  {
  }

  lemma VsimTells(model: string, card: Card, before: map<Card, Fields>, after: map<Card, Fields>)
    requires card.Acceptable() && before.Keys == {card} == after.Keys && Stayed(before, after)
    requires var nodes := DefaultedNodes(OneVsim(model), map[], CardsOnly(card));
             NodesFilled(nodes, {}, after) && IsolationExact(nodes, card, before[card], after[card])
    ensures var nodes := DefaultedNodes(OneVsim(model), map[], CardsOnly(card));
            HeldBy(nodes, Node, card) && ModelOf(nodes, Node) == model
    ensures Kept(before[card].sysInfo, after[card].sysInfo) && after[card].sysInfo.Some?
    ensures before[card].sysInfo.None? && NoSpace(model) ==> ChassisOf(after[card].sysInfo.value) == model
  {
    var nodes := DefaultedNodes(OneVsim(model), map[], CardsOnly(card));
    VsimDefaulted(model, card);
    HeldIsFilled(nodes, Node, card, after);
    if before[card].sysInfo.None? && NoSpace(model) {
      SoleNode(nodes, card, before[card], after[card]);
    }
  }

  /** The way it fails, with labs as users send them: both take their cards from the same configuration and differ in the
      model of their only node. Both are accepted, and the second carries the model of the first in its sysinfo. */
  method TwoLabsOneConfig(first: string, second: string) returns (a: LabObject, b: LabObject, card: Card, ra: Verdict, rb: Verdict)
    requires first != second && NoSpace(first)
    ensures ra.Ok? && rb.Ok?
    ensures HeldBy(a.nodes, Node, card) && ModelOf(a.nodes, Node) == first
    ensures HeldBy(b.nodes, Node, card) && ModelOf(b.nodes, Node) == second
    ensures card.sysInfo.Some? && ChassisOf(card.sysInfo.value) == first
    ensures !SeesOwnModel(b.nodes, card, card.Now())
  {
    card := new Card(Some("cpm5"), None, map[]);
    a, ra := AdmitVsim(first, card);
    b, rb := AdmitVsim(second, card);
    assert !Tells(card.sysInfo, RouterChassis(b.nodes[Node]));
  }

  /** Two labs whose chassis have the same cards but different models, as when both take their cards from the configuration:
      the sysinfo of a shared card tells the model of the lab defaulted first, also in the second lab. */
  method SecondLabSeesFirst(first: Chassis, second: Chassis, slot: string, card: Card)
    requires Valid(first) && Valid(second) && Slots(first) == Slots(second)
    requires slot in Slots(first) && Slots(first)[slot] == card && card.sysInfo.None?
    requires !FillPanics(first) && first.model != second.model && NoSpace(first.model.value)
    modifies Slots(first).Values
    ensures card.sysInfo.Some? && ChassisOf(card.sysInfo.value) == first.model.value != second.model.value
  {
    var ok := FillCards(first);
    assert card in Slots(first).Values && card.Filled(first.nodeType.value, slot);
    assert SysinfoFor(first, card, card.sysInfo);
    ghost var other :| In(first, other, card) && IsDefaultSysinfo(first, other, card.sysInfo.value);
    DefaultSysinfoReads(first, other, card.sysInfo.value);
    FirstWordIs(first.model.value);
    ghost var written := card.Now();
    ok := FillCards(second);
    JustifiedIsWrittenOnce(second, card, written, card.Now());
  }

  /** Then the machine of a vsim whose own chassis is integrated refers to a fabric that is not planned. */
  lemma ForeignSysinfoBreaksFabric(lab: Key, node: string, slot: string, sysinfo: string, model: string)
    requires VmTypeOf(node) == VSIM && IsIntegrated(model) && !IsIntegrated(ChassisOf(sysinfo))
    ensures FabricName(lab.name, node) in FabricNetworks(lab.name, node, slot, sysinfo)
    ensures !IsPlanned(lab, node, model, FabricName(lab.name, node))
  {
    PlannedWhenDistributed(lab, node, model);
  }

  // ---- a card of one's own ----

  /** The card is in this slot of this node and nowhere else. */
  ghost predicate OwnCard(nodes: Nodes, n: string, slot: string, c: Card) {
    && Holds(nodes, n) && In(RouterChassis(nodes[n]), slot, c)
    && forall m, s | Holds(nodes, m) && In(RouterChassis(nodes[m]), s, c) :: m == n && s == slot
  }

  lemma OwnCardSysinfo(nodes: Nodes, n: string, slot: string, c: Card, before: Fields, after: Fields)
    requires OwnCard(nodes, n, slot, c) && LabJustified(nodes, c, before, after)
    requires before.sysInfo.None? && after.sysInfo.Some?
    ensures IsDefaultSysinfo(RouterChassis(nodes[n]), slot, after.sysInfo.value)
  {
    assert SomeSysinfo(nodes, c, after.sysInfo);
    var m :| Holds(nodes, m) && SysinfoFor(RouterChassis(nodes[m]), c, after.sysInfo);
    var s :| In(RouterChassis(nodes[m]), s, c) && IsDefaultSysinfo(RouterChassis(nodes[m]), s, after.sysInfo.value);
  }

  lemma DefaultSysinfoAgrees(lab: Key, n: string, slot: string, ch: Chassis, s: string)
    requires Valid(ch) && slot in Slots(ch) && IsDefaultSysinfo(ch, slot, s)
    ensures (forall name | name in FabricNetworks(lab.name, n, slot, s) :: IsPlanned(lab, n, ch.model.value, name))
            <==> !(IsIntegrated(ch.model.value) && VmTypeOf(n) == MAGC && !IsCPM(slot))
  {
    var xioms :| s == SysinfoWith(ch, slot, xioms);
    var card := Slots(ch)[slot];
    assert SysinfoWith(ch, slot, xioms) ==
           DefaultSysinfo(ch.nodeType.value, ch.model.value, ch.sfm, slot, card.model.value, card.mdas, xioms);
    assert s == SysinfoWith(ch, slot, xioms);
    GeneratedSysinfoAgrees(lab, n, slot, ch.nodeType.value, ch.model.value, ch.sfm, card.model.value, card.mdas, xioms);
  }

  /** A card of a lab's own, for which the user gave no sysinfo, gets that of its chassis. Every bridge its machine refers to
      is planned, except the data fabric of a MAG-c line card whose chassis model counts as integrated. */
  lemma OwnCardAgrees(nodes: Nodes, lab: Key, n: string, slot: string, c: Card, before: Fields, after: Fields)
    requires OwnCard(nodes, n, slot, c) && LabJustified(nodes, c, before, after)
    requires before.sysInfo.None? && after.sysInfo.Some?
    ensures var model := RouterChassis(nodes[n]).model.value;
            (forall name | name in FabricNetworks(lab.name, n, slot, after.sysInfo.value) :: IsPlanned(lab, n, model, name))
            <==> !(IsIntegrated(model) && VmTypeOf(n) == MAGC && !IsCPM(slot))
  {
    OwnCardSysinfo(nodes, n, slot, c, before, after);
    DefaultSysinfoAgrees(lab, n, slot, RouterChassis(nodes[n]), after.sysInfo.value);
  }
}
