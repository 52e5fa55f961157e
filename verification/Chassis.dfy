/** Chassis and cards of the Nokia router nodes: their defaults and the choice of a default port. Cards are
    objects: the Cards map of the global configuration is copied by reference, so labs share them. */
module Chassis {
  import opened Wrappers
  import opened Names
  import opened Sysinfo

  datatype Xiom = Xiom(model: Option<string>, mdas: seq<string>)

  datatype Port = Port(name: string, protocol: string, number: nat)

  const IomPorts := [Port("dummy", "TCP", 1)]

  const CpmPorts := [Port("ssh", "TCP", 22), Port("netconf", "TCP", 830), Port("gnmi", "TCP", 57400), Port("radiuscoa", "UDP", 3799)]

  /** The memory and CPU a card asks for when the user does not say; None where no default applies. */
  datatype Demand = Demand(memory: Option<string>, cpu: Option<string>)

  function DemandOf(nodeType: string, slot: string, mdas: Option<seq<string>>): Demand {
    if nodeType == SRSIM then Demand(Some("4Gi"), None)
    else if nodeType == VSIM then
      if IsCPM(slot) then Demand(Some("4Gi"), Some("2")) else Demand(Some("4Gi"), Some("2"))
    else if nodeType == VSRI then Demand(Some("6Gi"), Some("2"))
    else if nodeType == MAGC then
      if IsCPM(slot) then Demand(Some("16Gi"), Some("2"))
      else if mdas.None? || mdas.value == [] then Demand(None, None)
      else if mdas.value[0] == "iom-v-mg" then Demand(Some("32Gi"), Some("8"))
      else Demand(Some("8Gi"), Some("4"))
    else Demand(None, None)
  }

  function SetDefault<T>(given: Option<T>, default: Option<T>): Option<T> { if given.Some? then given else default }

  /** The fields of a card that defaulting may write. */
  datatype Fields = Fields(sysInfo: Option<string>, reqMemory: Option<string>, reqCpu: Option<string>, listenPorts: Option<seq<Port>>)

  /** Nothing is left for FillDefaultVal to set. */
  predicate IsFilled(f: Fields, nodeType: string, slot: string, mdas: Option<seq<string>>) {
    && f.sysInfo.Some?
    && (DemandOf(nodeType, slot, mdas).memory.Some? ==> f.reqMemory.Some?)
    && (DemandOf(nodeType, slot, mdas).cpu.Some? ==> f.reqCpu.Some?)
    && (nodeType != SRSIM ==> f.listenPorts.Some?)
  }

  class Card {
    const model: Option<string>
    const mdas: Option<seq<string>>
    const xioms: map<string, Xiom>
    var sysInfo: Option<string>
    var reqMemory: Option<string>
    var reqCpu: Option<string>
    var listenPorts: Option<seq<Port>>

    constructor (model: Option<string>, mdas: Option<seq<string>>, xioms: map<string, Xiom>)
      ensures this.model == model && this.mdas == mdas && this.xioms == xioms
      ensures sysInfo.None? && reqMemory.None? && reqCpu.None? && listenPorts.None?
    {
      this.model, this.mdas, this.xioms := model, mdas, xioms;
      sysInfo, reqMemory, reqCpu, listenPorts := None, None, None, None;
    }

    function Now(): Fields
      reads this
    {
      Fields(sysInfo, reqMemory, reqCpu, listenPorts)
    }

    /** SRCard.Validate. */
    predicate Acceptable() { model.Some? && !(xioms != map[] && mdas.Some? && mdas.value != []) }

    /** FillDefaultVal dereferences the nil MDA list of a MAG-c line card. */
    predicate Derails(nodeType: string, slot: string) { nodeType == MAGC && !IsCPM(slot) && mdas.None? }

    predicate Filled(nodeType: string, slot: string)
      reads this
    {
      IsFilled(Now(), nodeType, slot, mdas)
    }

    /** SRCard.FillDefaultVal; not ok is a panic. */
    method FillDefaultVal(nodeType: string, slot: string) returns (ok: bool)
      modifies this`reqMemory, this`reqCpu, this`listenPorts
      ensures ok <==> !Derails(nodeType, slot)
      ensures !ok ==> reqMemory == old(reqMemory) && reqCpu == old(reqCpu) && listenPorts == old(listenPorts)
      ensures ok ==>
                && reqMemory == SetDefault(old(reqMemory), DemandOf(nodeType, slot, mdas).memory)
                && reqCpu == SetDefault(old(reqCpu), DemandOf(nodeType, slot, mdas).cpu)
                && listenPorts == SetDefault(old(listenPorts),
                                             if nodeType == SRSIM then None else Some(if IsCPM(slot) then CpmPorts else IomPorts))
    {
      if nodeType == SRSIM {
        reqMemory := SetDefault(reqMemory, Some("4Gi"));
      } else if nodeType == VSIM {
        if IsCPM(slot) {
          reqMemory := SetDefault(reqMemory, Some("4Gi"));
          reqCpu := SetDefault(reqCpu, Some("2"));
        } else {
          reqMemory := SetDefault(reqMemory, Some("4Gi"));
          reqCpu := SetDefault(reqCpu, Some("2"));
        }
      } else if nodeType == VSRI {
        reqMemory := SetDefault(reqMemory, Some("6Gi"));
        reqCpu := SetDefault(reqCpu, Some("2"));
      } else if nodeType == MAGC {
        if IsCPM(slot) {
          reqMemory := SetDefault(reqMemory, Some("16Gi"));
          reqCpu := SetDefault(reqCpu, Some("2"));
        } else {
          if mdas.None? {
            return false;
          }
          if |mdas.value| > 0 {
            if mdas.value[0] == "iom-v-mg" {
              reqMemory := SetDefault(reqMemory, Some("32Gi"));
              reqCpu := SetDefault(reqCpu, Some("8"));
            } else {
              reqMemory := SetDefault(reqMemory, Some("8Gi"));
              reqCpu := SetDefault(reqCpu, Some("4"));
            }
          }
        }
      }
      if nodeType != SRSIM {
        if IsCPM(slot) {
          listenPorts := SetDefault(listenPorts, Some(CpmPorts));
        } else {
          listenPorts := SetDefault(listenPorts, Some(IomPorts));
        }
      }
      ok := true;
    }
  }

  /** SRChassis: a value, as every node has its own; the cards in it are shared objects. */
  datatype Chassis = Chassis(
    nodeType: Option<string>, model: Option<string>, cards: Option<map<string, Card>>,
    sfm: Option<string>, mac: Option<string>)

  const NoChassis := Chassis(None, None, None, None, None)

  function Slots(ch: Chassis): map<string, Card> { if ch.cards.Some? then ch.cards.value else map[] }

  /** SRChassis.Validate. */
  predicate Valid(ch: Chassis) {
    && ch.model.Some? && ch.nodeType.Some?
    && (forall slot | slot in Slots(ch) :: Slots(ch)[slot].Acceptable())
    && "A" in Slots(ch)
  }

  // ---- filling the cards ----

  /** The sysinfo of a card, with the text its XIOMs contribute. */
  function SysinfoWith(ch: Chassis, slot: string, xioms: string): string
    requires Valid(ch) && slot in Slots(ch)
  {
    var card := Slots(ch)[slot];
    DefaultSysinfo(ch.nodeType.value, ch.model.value, ch.sfm, slot, card.model.value, card.mdas, xioms)
  }

  /** s is a sysinfo GetDefaultSysinfoStr may return: what XIOMs contribute is not determined. */
  ghost predicate IsDefaultSysinfo(ch: Chassis, slot: string, s: string)
    requires Valid(ch) && slot in Slots(ch)
  {
    exists xioms :: (Slots(ch)[slot].xioms == map[] ==> xioms == "") && s == SysinfoWith(ch, slot, xioms)
  }

  predicate AllFilled(ch: Chassis)
    reads Slots(ch).Values
  {
    Valid(ch) ==> forall slot | slot in Slots(ch) :: Slots(ch)[slot].Filled(ch.nodeType.value, slot)
  }

  /** SRVM.FillDefaultVal panics. */
  predicate FillPanics(ch: Chassis) {
    Valid(ch) && exists slot :: slot in Slots(ch) && Slots(ch)[slot].Derails(ch.nodeType.value, slot)
  }

  // ---- what a card's fields may become ----

  predicate In(ch: Chassis, slot: string, c: Card) { slot in Slots(ch) && Slots(ch)[slot] == c }

  ghost predicate SysinfoFor(ch: Chassis, c: Card, s: Option<string>)
    requires Valid(ch)
  {
    exists slot :: In(ch, slot, c) && s.Some? && IsDefaultSysinfo(ch, slot, s.value)
  }

  predicate MemoryFor(ch: Chassis, c: Card, q: Option<string>)
    requires Valid(ch)
  {
    exists slot :: slot in Slots(ch) && In(ch, slot, c) && q.Some? && q == DemandOf(ch.nodeType.value, slot, c.mdas).memory
  }

  predicate CpuFor(ch: Chassis, c: Card, q: Option<string>)
    requires Valid(ch)
  {
    exists slot :: slot in Slots(ch) && In(ch, slot, c) && q.Some? && q == DemandOf(ch.nodeType.value, slot, c.mdas).cpu
  }

  predicate PortsFor(ch: Chassis, c: Card, ports: Option<seq<Port>>)
    requires Valid(ch)
  {
    exists slot :: slot in Slots(ch) && In(ch, slot, c) && ch.nodeType != Some(SRSIM)
                   && ports == Some(if IsCPM(slot) then CpmPorts else IomPorts)
  }

  predicate Became<T(==)>(before: Option<T>, after: Option<T>, allowed: bool) {
    after == before || (before.None? && allowed)
  }

  /** Every field is what it was or, if that was nothing, the default for a slot the card is in. */
  ghost predicate Justified(ch: Chassis, c: Card, before: Fields, after: Fields) {
    if Valid(ch) then
      && Became(before.sysInfo, after.sysInfo, SysinfoFor(ch, c, after.sysInfo))
      && Became(before.reqMemory, after.reqMemory, MemoryFor(ch, c, after.reqMemory))
      && Became(before.reqCpu, after.reqCpu, CpuFor(ch, c, after.reqCpu))
      && Became(before.listenPorts, after.listenPorts, PortsFor(ch, c, after.listenPorts))
    else after == before
  }

  predicate Kept<T(==)>(before: Option<T>, after: Option<T>) { before.Some? ==> after == before }

  /** A field once set is never changed. */
  predicate WrittenOnce(before: Fields, after: Fields) {
    && Kept(before.sysInfo, after.sysInfo) && Kept(before.reqMemory, after.reqMemory)
    && Kept(before.reqCpu, after.reqCpu) && Kept(before.listenPorts, after.listenPorts)
  }

  lemma JustifiedThen(ch: Chassis, c: Card, a: Fields, b: Fields, d: Fields)
    requires Justified(ch, c, a, b) && Justified(ch, c, b, d)
    ensures Justified(ch, c, a, d)
  {
  }

  lemma JustifiedIsWrittenOnce(ch: Chassis, c: Card, before: Fields, after: Fields)
    requires Justified(ch, c, before, after)
    ensures WrittenOnce(before, after)
  {
  }

  lemma FilledStays(before: Fields, after: Fields, nodeType: string, slot: string, mdas: Option<seq<string>>)
    requires WrittenOnce(before, after) && IsFilled(before, nodeType, slot, mdas)
    ensures IsFilled(after, nodeType, slot, mdas)
  {
  }

  lemma IsDefault(ch: Chassis, slot: string, xioms: string)
    requires Valid(ch) && slot in Slots(ch) && (Slots(ch)[slot].xioms == map[] ==> xioms == "")
    ensures IsDefaultSysinfo(ch, slot, SysinfoWith(ch, slot, xioms))
  {
  }

  lemma CardJustified(ch: Chassis, slot: string, before: Fields, after: Fields, text: string)
    requires Valid(ch) && slot in Slots(ch) && IsDefaultSysinfo(ch, slot, text)
    requires var c := Slots(ch)[slot];
             var demand := DemandOf(ch.nodeType.value, slot, c.mdas);
             && after.sysInfo == SetDefault(before.sysInfo, Some(text))
             && (after.reqMemory == before.reqMemory || after.reqMemory == SetDefault(before.reqMemory, demand.memory))
             && (after.reqCpu == before.reqCpu || after.reqCpu == SetDefault(before.reqCpu, demand.cpu))
             && (after.listenPorts == before.listenPorts
                 || after.listenPorts == SetDefault(before.listenPorts,
                      if ch.nodeType.value == SRSIM then None else Some(if IsCPM(slot) then CpmPorts else IomPorts)))
    ensures Justified(ch, Slots(ch)[slot], before, after)
  {
    assert In(ch, slot, Slots(ch)[slot]);
  }

  /** One card of SRVM.FillDefaultVal. */
  method FillCard(ch: Chassis, slot: string) returns (ok: bool)
    requires Valid(ch) && slot in Slots(ch)
    modifies Slots(ch)[slot]
    ensures ok <==> !Slots(ch)[slot].Derails(ch.nodeType.value, slot)
    ensures ok ==> Slots(ch)[slot].Filled(ch.nodeType.value, slot)
    ensures Justified(ch, Slots(ch)[slot], old(Slots(ch)[slot].Now()), Slots(ch)[slot].Now())
  {
    var card := Slots(ch)[slot];
    ghost var before := card.Now();
    var xioms: string := *;
    if card.xioms == map[] {
      xioms := "";
    }
    var text := GetDefaultSysinfoStr(ch.nodeType.value, ch.model.value, ch.sfm, slot, card.model.value, card.mdas, xioms);
    IsDefault(ch, slot, xioms);
    card.sysInfo := SetDefault(card.sysInfo, Some(text));
    ok := card.FillDefaultVal(ch.nodeType.value, slot);
    CardJustified(ch, slot, before, card.Now(), text);
  }

  predicate Done(ch: Chassis, slot: string)
    requires Valid(ch) && slot in Slots(ch)
    reads Slots(ch)[slot]
  {
    Slots(ch)[slot].Filled(ch.nodeType.value, slot) && !Slots(ch)[slot].Derails(ch.nodeType.value, slot)
  }

  ghost predicate AllJustified(ch: Chassis, start: map<Card, Fields>)
    requires start.Keys == Slots(ch).Values
    reads Slots(ch).Values
  {
    forall c | c in Slots(ch).Values :: Justified(ch, c, start[c], c.Now())
  }

  /** One turn of the loop below: what was justified and done so far remains so. */
  method FillNext(ch: Chassis, slot: string, ghost start: map<Card, Fields>) returns (ok: bool)
    requires Valid(ch) && slot in Slots(ch) && start.Keys == Slots(ch).Values && AllJustified(ch, start)
    modifies Slots(ch)[slot]
    ensures AllJustified(ch, start)
    ensures ok <==> !Slots(ch)[slot].Derails(ch.nodeType.value, slot)
    ensures ok ==> Done(ch, slot)
    ensures forall s | s in Slots(ch) && old(Done(ch, s)) :: Done(ch, s)
  {
    ghost var card, mid := Slots(ch)[slot], Slots(ch)[slot].Now();
    ok := FillCard(ch, slot);
    JustifiedThen(ch, card, start[card], mid, card.Now());
    JustifiedIsWrittenOnce(ch, card, mid, card.Now());
    forall s | s in Slots(ch) && old(Done(ch, s))
      ensures Done(ch, s)
    {
      if Slots(ch)[s] == card {
        FilledStays(mid, card.Now(), ch.nodeType.value, s, card.mdas);
      }
    }
  }

  method FillEachCard(ch: Chassis, ghost start: map<Card, Fields>) returns (ok: bool)
    requires Valid(ch) && start.Keys == Slots(ch).Values && AllJustified(ch, start)
    modifies Slots(ch).Values
    ensures AllJustified(ch, start)
    ensures ok ==> forall slot | slot in Slots(ch) :: Done(ch, slot)
    ensures !ok ==> exists slot :: slot in Slots(ch) && Slots(ch)[slot].Derails(ch.nodeType.value, slot)
  {
    var todo := Slots(ch).Keys;
    while todo != {}
      invariant todo <= Slots(ch).Keys && AllJustified(ch, start)
      invariant forall slot | slot in Slots(ch) && slot !in todo :: Done(ch, slot)
      decreases todo
    {
      var slot :| slot in todo;
      ok := FillNext(ch, slot, start);
      if !ok {
        return;
      }
      todo := todo - {slot};
    }
    ok := true;
  }

  /** SRVM.FillDefaultVal, in whatever order the map yields the cards; not ok is a panic. */
  method FillCards(ch: Chassis) returns (ok: bool)
    modifies Slots(ch).Values
    ensures ok <==> !FillPanics(ch)
    ensures ok ==> AllFilled(ch)
    ensures forall c | c in Slots(ch).Values :: Justified(ch, c, old(c.Now()), c.Now())
  {
    if !Valid(ch) {
      return true;
    }
    ghost var start := map c | c in Slots(ch).Values :: c.Now();
    ok := FillEachCard(ch, start);
    assert forall c | c in Slots(ch).Values :: start[c] == old(c.Now());
  }
}
