/** The cards a router has when neither the user nor the configuration lists any, and what filling in defaults gives the same
    cards when only their models and MDAs are listed. */
module DefaultCards {
  import opened Wrappers
  import opened Names
  import opened Chassis

  datatype CardSpec = CardSpec(
    model: string, mdas: Option<seq<string>>, memory: string, cpu: Option<string>, ports: Option<seq<Port>>)

  /** DefaultSIMChassis, DefaultVSRIChassis and DefaultMAGCChassis: the cards by slot. */
  function CardsOf(kind: string): map<string, CardSpec> {
    if kind == "vsim" then
      map["A" := CardSpec("cpm5", None, "4Gi", Some("2"), Some(ControlPorts)),
          "1" := CardSpec("iom4-e", Some(["me10-10gb-sfp+", "me-isa2-ms"]), "4Gi", Some("2"), Some(LinePorts))]
    else if kind == "srsim" then
      map["A" := CardSpec("cpm5", None, "4Gi", None, None),
          "1" := CardSpec("iom4-e", Some(["me10-10gb-sfp+", "me-isa2-ms"]), "4Gi", None, None)]
    else if kind == "vsri" then
      map["A" := CardSpec("cpm-v", Some(["m20-v", "isa-tunnel-v"]), "6Gi", Some("2"), Some(ControlPorts))]
    else if kind == "magc" then
      map["A" := CardSpec("cpm-v", None, "16Gi", Some("2"), Some(ControlPorts)),
          "1" := CardSpec("iom-v", Some(["m20-v"]), "8Gi", Some("4"), Some(LinePorts)),
          "2" := CardSpec("iom-v-mg", Some(["isa-ms-v"]), "32Gi", Some("8"), Some(LinePorts))]
    else map[]
  }

  const ControlPorts: seq<Port> :=
    [Port("ssh", "TCP", 22), Port("netconf", "TCP", 830), Port("gnmi", "TCP", 57400), Port("radiuscoa", "UDP", 3799)]

  const LinePorts: seq<Port> := [Port("dummy", "TCP", 1)]

  function PortsOf(kind: string, slot: string): Option<seq<Port>> {
    if kind == SRSIM then None else Some(if IsCPM(slot) then CpmPorts else IomPorts)
  }

  lemma SlotsOfCards(kind: string, slot: string)
    requires slot in CardsOf(kind)
    ensures slot in {"A", "1", "2"} && (IsCPM(slot) <==> slot == "A")
  {
    CpmSlots(slot);
  }

  /** The memory and CPU filled in for a card are those the default chassis gives the same card, with exactly one exception: for
      card "2" of a MAG-c filling in looks for "iom-v-mg" among the MDAs, while it is the card's model. */
  lemma DemandAgreesIff(kind: string, slot: string)
    requires slot in CardsOf(kind)
    ensures var card := CardsOf(kind)[slot];
            DemandOf(kind, slot, card.mdas) == Demand(Some(card.memory), card.cpu) <==> !(kind == "magc" && slot == "2")
  {
    SlotsOfCards(kind, slot);
    if kind == "magc" && slot == "2" {
      assert CardsOf(kind)[slot].mdas.value[0] == "isa-ms-v";
      assert "isa-ms-v"[1] != "iom-v-mg"[1];
    }
  }

  /** The exception gets the resources of a load balancer. */
  lemma GatewayGetsLess()
    ensures DemandOf("magc", "2", CardsOf("magc")["2"].mdas) == Demand(Some("8Gi"), Some("4"))
    ensures DemandOf("magc", "2", Some(["iom-v-mg"])) == Demand(Some("32Gi"), Some("8"))
  {
    SlotsOfCards("magc", "2");
    assert "isa-ms-v"[1] != "iom-v-mg"[1];
  }

  /** The ports filled in agree for every card. */
  lemma PortsAgree(kind: string, slot: string)
    requires slot in CardsOf(kind)
    ensures PortsOf(kind, slot) == CardsOf(kind)[slot].ports
  {
    SlotsOfCards(kind, slot);
  }
}
