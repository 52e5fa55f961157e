/** Validation of a lab: LabSpec.Validate and what it calls. The checks that parse text with a library are parameters. */
module Validation {
  import opened Wrappers
  import opened Text
  import opened Names
  import opened Chassis
  import opened Cluster
  import opened LabSpec

  /** What libraries accept: image references, SR-SIM ports, shell commands, SR Linux chassis types, MAC addresses. */
  datatype Library = Library(
    image: string -> bool, port: string -> bool, command: string -> bool, srlChassis: string -> bool, mac: string -> bool)

  // ---- nodes ----

  function Specified(kinds: seq<string>, one: OneOf): nat {
    if kinds == [] then 0 else Specified(kinds[..|kinds| - 1], one) + if kinds[|kinds| - 1] in one then 1 else 0
  }

  /** OneOfSystem.validate, which counts the systems given. */
  method ValidateOne(one: OneOf) returns (ok: bool)
    ensures ok <==> Specified(Kinds, one) == 1
  {
    var number := 0;
    for i := 0 to |Kinds|
      invariant number == Specified(Kinds[..i], one) <= 1
    {
      assert Kinds[..i + 1][..i] == Kinds[..i];
      if Kinds[i] in one {
        number := number + 1;
        if number > 1 {
          SpecifiedGrows(Kinds, one, i + 1);
          return false;
        }
      }
    }
    assert Kinds[..|Kinds|] == Kinds;
    ok := number != 0;
  }

  lemma {:induction false} SpecifiedGrows(kinds: seq<string>, one: OneOf, i: nat)
    requires i <= |kinds|
    ensures Specified(kinds[..i], one) <= Specified(kinds, one)
  {
    if i < |kinds| {
      var n := |kinds| - 1;
      assert kinds[..n][..i] == kinds[..i];
      SpecifiedGrows(kinds[..n], one, i);
    } else {
      assert kinds[..i] == kinds;
    }
  }

  function SystemsGiven(kinds: seq<string>, one: OneOf): set<string> { set k | k in kinds && k in one }

  lemma OneKindMore(kinds: seq<string>, kind: string, one: OneOf)
    ensures SystemsGiven(kinds + [kind], one) == SystemsGiven(kinds, one) + if kind in one then {kind} else {}
  {
  }

  /** The count is the number of different systems given. */
  lemma {:induction false} SpecifiedCounts(kinds: seq<string>, one: OneOf)
    requires forall i, j | 0 <= i < j < |kinds| :: kinds[i] != kinds[j]
    ensures Specified(kinds, one) == |SystemsGiven(kinds, one)|
  {
    if kinds != [] {
      var n := |kinds| - 1;
      SpecifiedCounts(kinds[..n], one);
      OneKindMore(kinds[..n], kinds[n], one);
      assert kinds == kinds[..n] + [kinds[n]] && kinds[n] !in SystemsGiven(kinds[..n], one);
    }
  }

  /** The port check of SRVM.Validate for one node: every port given for it is a slot of its chassis. */
  ghost predicate PortsAreSlots(ch: Chassis, name: string, links: map<string, seq<Connector>>) {
    forall l, i | l in links && 0 <= i < |links[l]| && links[l][i].node == name && links[l][i].port.Some? ::
      links[l][i].port.value in Slots(ch)
  }

  method ValidatePorts(ch: Chassis, name: string, links: map<string, seq<Connector>>) returns (ok: bool)
    ensures ok <==> PortsAreSlots(ch, name, links)
  {
    var todo := links.Keys;
    while todo != {}
      invariant todo <= links.Keys
      invariant forall l, i | l in links && l !in todo && 0 <= i < |links[l]| && links[l][i].node == name && links[l][i].port.Some? ::
                  links[l][i].port.value in Slots(ch)
      decreases todo
    {
      var l :| l in todo;
      for i := 0 to |links[l]|
        invariant forall j | 0 <= j < i && links[l][j].node == name && links[l][j].port.Some? :: links[l][j].port.value in Slots(ch)
      {
        var c := links[l][i];
        if c.port.Some? && c.node == name {
          if c.port.value !in Slots(ch) {
            return false;
          }
        }
      }
      todo := todo - {l};
    }
    return true;
  }

  ghost predicate PortsMatch(name: string, links: map<string, seq<Connector>>, lib: Library) {
    forall l, i | l in links && 0 <= i < |links[l]| && links[l][i].node == name && links[l][i].port.Some? ::
      lib.port(links[l][i].port.value)
  }

  predicate Given(sys: System, names: set<string>) { names <= sys.leaves.Keys }

  const FileServer := "filesvr:"

  /** Validate of a node's system. */
  ghost predicate SystemValid(kind: string, sys: System, name: string, links: map<string, seq<Connector>>, lib: Library) {
    if IsSRVM(kind) then
      && sys.chassis.Some? && Given(sys, {"Image", "License", "Dedicate"})
      && (HasPrefix(sys.leaves["Image"], FileServer) || lib.image(sys.leaves["Image"]))
      && PortsAreSlots(sys.chassis.value, name, links) && Valid(sys.chassis.value)
    else if kind == SRSIM then
      && sys.chassis.Some? && Given(sys, {"Image", "LicSecret"}) && PortsMatch(name, links, lib) && Valid(sys.chassis.value)
    else if kind == VM then Given(sys, {"Image", "DiskSize", "ReqCPU", "ReqMemory"})
    else if kind == POD then
      Given(sys, {"Image", "PvcSize"}) && ("Command" in sys.leaves ==> lib.command(sys.leaves["Command"]))
    else Given(sys, {"Image", "Chassis"}) && lib.srlChassis(sys.leaves["Chassis"])
  }

  ghost predicate NodeValid(name: string, one: OneOf, links: map<string, seq<Connector>>, lib: Library) {
    && Specified(Kinds, one) == 1
    && GetSystem(one).Some? && SystemValid(GetSystem(one).value, one[GetSystem(one).value], name, links, lib)
  }

  // ---- links ----

  /** Link.Validate, apart from the connectors' prefixes and routes. */
  predicate LinkValid(cs: seq<Connector>, lib: Library) {
    && |cs| >= 2
    && forall i | 0 <= i < |cs| :: cs[i].node != "" && (cs[i].mac.Some? ==> lib.mac(cs[i].mac.value))
  }

  /** LabSpec.Validate. */
  ghost predicate SpecValid(nodes: Nodes, links: map<string, seq<Connector>>, lib: Library) {
    && nodes != map[]
    && (forall n | n in nodes :: NodeValid(n, nodes[n], links, lib))
    && (forall l | l in links :: LinkValid(links[l], lib))
  }

  /** A valid router node has a chassis that names a model, and its ports are slots of it. */
  lemma ValidRouter(nodes: Nodes, links: map<string, seq<Connector>>, lib: Library, name: string)
    requires SpecValid(nodes, links, lib) && name in nodes && GetSystem(nodes[name]).Some? && IsSRVM(GetSystem(nodes[name]).value)
    ensures var ch := nodes[name][GetSystem(nodes[name]).value].chassis;
            ch.Some? && Valid(ch.value) && PortsAreSlots(ch.value, name, links)
  {
    assert NodeValid(name, nodes[name], links, lib);
  }

  /** A valid router is complete: image, licence and dedication are given, slot "A" is filled, and every card has a model, and
      XIOMs or MDAs but not both. */
  lemma ValidRouterIsComplete(nodes: Nodes, links: map<string, seq<Connector>>, lib: Library, name: string, slot: string)
    requires SpecValid(nodes, links, lib) && name in nodes && GetSystem(nodes[name]).Some?
    requires GetSystem(nodes[name]).value in {"vsim", "vsri", "magc"}
    ensures var sys := nodes[name][GetSystem(nodes[name]).value];
            && "Image" in sys.leaves && "License" in sys.leaves && "Dedicate" in sys.leaves
            && sys.chassis.Some? && sys.chassis.value.model.Some? && sys.chassis.value.cards.Some?
            && var cards := sys.chassis.value.cards.value;
               && "A" in cards
               && (slot in cards ==> cards[slot].model.Some?
                                     && (cards[slot].xioms == map[] || cards[slot].mdas.None? || cards[slot].mdas.value == []))
  {
    ValidRouter(nodes, links, lib, name);
    assert NodeValid(name, nodes[name], links, lib);
  }

  /** What the other kinds must have. */
  lemma ValidNodeIsComplete(nodes: Nodes, links: map<string, seq<Connector>>, lib: Library, name: string)
    requires SpecValid(nodes, links, lib) && name in nodes
    ensures GetSystem(nodes[name]).Some?
    ensures var k := GetSystem(nodes[name]).value;
            var leaves := nodes[name][k].leaves;
            && "Image" in leaves
            && (k == "vm" ==> "DiskSize" in leaves && "ReqCPU" in leaves && "ReqMemory" in leaves)
            && (k == "pod" ==> "PvcSize" in leaves)
            && (k == "srl" ==> "Chassis" in leaves)
            && (k == "srsim" ==> "LicSecret" in leaves && nodes[name][k].chassis.Some?)
  {
    assert NodeValid(name, nodes[name], links, lib);
  }

  /** Every link of a valid lab joins at least two connectors, each of a named node. */
  lemma ValidLink(nodes: Nodes, links: map<string, seq<Connector>>, lib: Library, l: string)
    requires SpecValid(nodes, links, lib) && l in links
    ensures |links[l]| > 1 && forall i | 0 <= i < |links[l]| :: links[l][i].node != ""
  {
    assert LinkValid(links[l], lib);
  }

  /** A small lab that is valid: a pod and a vm, joined by a link; and the same with one end of the link missing, which is not. */
  lemma SmallLab(lib: Library, v: string)
    ensures var pod, vm := System(None, map["Image" := v, "PvcSize" := v]),
                           System(None, map["Image" := v, "DiskSize" := v, "ReqCPU" := v, "ReqMemory" := v]);
            var nodes := map["pod-1" := map["pod" := pod], "vm-1" := map["vm" := vm]];
            && SpecValid(nodes, map["l" := [Connector("pod-1", None, None), Connector("vm-1", None, None)]], lib)
            && !SpecValid(nodes, map["l" := [Connector("pod-1", None, None)]], lib)
  {
    var pod, vm := System(None, map["Image" := v, "PvcSize" := v]),
                   System(None, map["Image" := v, "DiskSize" := v, "ReqCPU" := v, "ReqMemory" := v]);
    var links := map["l" := [Connector("pod-1", None, None), Connector("vm-1", None, None)]];
    var nodes := map["pod-1" := map["pod" := pod], "vm-1" := map["vm" := vm]];
    assert "pod-1" in nodes;
    OneSystem("pod", pod);
    OneSystem("vm", vm);
    assert NodeValid("pod-1", map["pod" := pod], links, lib) && NodeValid("vm-1", map["vm" := vm], links, lib);
    assert LinkValid(links["l"], lib);
    var short := map["l" := [Connector("pod-1", None, None)]];
    assert "l" in short && !LinkValid(short["l"], lib);
  }

  lemma OneSystem(kind: string, sys: System)
    requires kind in Kinds
    ensures var one: OneOf := map[kind := sys]; Specified(Kinds, one) == 1 && GetSystem(one) == Some(kind)
  {
    var one: OneOf := map[kind := sys];
    SpecifiedCounts(Kinds, one);
    assert SystemsGiven(Kinds, one) == {kind};
    FirstOfFinds(Kinds, one, kind);
  }

  // ---- the loops ----

  method MatchPorts(name: string, links: map<string, seq<Connector>>, lib: Library) returns (ok: bool)
    ensures ok <==> PortsMatch(name, links, lib)
  {
    var todo := links.Keys;
    while todo != {}
      invariant todo <= links.Keys
      invariant forall l, i | l in links && l !in todo && 0 <= i < |links[l]| && links[l][i].node == name && links[l][i].port.Some? ::
                  lib.port(links[l][i].port.value)
      decreases todo
    {
      var l :| l in todo;
      for i := 0 to |links[l]|
        invariant forall j | 0 <= j < i && links[l][j].node == name && links[l][j].port.Some? :: lib.port(links[l][j].port.value)
      {
        var c := links[l][i];
        if c.node == name && c.port.Some? {
          if !lib.port(c.port.value) {
            return false;
          }
        }
      }
      todo := todo - {l};
    }
    return true;
  }

  /** SRVM.Validate. */
  method ValidateRouter(sys: System, name: string, links: map<string, seq<Connector>>, lib: Library) returns (ok: bool)
    ensures ok <==>
            && sys.chassis.Some? && Given(sys, {"Image", "License", "Dedicate"})
            && (HasPrefix(sys.leaves["Image"], FileServer) || lib.image(sys.leaves["Image"]))
            && PortsAreSlots(sys.chassis.value, name, links) && Valid(sys.chassis.value)
  {
    if sys.chassis.None? || "Image" !in sys.leaves {
      return false;
    }
    if !HasPrefix(sys.leaves["Image"], FileServer) && !lib.image(sys.leaves["Image"]) {
      return false;
    }
    if "License" !in sys.leaves || "Dedicate" !in sys.leaves {
      return false;
    }
    ok := ValidatePorts(sys.chassis.value, name, links);
    ok := ok && Valid(sys.chassis.value);
  }

  /** SRSim.Validate. */
  method ValidateSRSim(sys: System, name: string, links: map<string, seq<Connector>>, lib: Library) returns (ok: bool)
    ensures ok <==>
            sys.chassis.Some? && Given(sys, {"Image", "LicSecret"}) && PortsMatch(name, links, lib) && Valid(sys.chassis.value)
  {
    if "Image" !in sys.leaves || sys.chassis.None? || "LicSecret" !in sys.leaves {
      return false;
    }
    ok := MatchPorts(name, links, lib);
    ok := ok && Valid(sys.chassis.value);
  }

  /** Validate of a node's system, by kind. */
  method ValidateSystem(kind: string, sys: System, name: string, links: map<string, seq<Connector>>, lib: Library) returns (ok: bool)
    ensures ok <==> SystemValid(kind, sys, name, links, lib)
  {
    if IsSRVM(kind) {
      ok := ValidateRouter(sys, name, links, lib);
    } else if kind == SRSIM {
      ok := ValidateSRSim(sys, name, links, lib);
    } else if kind == VM {
      ok := "Image" in sys.leaves && "DiskSize" in sys.leaves && "ReqCPU" in sys.leaves && "ReqMemory" in sys.leaves;
    } else if kind == POD {
      ok := "Image" in sys.leaves && "PvcSize" in sys.leaves && ("Command" in sys.leaves ==> lib.command(sys.leaves["Command"]));
    } else {
      ok := "Image" in sys.leaves && "Chassis" in sys.leaves && lib.srlChassis(sys.leaves["Chassis"]);
    }
  }

  lemma {:induction false} SpecifiedHasFirst(kinds: seq<string>, one: OneOf)
    requires Specified(kinds, one) > 0
    ensures FirstOf(kinds, one).Some?
  {
    var n := |kinds| - 1;
    if kinds[n] in one {
      FirstOfFinds(kinds, one, kinds[n]);
    } else {
      SpecifiedHasFirst(kinds[..n], one);
      FirstOfFinds(kinds, one, FirstOf(kinds[..n], one).value);
    }
  }

  /** One node of LabSpec.Validate. */
  method ValidateNode(name: string, one: OneOf, links: map<string, seq<Connector>>, lib: Library) returns (ok: bool)
    ensures ok <==> NodeValid(name, one, links, lib)
  {
    ok := ValidateOne(one);
    if ok {
      SpecifiedHasFirst(Kinds, one);
      var kind := GetSystem(one).value;
      ok := ValidateSystem(kind, one[kind], name, links, lib);
    }
  }

  method ValidateLink(cs: seq<Connector>, lib: Library) returns (ok: bool)
    ensures ok <==> LinkValid(cs, lib)
  {
    if |cs| < 2 {
      return false;
    }
    for i := 0 to |cs|
      invariant forall j | 0 <= j < i :: cs[j].node != "" && (cs[j].mac.Some? ==> lib.mac(cs[j].mac.value))
    {
      if cs[i].node == "" || (cs[i].mac.Some? && !lib.mac(cs[i].mac.value)) {
        return false;
      }
    }
    return true;
  }

  /** LabSpec.Validate: nodes, then links, in whatever order the maps yield them. */
  method Validate(nodes: Nodes, links: map<string, seq<Connector>>, lib: Library) returns (ok: bool)
    ensures ok <==> SpecValid(nodes, links, lib)
  {
    if nodes == map[] {
      return false;
    }
    var todo := nodes.Keys;
    while todo != {}
      invariant todo <= nodes.Keys
      invariant forall n | n in nodes && n !in todo :: NodeValid(n, nodes[n], links, lib)
      decreases todo
    {
      var n :| n in todo;
      ok := ValidateNode(n, nodes[n], links, lib);
      if !ok {
        return;
      }
      todo := todo - {n};
    }
    todo := links.Keys;
    while todo != {}
      invariant todo <= links.Keys
      invariant forall l | l in links && l !in todo :: LinkValid(links[l], lib)
      decreases todo
    {
      var l :| l in todo;
      ok := ValidateLink(links[l], lib);
      if !ok {
        return;
      }
      todo := todo - {l};
    }
    ok := true;
  }
}
