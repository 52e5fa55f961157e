/** A node's system as a schema-typed tree: the merge of a lab's node with the configuration is the generic one, so the
    merge laws hold of it. */
module SystemTrees {
  import opened Wrappers
  import opened Chassis
  import opened LabSpec
  import opened Merge

  datatype Value = Text(text: string) | Cards(cards: map<string, Card>)

  function TextLeaf(s: Option<string>): Field<Value> { Leaf(if s.Some? then Some(Text(s.value)) else None) }

  function ChassisTree(ch: Chassis): seq<Field<Value>> {
    [TextLeaf(ch.nodeType), TextLeaf(ch.model), Leaf(if ch.cards.Some? then Some(Cards(ch.cards.value)) else None),
     TextLeaf(ch.sfm), TextLeaf(ch.mac)]
  }

  const ChassisTypes := [LeafType, LeafType, LeafType, LeafType, LeafType]

  function LeafOf(sys: System, name: string): Field<Value> {
    TextLeaf(if name in sys.leaves then Some(sys.leaves[name]) else None)
  }

  /** The chassis pointer, then the fields `names`. */
  function SystemTree(sys: System, names: seq<string>): seq<Field<Value>> {
    [Struct(if sys.chassis.Some? then Some(ChassisTree(sys.chassis.value)) else None)]
    + seq(|names|, i requires 0 <= i < |names| => LeafOf(sys, names[i]))
  }

  function SystemTypes(names: seq<string>): seq<Type> { [StructType(ChassisTypes)] + seq(|names|, _ => LeafType) }

  lemma ChassisFits(ch: Chassis)
    ensures AllFit(ChassisTree(ch), ChassisTypes)
  {
  }

  lemma SystemFits(sys: System, names: seq<string>)
    ensures AllFit(SystemTree(sys, names), SystemTypes(names))
  {
    if sys.chassis.Some? {
      ChassisFits(sys.chassis.value);
    }
  }

  lemma FillChassisIsFill(dst: Chassis, src: Chassis)
    ensures AllFit(ChassisTree(dst), ChassisTypes) && AllFit(ChassisTree(src), ChassisTypes)
    ensures ChassisTree(FillChassis(dst, src)) == Fill(ChassisTree(dst), ChassisTree(src), ChassisTypes)
  {
    ChassisFits(dst);
    ChassisFits(src);
    var a, b := ChassisTree(FillChassis(dst, src)), Fill(ChassisTree(dst), ChassisTree(src), ChassisTypes);
    assert |a| == 5 && |b| == 5;
    forall i | 0 <= i < 5
      ensures a[i] == b[i]
    {
      assert b[i] == FillField(ChassisTree(dst)[i], ChassisTree(src)[i], ChassisTypes[i]);
    }
  }

  lemma NoChassisIsZero()
    ensures ChassisTree(NoChassis) == Zero<Value>(ChassisTypes)
  {
  }

  lemma FillChassisField(dst: System, src: System, names: seq<string>)
    ensures Fits(SystemTree(dst, names)[0], StructType(ChassisTypes)) && Fits(SystemTree(src, names)[0], StructType(ChassisTypes))
    ensures SystemTree(FillSystem(dst, src), names)[0] ==
            FillField(SystemTree(dst, names)[0], SystemTree(src, names)[0], StructType(ChassisTypes))
  {
    NoChassisIsZero();
    if dst.chassis.Some? {
      ChassisFits(dst.chassis.value);
    }
    if src.chassis.Some? {
      ChassisFits(src.chassis.value);
      FillChassisIsFill(if dst.chassis.Some? then dst.chassis.value else NoChassis, src.chassis.value);
    }
  }

  /** LoadDef's merge of a node with the configuration is the generic merge of their trees. */
  lemma FillSystemIsFill(dst: System, src: System, names: seq<string>)
    ensures AllFit(SystemTree(dst, names), SystemTypes(names)) && AllFit(SystemTree(src, names), SystemTypes(names))
    ensures SystemTree(FillSystem(dst, src), names) == Fill(SystemTree(dst, names), SystemTree(src, names), SystemTypes(names))
  {
    SystemFits(dst, names);
    SystemFits(src, names);
    FillChassisField(dst, src, names);
    var a, b := SystemTree(FillSystem(dst, src), names), Fill(SystemTree(dst, names), SystemTree(src, names), SystemTypes(names));
    forall i | 0 <= i < |names| + 1
      ensures a[i] == b[i]
    {
      assert b[i] == FillField(SystemTree(dst, names)[i], SystemTree(src, names)[i], SystemTypes(names)[i]);
      if i > 0 {
        assert a[i] == LeafOf(FillSystem(dst, src), names[i - 1]);
      }
    }
  }
}
