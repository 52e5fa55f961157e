/** Names the operator derives: LANs, spokes, bridges, CPM nodes; and what it reads back from names. */
module Names {
  import opened Wrappers
  import opened Text

  const VSIM := "vsim"
  const VSRI := "vsri"
  const MAGC := "magc"
  const SRSIM := "srsim"
  const Unknown := "unknown"

  // ---- LANs and spokes ----

  /** Getk8lanName. */
  function LanName(lab: string, link: string): string { lab + "-" + link }

  /** getSpokeName: the interface name of one connector of a LAN. */
  function SpokeName(vni: nat, index: nat): string { "klan" + Itoa(vni) + "-" + Itoa(index) }

  /** A spoke name tells the VNI and the connector index, so names of different LANs never clash. */
  lemma SpokeNameInjective(v1: nat, i1: nat, v2: nat, i2: nat)
    requires SpokeName(v1, i1) == SpokeName(v2, i2)
    ensures v1 == v2 && i1 == i2
  {
    assert SpokeName(v1, i1)[4..] == Itoa(v1) + ['-'] + Itoa(i1);
    assert SpokeName(v2, i2)[4..] == Itoa(v2) + ['-'] + Itoa(i2);
    DigitPrefixSplit(Itoa(v1), Itoa(v2), '-', Itoa(i1), Itoa(i2));
    ItoaInjective(v1, v2);
    ItoaInjective(i1, i2);
  }

  /** Within one lab the LAN name tells the link. */
  lemma LanNameInjectiveInLab(lab: string, x: string, y: string)
    requires LanName(lab, x) == LanName(lab, y)
    ensures x == y
  {
    assert x == LanName(lab, x)[|lab| + 1..];
    assert y == LanName(lab, y)[|lab| + 1..];
  }

  /** Exactly when links of two labs are given the same LAN name: one lab's name continues the other's
      with "-middle", and the other's link name starts with "middle-". */
  lemma LanNameCollision(a: string, x: string, b: string, y: string)
    requires |a| < |b|
    ensures LanName(a, x) == LanName(b, y) <==>
            exists middle :: b == a + "-" + middle && x == middle + "-" + y
  {
    if LanName(a, x) == LanName(b, y) {
      var s, t := LanName(a, x), LanName(b, y);
      assert a == s[..|a|] && s[|a|] == '-' && x == s[|a| + 1..];
      assert b == t[..|b|] && t[|b|] == '-' && y == t[|b| + 1..];
      var middle := b[|a| + 1..];
      assert b == a + "-" + middle;
      assert x == middle + "-" + y;
    }
    forall middle | b == a + "-" + middle && x == middle + "-" + y
      ensures LanName(a, x) == LanName(b, y)
    {
      assert a + "-" + (middle + "-" + y) == a + "-" + middle + "-" + y;
    }
  }

  /** For instance lab "a" with link "b-c" and lab "a-b" with link "c". */
  lemma CollidingNames()
    ensures LanName("a", "b-c") == LanName("a-b", "c")
  {
    assert "a-b" == "a" + "-" + "b" && "b-c" == "b" + "-" + "c";
    LanNameCollision("a", "b-c", "a-b", "c");
  }

  // ---- router node names ----

  /** GetNodeTypeViaName: what stands before the first '-'. */
  function NodeTypeOf(name: string): string {
    var i := IndexOf(name, '-');
    if 0 < i < |name| then name[..i] else Unknown
  }

  predicate IsSRVM(nodeType: string) { nodeType == VSIM || nodeType == VSRI || nodeType == MAGC }

  predicate IsSRType(nodeType: string) { IsSRVM(nodeType) || nodeType == SRSIM }

  /** ParseSRVMName_New, with Unknown for its error. */
  function VmTypeOf(name: string): string {
    var parts := Split(TrimSpace(name), '-');
    if |parts| >= 2 && IsSRVM(parts[0]) then parts[0] else Unknown
  }

  /** ParseSRVMName: (type, id, card) of a name "type-id[-card...]"; None for its error. */
  function ParseSRVMName(name: string): Option<(string, int, string)> {
    var parts := Split(TrimSpace(name), '-');
    if |parts| < 2 then None
    else match Atoi(parts[1])
      case None => None
      case Some(id) =>
        if parts[0] == VSRI then Some((VSRI, id, "a"))
        else if parts[0] == VSIM || parts[0] == MAGC then
          if |parts| < 3 then None else Some((parts[0], id, parts[2]))
        else Some((parts[0], id, ""))
  }

  lemma FirstDash(t: string, rest: string)
    requires '-' !in t
    ensures IndexOf(t + "-" + rest, '-') == |t|
  {
    var s := t + "-" + rest;
    assert s[|t|] == '-' && forall j | 0 <= j < |t| :: s[j] == t[j] && t[j] != '-';
  }

  /** A name with a dash tells as the type what stands before the first one; another tells none. */
  lemma TypeIsBeforeDash(t: string, rest: string)
    requires '-' !in t
    ensures NodeTypeOf(t + "-" + rest) == if t == "" then "unknown" else t
    ensures NodeTypeOf(t) == "unknown"
  {
    FirstDash(t, rest);
    assert (t + "-" + rest)[..|t|] == t;
    forall j | 0 <= j < |t|
      ensures t[j] != '-'
    {
      assert t[j] in t;
    }
  }

  /** The three kinds of nodes that run as one virtual machine per card, and the four whose chassis is defaulted. */
  lemma RouterKinds(t: string)
    ensures IsSRVM(t) <==> t in {"vsim", "vsri", "magc"}
    ensures IsSRType(t) <==> t in {"vsim", "vsri", "magc", "srsim"}
  {
  }

  lemma {:induction false} SplitPartsLackSeparator(s: string, c: char)
    ensures forall p | p in Split(s, c) :: c !in p
    decreases |s|
  {
    var i := IndexOf(s, c);
    if i < |s| {
      SplitPartsLackSeparator(s[i + 1..], c);
    }
  }

  lemma UnsignedIsNonNegative(s: string)
    requires '-' !in s
    ensures Atoi(s).Some? ==> Atoi(s).value >= 0
  {
  }

  lemma ParsedIdIsNonNegative(name: string)
    ensures ParseSRVMName(name).Some? ==> 0 <= ParseSRVMName(name).value.1 <= MaxInt
  {
    SplitPartsLackSeparator(TrimSpace(name), '-');
    var parts := Split(TrimSpace(name), '-');
    if |parts| >= 2 {
      assert parts[1] in parts;
      UnsignedIsNonNegative(parts[1]);
    }
  }

  /** The name of the control card's node that belongs to a distributed router's node; None for other nodes. */
  function CpmName(name: string): Option<string> {
    match ParseSRVMName(name)
    case Some((t, id, _)) =>
      ParsedIdIsNonNegative(name);
      if t == VSIM || t == MAGC then Some(t + "-" + Itoa(id) + "-a") else None
    case None => None
  }

  lemma SplitCardName(t: string, digits: string, card: string)
    requires '-' !in t && '-' !in digits && '-' !in card
    ensures Split(t + "-" + digits + "-" + card, '-') == [t, digits, card]
  {
    var tail := digits + ['-'] + card;
    assert t + "-" + digits + "-" + card == t + ['-'] + tail;
    SplitHead(t, '-', tail);
    SplitHead(digits, '-', card);
    SplitNone(card, '-');
  }

  predicate IsCardName(card: string) { card != "" && '-' !in card && !IsSpace(card[|card| - 1]) }

  lemma CardNameParts(t: string, digits: string, card: string)
    requires (t == VSIM || t == MAGC) && '-' !in digits && IsCardName(card)
    ensures Split(TrimSpace(t + "-" + digits + "-" + card), '-') == [t, digits, card]
  {
    var name := t + "-" + digits + "-" + card;
    assert name[0] == t[0] && name[|name| - 1] == card[|card| - 1];
    TrimSpaceUnchanged(name);
    SplitCardName(t, digits, card);
  }

  lemma CardNameParses(t: string, id: nat, card: string)
    requires (t == VSIM || t == MAGC) && id <= MaxInt && IsCardName(card)
    ensures ParseSRVMName(t + "-" + Itoa(id) + "-" + card) == Some((t, id, card))
  {
    CardNameParts(t, Itoa(id), card);
    AtoiItoa(id);
  }

  /** The name printed for a control card parses back to its type and id. */
  lemma CpmNameParses(t: string, id: nat)
    requires t == VSIM || t == MAGC
    requires id <= MaxInt
    ensures ParseSRVMName(t + "-" + Itoa(id) + "-a") == Some((t, id, "a"))
  {
    assert t + "-" + Itoa(id) + "-a" == t + "-" + Itoa(id) + "-" + "a";
    CardNameParses(t, id, "a");
  }

  /** A control card's node is its own: printing the parsed id and parsing it again changes nothing. */
  lemma CpmNameIsFixed(name: string)
    requires CpmName(name).Some?
    ensures CpmName(CpmName(name).value) == CpmName(name)
  {
    ParsedIdIsNonNegative(name);
    var (t, id, _) := ParseSRVMName(name).value;
    CpmNameParses(t, id);
  }

  /** The control card's node of a router "type-id-card" is "type-id-a", for vsim and magc alone. */
  lemma ControlCardOf(t: string, id: nat, card: string)
    requires t in {"vsim", "magc"} && id <= MaxInt && IsCardName(card)
    ensures CpmName(t + "-" + Itoa(id) + "-" + card) == Some(t + "-" + Itoa(id) + "-a")
  {
    CardNameParses(t, id, card);
  }

  lemma OthersHaveNone(t: string, rest: string)
    requires '-' !in t && t != "" && !IsSpace(t[0]) && (rest != "" ==> !IsSpace(rest[|rest| - 1]))
    requires t !in {"vsim", "magc"}
    ensures CpmName(t + "-" + rest).None?
  {
    var name := t + "-" + rest;
    assert name == t + ['-'] + rest;
    assert name[0] == t[0] && name[|name| - 1] == if rest == "" then '-' else rest[|rest| - 1];
    TrimSpaceUnchanged(name);
    SplitHead(t, '-', rest);
    assert Split(TrimSpace(name), '-')[0] == t;
  }

  /** A router's name without a card, such as "vsim-1", has none either. */
  lemma PlainRouterHasNone(t: string, rest: string)
    requires t in {"vsim", "magc"} && '-' !in rest && rest != "" && !IsSpace(rest[|rest| - 1])
    ensures CpmName(t + "-" + rest).None?
  {
    var name := t + "-" + rest;
    assert name == t + ['-'] + rest;
    TrimSpaceUnchanged(name);
    SplitHead(t, '-', rest);
    SplitNone(rest, '-');
    assert |Split(TrimSpace(name), '-')| == 2;
  }

  // ---- bridges ----

  /** GetVSROSFBName: the fabric bridge of a distributed router. */
  function FabricName(lab: string, node: string): string { ToLower(lab + "-" + node + "-fb") }

  /** GetMAGCDFName: the data-fabric bridge of a MAG-c. */
  function DataFabricName(lab: string, node: string): string { "magc-" + lab + "-" + node + "-fb" }

  lemma Between(p: string, a: string, b: string, s: string)
    ensures p + a + s == p + b + s <==> a == b
  {
    if p + a + s == p + b + s {
      assert |a| == |b|;
      assert (p + a + s)[|p|..|p| + |a|] == a;
      assert (p + b + s)[|p|..|p| + |b|] == b;
    }
  }

  lemma LoweredFabric(lab: string, node: string)
    ensures FabricName(lab, node) == ToLower(lab + "-") + ToLower(node) + ToLower("-fb")
  {
    ToLowerConcat(lab + "-" + node, "-fb");
    ToLowerConcat(lab + "-", node);
  }

  /** Two routers of a lab share a fabric exactly when their names agree in lower case; data fabrics are never shared. */
  lemma SameFabricName(lab: string, a: string, b: string)
    ensures FabricName(lab, a) == FabricName(lab, b) <==> ToLower(a) == ToLower(b)
    ensures DataFabricName(lab, a) == DataFabricName(lab, b) <==> a == b
  {
    LoweredFabric(lab, a);
    LoweredFabric(lab, b);
    Between(ToLower(lab + "-"), ToLower(a), ToLower(b), ToLower("-fb"));
    Between("magc-" + lab + "-", a, b, "-fb");
  }

  // ---- a control card's node in capitals ----

  function UpperNode(t: string, id: nat): string { t + "-" + Itoa(id) + "-A" }

  function LowerNode(t: string, id: nat): string { t + "-" + Itoa(id) + "-a" }

  lemma UpperNodeParses(t: string, id: nat)
    requires (t == VSIM || t == MAGC) && id <= MaxInt
    ensures ParseSRVMName(UpperNode(t, id)) == Some((t, id, "A"))
  {
    assert UpperNode(t, id) == t + "-" + Itoa(id) + "-" + "A";
    CardNameParses(t, id, "A");
  }

  lemma UpperNodeLowers(t: string, id: nat)
    ensures ToLower(UpperNode(t, id)) == ToLower(LowerNode(t, id)) && UpperNode(t, id) != LowerNode(t, id)
  {
    var head := t + "-" + Itoa(id);
    ToLowerConcat(head, "-A");
    ToLowerConcat(head, "-a");
    assert ToLower("-A") == ToLower("-a");
    assert UpperNode(t, id)[|head| + 1] == 'A' && LowerNode(t, id)[|head| + 1] == 'a';
  }

  /** A node such as "vsim-1-A" has the control card's node "vsim-1-a", which differs from it in case only. */
  lemma UpperNodeAddsLower(t: string, id: nat)
    requires (t == VSIM || t == MAGC) && id <= MaxInt
    ensures CpmName(UpperNode(t, id)) == Some(LowerNode(t, id))
    ensures ToLower(UpperNode(t, id)) == ToLower(LowerNode(t, id)) && UpperNode(t, id) != LowerNode(t, id)
  {
    UpperNodeParses(t, id);
    UpperNodeLowers(t, id);
  }

  lemma UpperNodeOne()
    ensures UpperNode(VSIM, 1) == "vsim-1-A" && LowerNode(VSIM, 1) == "vsim-1-a"
  {
    assert Digit(1) == '1';
    assert Itoa(1) == "1";
  }

  lemma MagcNode()
    ensures VmTypeOf("magc-1") == MAGC
  {
    assert "magc-1" == MAGC + ['-'] + "1";
    TrimSpaceUnchanged("magc-1");
    SplitHead(MAGC, '-', "1");
    SplitNone("1", '-');
  }

  lemma IntegratedModel()
    ensures IsIntegrated("SR-1") && !IsCPM("1")
  {
    assert ToLower("SR-1") == "sr-1";
    assert ToLower("1")[0] == '1';
  }

  // ---- chassis models and slots ----

  /** IsIntegratedChassis: models that have no separate line cards. */
  predicate IsIntegrated(model: string) {
    var m := ToLower(model);
    || m in {"sr-1", "sr-1s", "vsr-i", "sr-1se"}
    || HasPrefix(m, "sr-1x-")
    || HasPrefix(m, "sr-1-")
  }

  predicate IsCPM(slot: string) { ToLower(slot) in {"a", "b"} }

  lemma CpmSlots(slot: string)
    ensures IsCPM(slot) <==> slot in {"A", "a", "B", "b"}
  {
    assert ToLower("A") == "a" && ToLower("B") == "b";
    if IsCPM(slot) {
      assert |slot| == 1 && LowerChar(slot[0]) == ToLower(slot)[0];
      assert slot == [slot[0]];
    }
  }

  /** Models that count as integrated, and models that do not. */
  lemma IntegratedModels(rest: string)
    ensures IsIntegrated("SR-1") && IsIntegrated("SR-1s") && IsIntegrated("VSR-I") && IsIntegrated("SR-1se")
    ensures IsIntegrated("SR-1-" + rest) && IsIntegrated("SR-1x-" + rest)
  {
    ExactModels();
    ToLowerConcat("SR-1-", rest);
    ToLowerConcat("SR-1x-", rest);
    Lowered("SR-1-", "sr-1-");
    Lowered("SR-1x-", "sr-1x-");
  }

  lemma ExactModels()
    ensures IsIntegrated("SR-1") && IsIntegrated("SR-1s") && IsIntegrated("VSR-I") && IsIntegrated("SR-1se")
  {
    Lowered("SR-1", "sr-1");
    Lowered("SR-1s", "sr-1s");
    Lowered("VSR-I", "vsr-i");
    Lowered("SR-1se", "sr-1se");
  }

  lemma DistributedModels()
    ensures !IsIntegrated("SR-7") && !IsIntegrated("SR-12") && !IsIntegrated("VSR") && !IsIntegrated("SR-1x")
  {
    Lowered("SR-7", "sr-7");
    Lowered("SR-12", "sr-12");
    Lowered("VSR", "vsr");
    Lowered("SR-1x", "sr-1x");
    assert "sr-12"[4] != "sr-1-"[4] && "sr-7"[3] != "sr-1"[3];
  }

  // ---- the printed forms ----

  lemma Digits()
    ensures Itoa(0) == "0" && Itoa(1) == "1" && Itoa(2) == "2"
  {
    assert Digit(0) == '0' && Digit(1) == '1' && Digit(2) == '2';
  }

  lemma SpokeInFull()
    ensures SpokeName(12, 1) == "klan12-1"
  {
    Digits();
    assert Itoa(12) == Itoa(1) + [Digit(2)];
  }

  /** A fabric's name is in lower case throughout: lab, router and "fb", with dashes in between. */
  lemma FabricInParts(lab: string, node: string)
    ensures FabricName(lab, node) == ToLower(lab) + "-" + ToLower(node) + "-fb"
  {
    LoweredFabric(lab, node);
    ToLowerConcat(lab, "-");
    Lowered("-", "-");
    Lowered("-fb", "-fb");
  }

  /** Names as they appear in a cluster: of the LAN of link "l1" of lab "Lab", of its second spoke, and of a MAG-c's data fabric. */
  lemma NamesInFull()
    ensures LanName("Lab", "l1") == "Lab-l1" && SpokeName(12, 1) == "klan12-1"
    ensures DataFabricName("Lab", "magc-1") == "magc-Lab-magc-1-fb"
  {
    SpokeInFull();
  }

  lemma Lowered(s: string, t: string)
    requires |t| == |s| && forall i | 0 <= i < |s| :: t[i] == LowerChar(s[i])
    ensures ToLower(s) == t
  {
  }
}
