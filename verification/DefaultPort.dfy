/** The default port of a router's connector: the line card with the lowest number. */
module DefaultPort {
  import opened Wrappers
  import opened Text
  import opened Names
  import opened Chassis

  const NoSlot := "n/a"

  /** strconv.Itoa, also for negative numbers. */
  function FormatInt(i: int): string { if i < 0 then "-" + Itoa(-i) else Itoa(i) }

  datatype Choice = Slot(slot: string) | Panic

  function SlotNumber(slot: string): Option<int> { Atoi(TrimSpace(slot)) }

  /** A card that may get the default port: not a CPM, and in a MAG-c one of type iom-v. */
  predicate Eligible(ch: Chassis, slot: string)
    requires slot in Slots(ch)
  {
    && !IsCPM(slot)
    && (ch.nodeType == Some(MAGC) ==>
          Slots(ch)[slot].model.Some? && ToLower(Slots(ch)[slot].model.value) == "iom-v")
  }

  /** A card at which GetDefaultMDASlot panics: its slot is no number, or it lacks what is dereferenced. */
  predicate Unreadable(ch: Chassis, slot: string)
    requires slot in Slots(ch)
  {
    && !IsCPM(slot)
    && (SlotNumber(slot).None? || ch.nodeType.None? || (ch.nodeType == Some(MAGC) && Slots(ch)[slot].model.None?))
  }

  predicate PortPanics(ch: Chassis) {
    ch.model.None? || (!IsIntegrated(ch.model.value) && exists slot :: slot in Slots(ch) && Unreadable(ch, slot))
  }

  ghost function Numbers(ch: Chassis): set<int> {
    set slot | slot in Slots(ch) && Eligible(ch, slot) && SlotNumber(slot).Some? :: SlotNumber(slot).value
  }

  ghost predicate Least(ns: set<int>, n: int) { n in ns && forall m | m in ns :: n <= m }

  /** `slot` is a result GetDefaultMDASlot may return. */
  ghost predicate IsChoice(ch: Chassis, slot: string) {
    && ch.model.Some?
    && if IsIntegrated(ch.model.value) then if Slots(ch) == map[] then slot == NoSlot else slot in Slots(ch)
       else if Numbers(ch) == {} then slot == NoSlot
       else exists n :: Least(Numbers(ch), n) && slot == FormatInt(n)
  }

  function InsertInt(x: int, xs: seq<int>): seq<int> {
    if xs == [] || x <= xs[0] then [x] + xs else [xs[0]] + InsertInt(x, xs[1..])
  }

  /** sort.Ints. */
  function SortInts(xs: seq<int>): seq<int> {
    if xs == [] then [] else InsertInt(xs[|xs| - 1], SortInts(xs[..|xs| - 1]))
  }

  predicate IsSorted(xs: seq<int>) { forall i, j | 0 <= i < j < |xs| :: xs[i] <= xs[j] }

  lemma {:induction false} InsertIntSorts(x: int, xs: seq<int>)
    requires IsSorted(xs)
    ensures IsSorted(InsertInt(x, xs)) && |InsertInt(x, xs)| == |xs| + 1
    ensures forall y :: y in InsertInt(x, xs) <==> y == x || y in xs
  {
    if !(xs == [] || x <= xs[0]) {
      InsertIntSorts(x, xs[1..]);
      var rest := InsertInt(x, xs[1..]);
      assert xs == [xs[0]] + xs[1..];
      forall j | 0 <= j < |rest|
        ensures xs[0] <= rest[j]
      {
        assert rest[j] in rest;
      }
    }
  }

  lemma {:induction false} SortIntsSorts(xs: seq<int>)
    ensures IsSorted(SortInts(xs)) && |SortInts(xs)| == |xs|
    ensures forall y :: y in SortInts(xs) <==> y in xs
  {
    if xs != [] {
      var n := |xs| - 1;
      SortIntsSorts(xs[..n]);
      InsertIntSorts(xs[n], SortInts(xs[..n]));
      assert xs == xs[..n] + [xs[n]];
    }
  }

  /** The loop over the cards of a chassis that is not integrated; None is a panic. */
  method CollectNumbers(ch: Chassis) returns (iomList: Option<seq<int>>)
    ensures iomList.None? <==> exists slot :: slot in Slots(ch) && Unreadable(ch, slot)
    ensures iomList.Some? ==> Elems(iomList.value) == Numbers(ch)
  {
    var slots := Slots(ch);
    var todo := slots.Keys;
    var list: seq<int> := [];
    while todo != {}
      invariant todo <= slots.Keys
      invariant forall slot | slot in slots && slot !in todo :: !Unreadable(ch, slot)
      invariant Elems(list) == set slot | slot in slots && slot !in todo && Eligible(ch, slot) && SlotNumber(slot).Some? ::
                                 SlotNumber(slot).value
      decreases todo
    {
      var slot :| slot in todo;
      ghost var before := list;
      if !IsCPM(slot) {
        var number := SlotNumber(slot);
        if number.None? || ch.nodeType.None? {
          return None;
        }
        if ch.nodeType.value != MAGC {
          list := list + [number.value];
        } else {
          var model := slots[slot].model;
          if model.None? {
            return None;
          }
          if ToLower(model.value) == "iom-v" {
            list := list + [number.value];
          }
        }
      }
      assert Elems(list) == Elems(before) + if Eligible(ch, slot) then {SlotNumber(slot).value} else {};
      todo := todo - {slot};
    }
    return Some(list);
  }

  /** GetDefaultMDASlot. An integrated chassis gives whatever slot its map yields first. */
  method GetDefaultMDASlot(ch: Chassis) returns (r: Choice)
    ensures r.Panic? <==> PortPanics(ch)
    ensures r.Slot? ==> IsChoice(ch, r.slot)
  {
    if ch.model.None? {
      return Panic;
    }
    if IsIntegrated(ch.model.value) {
      if Slots(ch) == map[] {
        return Slot(NoSlot);
      }
      var slot :| slot in Slots(ch);
      return Slot(slot);
    }
    var iomList := CollectNumbers(ch);
    if iomList.None? {
      return Panic;
    }
    var sorted := SortInts(iomList.value);
    SortIntsSorts(iomList.value);
    if |sorted| > 0 {
      assert sorted[0] in sorted && sorted[0] in Elems(iomList.value);
      assert Least(Numbers(ch), sorted[0]);
      return Slot(FormatInt(sorted[0]));
    }
    assert iomList.value == [];
    return Slot(NoSlot);
  }

  // ---- what the choice is ----

  lemma DigitsAreTrimmed(n: nat)
    ensures TrimSpace(Itoa(n)) == Itoa(n)
  {
    var s := Itoa(n);
    assert IsDigit(s[0]) && IsDigit(s[|s| - 1]);
    TrimSpaceUnchanged(s);
  }

  lemma CanonicalNumber(n: nat)
    requires n <= MaxInt
    ensures SlotNumber(Itoa(n)) == Some(n)
  {
    DigitsAreTrimmed(n);
    AtoiItoa(n);
  }

  /** A slot written the way its number is printed. */
  ghost predicate Canonical(slot: string) { exists n: nat :: n <= MaxInt && slot == Itoa(n) }

  lemma CanonicalSlot(slot: string)
    requires Canonical(slot)
    ensures SlotNumber(slot).Some? && SlotNumber(slot).value >= 0 && slot == FormatInt(SlotNumber(slot).value)
  {
    var n: nat :| n <= MaxInt && slot == Itoa(n);
    CanonicalNumber(n);
  }

  /** For a chassis with separate cards the choice does not depend on the order in which the map yields them. */
  lemma ChoiceIsUnique(ch: Chassis, a: string, b: string)
    requires IsChoice(ch, a) && IsChoice(ch, b) && !IsIntegrated(ch.model.value)
    ensures a == b
  {
  }

  /** The slot is of an eligible card, and none has a lower number. */
  ghost predicate LeastSlot(ch: Chassis, slot: string) {
    && slot in Slots(ch) && Eligible(ch, slot)
    && SlotNumber(slot).Some? && Least(Numbers(ch), SlotNumber(slot).value)
  }

  /** Some eligible card with the lowest number has a key that is printed the way the number is. */
  ghost predicate LeastIsCanonical(ch: Chassis) {
    exists slot :: LeastSlot(ch, slot) && slot == FormatInt(SlotNumber(slot).value)
  }

  /** For a chassis with separate cards the choice is the eligible slot with the lowest number exactly when a card with the
      lowest number has a canonical key. How the other keys are written does not matter. */
  lemma ChoiceIsLeastSlotIff(ch: Chassis, slot: string)
    requires IsChoice(ch, slot) && !IsIntegrated(ch.model.value)
    ensures LeastSlot(ch, slot) <==> LeastIsCanonical(ch)
  {
    if LeastSlot(ch, slot) {
      var n :| Least(Numbers(ch), n) && slot == FormatInt(n);
      assert n == SlotNumber(slot).value;
    }
    if s :| LeastSlot(ch, s) && s == FormatInt(SlotNumber(s).value) {
      var n :| Least(Numbers(ch), n) && slot == FormatInt(n);
      assert n == SlotNumber(s).value;
    }
  }

  /** Whether the choice is a slot of the chassis at all, which is what validation asks: for an integrated chassis exactly
      when it has one, for another exactly when the lowest eligible number, printed, is a key. */
  lemma ChoiceIsSlotIff(ch: Chassis, slot: string)
    requires IsChoice(ch, slot) && !PortPanics(ch)
    ensures slot in Slots(ch) <==>
            if IsIntegrated(ch.model.value) then Slots(ch) != map[]
            else exists n :: Least(Numbers(ch), n) && FormatInt(n) in Slots(ch)
  {
    if !IsIntegrated(ch.model.value) {
      NoSlotIsNoNumber();
      if Numbers(ch) == {} && slot in Slots(ch) {
        assert Unreadable(ch, slot);
      }
    }
  }

  lemma NoSlotIsNoNumber()
    ensures SlotNumber(NoSlot).None? && !IsCPM(NoSlot)
  {
    TrimSpaceUnchanged(NoSlot);
    assert DigitsValue(NoSlot).None?;
    assert |ToLower(NoSlot)| == 3;
  }

  /** In particular, with all slots written as numbers are printed, and some eligible card, the choice is a slot of the
      chassis, not a CPM, and the eligible one with the lowest number. */
  lemma ChoiceIsLeastEligible(ch: Chassis, slot: string)
    requires IsChoice(ch, slot) && !IsIntegrated(ch.model.value)
    requires forall s | s in Slots(ch) && Eligible(ch, s) :: Canonical(s)
    requires exists s :: s in Slots(ch) && Eligible(ch, s)
    ensures slot in Slots(ch) && Eligible(ch, slot)
    ensures forall s | s in Slots(ch) && Eligible(ch, s) ::
              SlotNumber(slot).Some? && SlotNumber(s).Some? && SlotNumber(slot).value <= SlotNumber(s).value
  {
    forall s | s in Slots(ch) && Eligible(ch, s)
      ensures SlotNumber(s).Some? && SlotNumber(s).value in Numbers(ch)
    {
      CanonicalSlot(s);
    }
    var least :| Least(Numbers(ch), least) && slot == FormatInt(least);
    var s :| s in Slots(ch) && Eligible(ch, s) && SlotNumber(s) == Some(least);
    CanonicalSlot(s);
    assert LeastSlot(ch, s);
    ChoiceIsLeastSlotIff(ch, slot);
  }

  lemma EligibleMeans(ch: Chassis, s: string)
    requires s in Slots(ch)
    ensures Eligible(ch, s) <==>
            && s !in {"A", "a", "B", "b"}
            && (ch.nodeType == Some("magc") ==> Slots(ch)[s].model.Some? && ToLower(Slots(ch)[s].model.value) == "iom-v")
  {
    CpmSlots(s);
  }

  lemma LowerNumber(ch: Chassis, a: nat, b: nat)
    requires a <= MaxInt && b <= MaxInt && Itoa(a) in Slots(ch) && Itoa(b) in Slots(ch)
    requires SlotNumber(Itoa(a)).Some? && SlotNumber(Itoa(b)).Some? ==> SlotNumber(Itoa(a)).value <= SlotNumber(Itoa(b)).value
    ensures a <= b
  {
    CanonicalNumber(a);
    CanonicalNumber(b);
  }

  ghost function EligibleSlots(ch: Chassis): set<string> { set s | s in Slots(ch) && Eligible(ch, s) }

  lemma ChoiceAmongEligible(ch: Chassis, slot: string)
    requires IsChoice(ch, slot) && !IsIntegrated(ch.model.value)
    requires forall s | s in EligibleSlots(ch) :: Canonical(s)
    ensures if EligibleSlots(ch) == {} then slot == NoSlot
            else slot in EligibleSlots(ch)
                 && forall n: nat, m: nat | n <= MaxInt && m <= MaxInt && slot == Itoa(n) && Itoa(m) in EligibleSlots(ch) :: n <= m
  {
    if EligibleSlots(ch) == {} {
      forall s | s in Slots(ch)
        ensures !Eligible(ch, s)
      {
        assert s !in EligibleSlots(ch);
      }
      NoEligibleCard(ch, slot);
    } else {
      var s :| s in EligibleSlots(ch);
      ChoiceIsLeastEligible(ch, slot);
      forall n: nat, m: nat | n <= MaxInt && m <= MaxInt && slot == Itoa(n) && Itoa(m) in EligibleSlots(ch)
        ensures n <= m
      {
        LowerNumber(ch, n, m);
      }
    }
  }

  /** The choice in terms of the cards: for a chassis with separate cards whose line cards have their numbers as keys it is the
      lowest of them, where in a MAG-c only cards of model "iom-v", in upper or lower case, count. */
  lemma ChoiceOnCards(ch: Chassis, slot: string)
    requires IsChoice(ch, slot) && !IsIntegrated(ch.model.value)
    requires forall s | s in Slots(ch) && s !in {"A", "a", "B", "b"} :: exists n: nat :: n <= MaxInt && s == Itoa(n)
    ensures var counting := set s | s in Slots(ch) && s !in {"A", "a", "B", "b"}
                                    && (ch.nodeType == Some("magc") ==>
                                          Slots(ch)[s].model.Some? && ToLower(Slots(ch)[s].model.value) == "iom-v");
            if counting == {} then slot == "n/a"
            else slot in counting
                 && forall n: nat, m: nat | n <= MaxInt && m <= MaxInt && slot == Itoa(n) && Itoa(m) in counting :: n <= m
  {
    ghost var counting := set s | s in Slots(ch) && s !in {"A", "a", "B", "b"}
                                  && (ch.nodeType == Some("magc") ==>
                                        Slots(ch)[s].model.Some? && ToLower(Slots(ch)[s].model.value) == "iom-v");
    forall s | s in Slots(ch)
      ensures s in counting <==> Eligible(ch, s)
    {
      EligibleMeans(ch, s);
    }
    assert counting == EligibleSlots(ch);
    forall s | s in counting
      ensures Canonical(s)
    {
    }
    ChoiceAmongEligible(ch, slot);
  }

  lemma MagcEligible(ch: Chassis)
    requires ch.nodeType == Some("magc") && Slots(ch).Keys == {"A", "1", "2"}
    requires Slots(ch)["1"].model == Some("iom-v") && Slots(ch)["2"].model == Some("iom-v-mg")
    ensures EligibleSlots(ch) == {"1"}
  {
    EligibleMeans(ch, "A");
    EligibleMeans(ch, "1");
    EligibleMeans(ch, "2");
    assert ToLower("iom-v") == "iom-v" && |ToLower("iom-v-mg")| != |"iom-v"|;
  }

  lemma OneIsCanonical()
    ensures Canonical("1")
  {
    Digits();
    assert "1" == Itoa(1);
  }

  /** For the chassis a MAG-c has when the user says nothing, the choice is "1", the load balancer, not "2". */
  lemma MagcDefaultChoice(cpm: Card, lb: Card, mg: Card, slot: string)
    requires cpm.model == Some("cpm-v") && lb.model == Some("iom-v") && mg.model == Some("iom-v-mg")
    ensures var ch := Chassis(Some("magc"), Some("VSR"), Some(map["A" := cpm, "1" := lb, "2" := mg]), None, None);
            IsChoice(ch, slot) ==> slot == "1"
  {
    var ch := Chassis(Some("magc"), Some("VSR"), Some(map["A" := cpm, "1" := lb, "2" := mg]), None, None);
    if IsChoice(ch, slot) {
      VsrIsDistributed();
      assert Slots(ch).Keys == {"A", "1", "2"};
      MagcEligible(ch);
      OneIsCanonical();
      ChoiceAmongEligible(ch, slot);
    }
  }

  lemma VsrIsDistributed()
    ensures !IsIntegrated("VSR")
  {
    DistributedModels();
  }

  lemma SrIsDistributed()
    ensures !IsIntegrated("SR-7")
  {
    DistributedModels();
  }

  /** Without an eligible card the choice is "n/a". */
  lemma NoEligibleCard(ch: Chassis, slot: string)
    requires IsChoice(ch, slot) && !IsIntegrated(ch.model.value)
    requires forall s | s in Slots(ch) && Eligible(ch, s) :: SlotNumber(s).Some?
    ensures slot == NoSlot <==> forall s | s in Slots(ch) :: !Eligible(ch, s)
  {
    if s :| s in Slots(ch) && Eligible(ch, s) {
      assert SlotNumber(s).value in Numbers(ch);
      var least :| Least(Numbers(ch), least) && slot == FormatInt(least);
      PrintedIsNoWord(least);
    }
  }

  lemma PrintedIsNoWord(i: int)
    ensures FormatInt(i) != NoSlot
  {
    assert if i >= 0 then IsDigit(FormatInt(i)[0]) else FormatInt(i)[0] == '-';
  }

  /** A slot that is not written as its number is printed: the choice is then no slot of the chassis. */
  lemma PaddedSlotIsMissed(cpm: Card, iom: Card)
    ensures var ch := Chassis(Some(VSIM), Some("SR-7"), Some(map["A" := cpm, "01" := iom]), None, None);
            IsChoice(ch, "1") && "1" !in Slots(ch)
  {
    var ch := Chassis(Some(VSIM), Some("SR-7"), Some(map["A" := cpm, "01" := iom]), None, None);
    PaddedNumber();
    assert Eligible(ch, "01") by { assert ToLower("01")[0] == '0'; }
    assert !Eligible(ch, "A") by { assert ToLower("A") == "a"; }
    assert Numbers(ch) == {1};
    assert Least(Numbers(ch), 1);
    SrIsDistributed();
    assert FormatInt(1) == "1";
  }

  lemma PaddedNumber()
    ensures SlotNumber("01") == Some(1)
  {
    TrimSpaceUnchanged("01");
    assert "01"[..1] == "0" && "0"[..0] == "";
    assert DigitsValue("") == Some(0);
    assert DigitsValue("0") == Some(0);
    assert DigitsValue("01") == Some(1);
  }
}
