/** The sysinfo string of a card, what is read back from it, and whether the bridges a card's virtual machine
    refers to are among those the reconcile plans. */
module Sysinfo {
  import opened Wrappers
  import opened Text
  import opened Names
  import opened Cluster

  // ---- writing ----

  function MdaText(mdas: seq<string>): string {
    if mdas == [] then ""
    else
      var n := |mdas| - 1;
      MdaText(mdas[..n]) + MdaItem(n, mdas[n])
  }

  function MdaItem(i: nat, mda: string): string { "mda/" + Itoa(i + 1) + "=" + mda + " " }

  /** What a MAG-c's cards are given besides. */
  function MagcText(slot: string, card: string): string {
    "vf2vf=1 " +
    if IsCPM(slot) then ""
    else "ofabric/1=2 " + if ToLower(TrimSpace(card)) == "iom-v-mg" then "control-cpu-cores=4 compact-fp=1 "
                          else "control-cpu-cores=2 "
  }

  function CardText(sfm: Option<string>, slot: string, card: string): string {
    (if sfm.Some? then "sfm=" + sfm.value + " " else "") + "card=" + card + " slot=" + slot + " "
  }

  /** The text of GetDefaultSysinfoStr. `xioms` is what the card's XIOMs contribute. */
  function DefaultSysinfo(nodeType: string, model: string, sfm: Option<string>, slot: string, card: string,
                          mdas: Option<seq<string>>, xioms: string): string {
    "chassis=" + model + " " + Rest(nodeType, sfm, slot, card, mdas, xioms)
  }

  function Rest(nodeType: string, sfm: Option<string>, slot: string, card: string,
                mdas: Option<seq<string>>, xioms: string): string {
    CardText(sfm, slot, card) + xioms
    + (if mdas.Some? then MdaText(mdas.value) else "")
    + (if nodeType == MAGC then MagcText(slot, card) else "")
  }

  method AddMdas(rs: string, mdas: seq<string>) returns (r: string)
    ensures r == rs + MdaText(mdas)
  {
    r := rs;
    for i := 0 to |mdas|
      invariant r == rs + MdaText(mdas[..i])
    {
      assert mdas[..i + 1][..i] == mdas[..i];
      ConcatAssociative(rs, MdaText(mdas[..i]), MdaItem(i, mdas[i]));
      r := r + MdaItem(i, mdas[i]);
    }
    assert mdas[..|mdas|] == mdas;
  }

  method AddMagc(rs: string, slot: string, card: string) returns (r: string)
    ensures r == rs + MagcText(slot, card)
  {
    r := rs + "vf2vf=1 ";
    if !IsCPM(slot) {
      r := r + "ofabric/1=2 ";
      if ToLower(TrimSpace(card)) == "iom-v-mg" {
        r := r + "control-cpu-cores=4 compact-fp=1 ";
      } else {
        r := r + "control-cpu-cores=2 ";
      }
    }
  }

  lemma ConcatAssociative(a: string, b: string, c: string)
    ensures a + b + c == a + (b + c)
  {
  }

  /** GetDefaultSysinfoStr, which grows the string part by part. */
  method GetDefaultSysinfoStr(nodeType: string, model: string, sfm: Option<string>, slot: string, card: string,
                              mdas: Option<seq<string>>, xioms: string) returns (rs: string)
    ensures rs == DefaultSysinfo(nodeType, model, sfm, slot, card, mdas, xioms)
  {
    ghost var head, first := "chassis=" + model + " ", CardText(sfm, slot, card);
    rs := "chassis=" + model + " " + CardText(sfm, slot, card);
    ConcatAssociative(head, first, xioms);
    rs := rs + xioms;
    ghost var second := first + xioms;
    ghost var third := second + if mdas.Some? then MdaText(mdas.value) else "";
    if mdas.Some? {
      ConcatAssociative(head, second, MdaText(mdas.value));
      rs := AddMdas(rs, mdas.value);
    }
    assert rs == head + third;
    if nodeType == MAGC {
      ConcatAssociative(head, third, MagcText(slot, card));
      rs := AddMagc(rs, slot, card);
    }
  }

  // ---- reading ----

  const Prefix := "chassis="

  function FirstChassis(fields: seq<string>): string {
    if fields == [] then ""
    else if HasPrefix(TrimSpace(fields[0]), Prefix) then TrimSpace(fields[0])[|Prefix|..]
    else FirstChassis(fields[1..])
  }

  function ChassisOf(sysinfo: string): string { FirstChassis(Fields(TrimSpace(sysinfo))) }

  method GetChassisFromSysinfoStr(sysinfo: string) returns (rs: string)
    ensures rs == ChassisOf(sysinfo)
  {
    var flist := Fields(TrimSpace(sysinfo));
    for i := 0 to |flist|
      invariant FirstChassis(flist) == FirstChassis(flist[i..])
    {
      var f := TrimSpace(flist[i]);
      if HasPrefix(f, Prefix) {
        return f[|Prefix|..];
      }
      assert flist[i..][1..] == flist[i + 1..];
    }
    return "";
  }

  // ---- the round trip ----

  lemma {:induction false} WordLengthIs(s: string, n: nat)
    requires n <= |s| && NoSpace(s[..n]) && (n < |s| ==> IsSpace(s[n]))
    ensures WordLength(s) == n
  {
    var w := WordLength(s);
    assert forall i | 0 <= i < n :: s[..n][i] == s[i];
    assert forall i | 0 <= i < w :: s[..w][i] == s[i];
  }

  lemma {:induction false} TrimRightKeeps(s: string, n: nat)
    requires 0 < n <= |s| && !IsSpace(s[n - 1])
    ensures n <= |TrimRight(s)| && TrimRight(s) <= s
    decreases |s|
  {
    if IsSpace(s[|s| - 1]) {
      TrimRightKeeps(s[..|s| - 1], n);
    }
  }

  /** The first word of a string that starts with one. */
  lemma FirstField(s: string, n: nat)
    requires 0 < n <= |s| && NoSpace(s[..n]) && (n < |s| ==> IsSpace(s[n]))
    ensures Fields(TrimSpace(s)) != [] && Fields(TrimSpace(s))[0] == s[..n]
  {
    assert !IsSpace(s[..n][0]) && !IsSpace(s[..n][n - 1]);
    assert TrimLeft(s) == s;
    TrimRightKeeps(s, n);
    var t := TrimSpace(s);
    assert t[..n] == s[..n];
    WordLengthIs(t, n);
    assert !IsSpace(t[0]);
  }

  lemma FirstFieldAfter(p: string, model: string, rest: string)
    requires p != "" && NoSpace(p)
    ensures var f := Fields(TrimSpace(p + model + " " + rest)); f != [] && f[0] == p + model[..WordLength(model)]
  {
    var k := WordLength(model);
    var s := p + model + " " + rest;
    var n := |p| + k;
    assert s[..n] == p + model[..k];
    assert n < |s| && s[n] == if k < |model| then model[k] else ' ';
    FirstField(s, n);
  }

  lemma NothingToTrim(a: string, b: string)
    requires a != "" && NoSpace(a) && NoSpace(b)
    ensures TrimSpace(a + b) == a + b
  {
    var s := a + b;
    assert s[0] == a[0] && s[|s| - 1] == if b == "" then a[|a| - 1] else b[|b| - 1];
    TrimSpaceUnchanged(s);
  }

  /** Reading the chassis back from a string written for a model gives the model up to its first white space. */
  lemma ChassisReadBack(model: string, rest: string)
    ensures ChassisOf("chassis=" + model + " " + rest) == model[..WordLength(model)]
  {
    var word := model[..WordLength(model)];
    assert NoSpace(Prefix);
    FirstFieldAfter(Prefix, model, rest);
    NothingToTrim(Prefix, word);
    assert (Prefix + word)[|Prefix|..] == word;
  }

  /** The generated sysinfo gives the chassis model back exactly when the model has no white space. */
  lemma SysinfoRoundTrip(nodeType: string, model: string, sfm: Option<string>, slot: string, card: string,
                         mdas: Option<seq<string>>, xioms: string)
    ensures ChassisOf(DefaultSysinfo(nodeType, model, sfm, slot, card, mdas, xioms)) == model <==> NoSpace(model)
  {
    ChassisReadBack(model, Rest(nodeType, sfm, slot, card, mdas, xioms));
    var k := WordLength(model);
    assert NoSpace(model[..k]);
    if k == |model| {
      assert model[..k] == model;
    }
  }

  // ---- the whole string, field by field ----

  /** Words, each followed by a space. */
  function Joined(words: seq<string>): string {
    if words == [] then "" else Joined(words[..|words| - 1]) + (words[|words| - 1] + " ")
  }

  predicate AreWords(words: seq<string>) { forall i | 0 <= i < |words| :: words[i] != "" && NoSpace(words[i]) }

  lemma {:induction false} JoinedConcat(a: seq<string>, b: seq<string>)
    ensures Joined(a + b) == Joined(a) + Joined(b)
  {
    if b == [] {
      assert a + b == a;
    } else {
      var n := |b| - 1;
      assert (a + b)[..|a + b| - 1] == a + b[..n];
      JoinedConcat(a, b[..n]);
      ConcatAssociative(Joined(a), Joined(b[..n]), b[n] + " ");
    }
  }

  lemma JoinedOne(word: string)
    ensures Joined([word]) == word + " "
  {
    assert [word][..0] == [];
  }

  lemma FirstWord(word: string, rest: string)
    requires word != "" && NoSpace(word)
    ensures Fields(word + " " + rest) == [word] + Fields(" " + rest)
  {
    var t := word + " " + rest;
    assert t[..|word|] == word && IsSpace(t[|word|]);
    WordLengthIs(t, |word|);
    assert !IsSpace(word[0]) && t[|word|..] == " " + rest;
  }

  lemma SpaceSkipped(rest: string)
    ensures Fields(" " + rest) == Fields(rest)
  {
    assert (" " + rest)[1..] == rest;
  }

  /** Splitting at white space gives the words back. */
  lemma {:induction false} FieldsOfJoined(words: seq<string>)
    requires AreWords(words)
    ensures Fields(Joined(words)) == words
  {
    if words != [] {
      var rest := words[1..];
      FieldsOfJoined(rest);
      assert words == [words[0]] + rest;
      JoinedConcat([words[0]], rest);
      JoinedOne(words[0]);
      FirstWord(words[0], Joined(rest));
      SpaceSkipped(Joined(rest));
    }
  }

  /** The fields for the MDAs, numbered from 1. */
  function MdaFields(mdas: seq<string>): seq<string> {
    seq(|mdas|, i requires 0 <= i < |mdas| => "mda/" + Itoa(i + 1) + "=" + mdas[i])
  }

  lemma {:induction false} MdaTextJoined(mdas: seq<string>)
    ensures MdaText(mdas) == Joined(MdaFields(mdas))
  {
    if mdas != [] {
      var n := |mdas| - 1;
      MdaTextJoined(mdas[..n]);
      assert MdaFields(mdas)[..n] == MdaFields(mdas[..n]);
    }
  }

  function MagcFields(slot: string, card: string): seq<string> {
    if slot in {"A", "a", "B", "b"} then ["vf2vf=1"]
    else if ToLower(TrimSpace(card)) == "iom-v-mg" then ["vf2vf=1", "ofabric/1=2", "control-cpu-cores=4", "compact-fp=1"]
    else ["vf2vf=1", "ofabric/1=2", "control-cpu-cores=2"]
  }

  lemma JoinedTwo(a: string, b: string)
    ensures Joined([a, b]) == (a + " ") + (b + " ")
  {
    assert [a, b] == [a] + [b];
    JoinedConcat([a], [b]);
    JoinedOne(a);
    JoinedOne(b);
  }

  lemma GatewayExtras()
    ensures "control-cpu-cores=4 compact-fp=1 " == ("control-cpu-cores=4" + " ") + ("compact-fp=1" + " ")
  {
  }

  lemma MagcTextJoined(slot: string, card: string)
    ensures MagcText(slot, card) == Joined(MagcFields(slot, card))
  {
    CpmSlots(slot);
    JoinedOne("vf2vf=1");
    if !IsCPM(slot) {
      JoinedTwo("vf2vf=1", "ofabric/1=2");
      if ToLower(TrimSpace(card)) == "iom-v-mg" {
        JoinedTwo("control-cpu-cores=4", "compact-fp=1");
        GatewayExtras();
        JoinedConcat(["vf2vf=1", "ofabric/1=2"], ["control-cpu-cores=4", "compact-fp=1"]);
        assert ["vf2vf=1", "ofabric/1=2"] + ["control-cpu-cores=4", "compact-fp=1"] == MagcFields(slot, card);
        ConcatAssociative("vf2vf=1 ", "ofabric/1=2 ", "control-cpu-cores=4 compact-fp=1 ");
      } else {
        JoinedOne("control-cpu-cores=2");
        JoinedConcat(["vf2vf=1", "ofabric/1=2"], ["control-cpu-cores=2"]);
        assert ["vf2vf=1", "ofabric/1=2"] + ["control-cpu-cores=2"] == MagcFields(slot, card);
        ConcatAssociative("vf2vf=1 ", "ofabric/1=2 ", "control-cpu-cores=2 ");
      }
    }
  }

  function SfmFields(sfm: Option<string>): seq<string> { if sfm.Some? then ["sfm=" + sfm.value] else [] }

  lemma CardTextJoined(sfm: Option<string>, slot: string, card: string)
    ensures CardText(sfm, slot, card) == Joined(SfmFields(sfm) + ["card=" + card, "slot=" + slot])
  {
    JoinedConcat(SfmFields(sfm), ["card=" + card, "slot=" + slot]);
    JoinedTwo("card=" + card, "slot=" + slot);
    if sfm.Some? {
      JoinedOne("sfm=" + sfm.value);
    }
    assert "card=" + card + " slot=" + slot + " " == ("card=" + card + " ") + ("slot=" + slot + " ");
  }

  lemma PrefixedWord(p: string, word: string)
    requires p != "" && Printable(p) && NoSpace(word)
    ensures p + word != "" && NoSpace(p + word)
  {
    PrintableHasNoSpace(p);
  }

  lemma MdaFieldsAreWords(mdas: seq<string>)
    requires forall i | 0 <= i < |mdas| :: NoSpace(mdas[i])
    ensures AreWords(MdaFields(mdas))
  {
    forall i | 0 <= i < |mdas|
      ensures MdaFields(mdas)[i] != "" && NoSpace(MdaFields(mdas)[i])
    {
      MdaFieldIsWord(i, mdas[i]);
    }
  }

  lemma MdaFieldIsWord(i: nat, mda: string)
    requires NoSpace(mda)
    ensures NoSpace("mda/" + Itoa(i + 1) + "=" + mda)
  {
    DigitsArePrintable(i + 1);
    PrintableHasNoSpace("mda/" + Itoa(i + 1) + "=");
  }

  lemma DigitsArePrintable(n: nat)
    ensures Printable("mda/" + Itoa(n) + "=")
  {
    var d := Itoa(n);
    assert forall i | 0 <= i < |d| :: IsDigit(d[i]);
  }

  lemma PlainWords()
    ensures NoSpace("vf2vf=1") && NoSpace("ofabric/1=2") && NoSpace("compact-fp=1")
  {
    PrintableHasNoSpace("vf2vf=1");
    PrintableHasNoSpace("ofabric/1=2");
    PrintableHasNoSpace("compact-fp=1");
  }

  lemma CoreWords()
    ensures NoSpace("control-cpu-cores=4") && NoSpace("control-cpu-cores=2")
  {
    PrintableHasNoSpace("control-cpu-cores=4");
    PrintableHasNoSpace("control-cpu-cores=2");
  }

  lemma MagcFieldsAreWords(slot: string, card: string)
    ensures AreWords(MagcFields(slot, card))
  {
    PlainWords();
    CoreWords();
  }

  /** The generated sysinfo of a card without XIOMs, word for word: chassis, SFM, card, slot, the MDAs numbered from 1, and what a
      MAG-c's cards are given besides. */
  lemma SysinfoWords(nodeType: string, model: string, sfm: Option<string>, slot: string, card: string, mdas: seq<string>)
    requires NoSpace(model) && (sfm.Some? ==> NoSpace(sfm.value)) && NoSpace(slot) && NoSpace(card)
    requires forall i | 0 <= i < |mdas| :: NoSpace(mdas[i])
    ensures Fields(DefaultSysinfo(nodeType, model, sfm, slot, card, Some(mdas), "")) ==
            ["chassis=" + model] + (SfmFields(sfm) + ["card=" + card, "slot=" + slot]) + MdaFields(mdas)
            + if nodeType == "magc" then MagcFields(slot, card) else []
  {
    var magc := if nodeType == "magc" then MagcFields(slot, card) else [];
    var words := ["chassis=" + model] + (SfmFields(sfm) + ["card=" + card, "slot=" + slot]) + MdaFields(mdas) + magc;
    SysinfoJoined(nodeType, model, sfm, slot, card, mdas, words, magc);
    WordsOfSysinfo(model, sfm, slot, card, mdas, magc);
    FieldsOfJoined(words);
  }

  lemma WordsOfSysinfo(model: string, sfm: Option<string>, slot: string, card: string, mdas: seq<string>, magc: seq<string>)
    requires NoSpace(model) && (sfm.Some? ==> NoSpace(sfm.value)) && NoSpace(slot) && NoSpace(card)
    requires (forall i | 0 <= i < |mdas| :: NoSpace(mdas[i])) && (magc == [] || magc == MagcFields(slot, card))
    ensures AreWords(["chassis=" + model] + (SfmFields(sfm) + ["card=" + card, "slot=" + slot]) + MdaFields(mdas) + magc)
  {
    PrefixedWord("chassis=", model);
    CardWords(sfm, slot, card);
    MdaFieldsAreWords(mdas);
    MagcFieldsAreWords(slot, card);
    WordsConcat(["chassis=" + model], SfmFields(sfm) + ["card=" + card, "slot=" + slot]);
    WordsConcat(["chassis=" + model] + (SfmFields(sfm) + ["card=" + card, "slot=" + slot]), MdaFields(mdas));
    WordsConcat(["chassis=" + model] + (SfmFields(sfm) + ["card=" + card, "slot=" + slot]) + MdaFields(mdas), magc);
  }

  lemma WordsConcat(a: seq<string>, b: seq<string>)
    requires AreWords(a) && AreWords(b)
    ensures AreWords(a + b)
  {
  }

  lemma CardWords(sfm: Option<string>, slot: string, card: string)
    requires (sfm.Some? ==> NoSpace(sfm.value)) && NoSpace(slot) && NoSpace(card)
    ensures AreWords(SfmFields(sfm) + ["card=" + card, "slot=" + slot])
  {
    if sfm.Some? {
      PrefixedWord("sfm=", sfm.value);
    }
    PrefixedWord("card=", card);
    PrefixedWord("slot=", slot);
  }

  lemma SysinfoJoined(nodeType: string, model: string, sfm: Option<string>, slot: string, card: string, mdas: seq<string>,
                      words: seq<string>, magc: seq<string>)
    requires magc == if nodeType == "magc" then MagcFields(slot, card) else []
    requires words == ["chassis=" + model] + (SfmFields(sfm) + ["card=" + card, "slot=" + slot]) + MdaFields(mdas) + magc
    ensures DefaultSysinfo(nodeType, model, sfm, slot, card, Some(mdas), "") == Joined(words)
  {
    var first, second := ["chassis=" + model], SfmFields(sfm) + ["card=" + card, "slot=" + slot];
    JoinedConcat(first + second + MdaFields(mdas), magc);
    JoinedConcat(first + second, MdaFields(mdas));
    JoinedConcat(first, second);
    JoinedOne("chassis=" + model);
    CardTextJoined(sfm, slot, card);
    MdaTextJoined(mdas);
    MagcTextJoined(slot, card);
    FourParts("chassis=" + model + " ", CardText(sfm, slot, card), MdaText(mdas), Joined(magc));
  }

  lemma FourParts(a: string, b: string, c: string, d: string)
    ensures a + (b + "" + c + d) == a + b + c + d
  {
  }

  // ---- the bridges a virtual machine refers to ----

  predicate RefersToFabric(node: string, sysinfo: string) {
    (VmTypeOf(node) == VSIM || VmTypeOf(node) == MAGC) && !IsIntegrated(ChassisOf(sysinfo))
  }

  predicate RefersToDataFabric(node: string, slot: string) { VmTypeOf(node) == MAGC && !IsCPM(slot) }

  /** The fabric networks getVMI puts into a card's virtual machine. */
  function FabricNetworks(lab: string, node: string, slot: string, sysinfo: string): seq<string> {
    (if RefersToFabric(node, sysinfo) then [FabricName(lab, node)] else [])
    + (if RefersToDataFabric(node, slot) then [DataFabricName(lab, node)] else [])
  }

  /** The reconcile plans a bridge of this name for the node. */
  ghost predicate IsPlanned(lab: Key, node: string, model: string, name: string) {
    exists indexes: seq<nat> ::
      |indexes| == BridgeCount(node)
      && exists i | 0 <= i < |BridgePlan(lab, node, model, indexes)| ::
           BridgePlan(lab, node, model, indexes)[i].key == Key(lab.ns, name)
  }

  lemma PlannedWhenDistributed(lab: Key, node: string, model: string)
    ensures IsPlanned(lab, node, model, FabricName(lab.name, node)) <== !IsIntegrated(model)
    ensures IsPlanned(lab, node, model, DataFabricName(lab.name, node)) <== !IsIntegrated(model) && VmTypeOf(node) == MAGC
    ensures IsIntegrated(model) ==> forall name :: !IsPlanned(lab, node, model, name)
  {
    var indexes: seq<nat> := if VmTypeOf(node) == MAGC then [1, 2] else [1];
    if !IsIntegrated(model) {
      var plan := BridgePlan(lab, node, model, indexes);
      assert plan[0].key == Key(lab.ns, FabricName(lab.name, node));
      if VmTypeOf(node) == MAGC {
        assert plan[1].key == Key(lab.ns, DataFabricName(lab.name, node));
      }
    }
  }

  /** Whatever the card's sysinfo says, every bridge its machine refers to is planned exactly when the chassis has
      separate cards, or the machine refers to none. */
  lemma NetworksPlannedIff(lab: Key, node: string, slot: string, sysinfo: string, model: string)
    ensures (forall name | name in FabricNetworks(lab.name, node, slot, sysinfo) :: IsPlanned(lab, node, model, name))
            <==> !IsIntegrated(model) || (!RefersToFabric(node, sysinfo) && !RefersToDataFabric(node, slot))
  {
    PlannedWhenDistributed(lab, node, model);
    var names := FabricNetworks(lab.name, node, slot, sysinfo);
    if names != [] {
      assert names[0] in names;
    }
  }

  lemma ToLowerPrefix(s: string, k: nat)
    requires k <= |s|
    ensures ToLower(s[..k]) == ToLower(s)[..k]
  {
  }

  lemma LowerHasNoSpace(s: string, i: nat)
    requires i < |s|
    ensures IsSpace(ToLower(s)[i]) == IsSpace(s[i])
  {
  }

  predicate Printable(s: string) { forall i | 0 <= i < |s| :: '!' <= s[i] <= '~' }

  lemma PrintableHasNoSpace(s: string)
    requires Printable(s)
    ensures NoSpace(s)
  {
  }

  lemma ModelNamesHaveNoSpace(m: string)
    requires m in {"sr-1", "sr-1s", "vsr-i", "sr-1se", "sr-1x-", "sr-1-"}
    ensures NoSpace(m)
  {
    assert Printable(m);
    PrintableHasNoSpace(m);
  }

  lemma PrefixBeforeSpace(m: string, p: string, k: nat)
    requires p <= m && NoSpace(p) && k < |m| && IsSpace(m[k])
    ensures |p| <= k && p <= m[..k]
  {
    assert forall i | 0 <= i < |p| :: m[i] == p[i] && !IsSpace(m[i]);
  }

  lemma ExactModelHasNoSpace(model: string)
    requires ToLower(model) in {"sr-1", "sr-1s", "vsr-i", "sr-1se"}
    ensures NoSpace(model)
  {
    var m := ToLower(model);
    ModelNamesHaveNoSpace(m);
    forall i | 0 <= i < |model|
      ensures !IsSpace(model[i])
    {
      LowerHasNoSpace(model, i);
    }
  }

  /** A model that counts as integrated still does when cut at its first white space. */
  lemma IntegratedUpToSpace(model: string)
    requires IsIntegrated(model)
    ensures IsIntegrated(model[..WordLength(model)])
  {
    var k := WordLength(model);
    var m := ToLower(model);
    if k == |model| {
      assert model[..k] == model;
    } else {
      LowerHasNoSpace(model, k);
      ToLowerPrefix(model, k);
      if m in {"sr-1", "sr-1s", "vsr-i", "sr-1se"} {
        ExactModelHasNoSpace(model);
      } else {
        var p := if HasPrefix(m, "sr-1x-") then "sr-1x-" else "sr-1-";
        ModelNamesHaveNoSpace(p);
        PrefixBeforeSpace(m, p, k);
      }
    }
  }

  /** With the generated sysinfo, for every model, every bridge a card's machine refers to is planned, except the data
      fabric of the line cards of a MAG-c whose model counts as integrated. */
  lemma GeneratedSysinfoAgrees(lab: Key, node: string, slot: string, nodeType: string, model: string, sfm: Option<string>,
                               card: string, mdas: Option<seq<string>>, xioms: string)
    ensures (forall name | name in FabricNetworks(lab.name, node, slot, DefaultSysinfo(nodeType, model, sfm, slot, card, mdas, xioms)) ::
               IsPlanned(lab, node, model, name))
            <==> !(IsIntegrated(model) && VmTypeOf(node) == MAGC && !IsCPM(slot))
  {
    var sysinfo := DefaultSysinfo(nodeType, model, sfm, slot, card, mdas, xioms);
    NetworksPlannedIff(lab, node, slot, sysinfo, model);
    ChassisReadBack(model, Rest(nodeType, sfm, slot, card, mdas, xioms));
    if IsIntegrated(model) {
      IntegratedUpToSpace(model);
    }
  }

  /** The exception in the smallest case: line card "1" of node "magc-1" with model "SR-1" refers to a data fabric that is not
      planned. */
  lemma IntegratedMagcMisses(lab: Key, sfm: Option<string>, card: string, mdas: Option<seq<string>>, xioms: string)
    ensures var sysinfo := DefaultSysinfo(MAGC, "SR-1", sfm, "1", card, mdas, xioms);
            DataFabricName(lab.name, "magc-1") in FabricNetworks(lab.name, "magc-1", "1", sysinfo)
            && !IsPlanned(lab, "magc-1", "SR-1", DataFabricName(lab.name, "magc-1"))
  {
    MagcNode();
    IntegratedModel();
    PlannedWhenDistributed(lab, "magc-1", "SR-1");
  }

  /** The generated sysinfo of a model without white space asks for the fabric exactly when it is planned. */
  lemma GeneratedSysinfoUsesFabric(lab: Key, node: string, slot: string, nodeType: string, model: string, sfm: Option<string>,
                                   card: string, mdas: Option<seq<string>>, xioms: string)
    requires NoSpace(model) && (VmTypeOf(node) == VSIM || VmTypeOf(node) == MAGC)
    ensures RefersToFabric(node, DefaultSysinfo(nodeType, model, sfm, slot, card, mdas, xioms))
            <==> IsPlanned(lab, node, model, FabricName(lab.name, node))
  {
    SysinfoRoundTrip(nodeType, model, sfm, slot, card, mdas, xioms);
    PlannedWhenDistributed(lab, node, model);
  }
}
