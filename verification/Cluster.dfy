/** The lab controller and the API server as one state machine. A step is one API call of the controller,
    with its outcome, or one action of somebody else: users creating and deleting labs, the garbage
    collector deleting LANs and bridges, other controllers editing their own finalizers. Those actions
    may come between any two calls of a reconcile. One reconcile runs at a time. */
module Cluster {
  import opened Wrappers
  import opened Text
  import opened Names
  import opened Allocator

  const FinalizerName := "lab.kubenetlab.net/finalizer"

  // ---- stored objects ----

  datatype Key = Key(ns: string, name: string)

  datatype Connector = Connector(node: string, port: Option<string>, mac: Option<string>)

  /** What the bridges of a node depend on: whether it is a vsim, vsri or magc, and its chassis model. */
  datatype NodeSpec = Router(model: string) | OtherNode

  datatype Lab = Lab(
    uid: nat, finalizers: set<string>, deleting: bool,
    links: map<string, seq<Connector>>, nodes: map<string, NodeSpec>)

  datatype Owner = Owner(kind: string, name: string, uid: nat, controller: bool)

  datatype Lan = Lan(
    uid: nat, owners: seq<Owner>, vni: nat, spokes: seq<string>,
    finalizers: set<string>, deleting: bool)

  /** A network attachment definition; `index` is its bridge index label. */
  datatype Nad = Nad(owners: seq<Owner>, index: Option<string>)

  datatype Api = Api(labs: map<Key, Lab>, lans: map<Key, Lan>, nads: map<Key, Nad>, nextUid: nat)

  // ---- the controller's position inside a reconcile ----

  /** A bridge still to be ensured, with the index it gets when it has to be created. */
  datatype Bridge = Bridge(key: Key, index: nat)

  /** `key` and `lab` are the lab as the reconcile last read it. `used` lists the VNIs of the links done,
      in sorted link order; `lan` is the LAN object in memory, `stored` when it was read from the server. */
  datatype Pc =
    | Idle
    | AddFinalizer(key: Key, lab: Lab)
    | ListVnis(key: Key, lab: Lab)
    | GetLan(key: Key, lab: Lab, vnis: seq<nat>, used: seq<nat>)
    | PutLan(key: Key, lab: Lab, vnis: seq<nat>, used: seq<nat>, lan: Lan, stored: bool)
    | CreateLan(key: Key, lab: Lab, vnis: seq<nat>, used: seq<nat>, lan: Lan, stored: bool)
    | PickNode(key: Key, lab: Lab, used: seq<nat>, nodes: set<string>)
    | PutNad(key: Key, lab: Lab, used: seq<nat>, nodes: set<string>, plan: seq<Bridge>)
    | CreateNad(key: Key, lab: Lab, used: seq<nat>, nodes: set<string>, plan: seq<Bridge>)
    | PickLink(key: Key, lab: Lab, todo: set<string>)
    | UpdateLan(key: Key, lab: Lab, todo: set<string>, link: string, found: Option<Lan>)
    | DropFinalizer(key: Key, lab: Lab)

  datatype State = State(api: Api, pc: Pc)

  /** Done: the call took effect and returned. Failed: an error, without effect. Lost: it took effect
      but the caller sees an error. */
  datatype Outcome = Done | Failed | Lost

  datatype Event =
    | NewLab(key: Key, links: map<string, seq<Connector>>, nodes: map<string, NodeSpec>)
    | DeleteLab(key: Key)
    | DeleteLan(key: Key)
    | EditLan(key: Key, finalizers: set<string>)
    | DeleteNad(key: Key)
    | Start(key: Key)
    | Call(outcome: Outcome)
    | ForNode(node: string, outcome: Outcome)
    | ForLink(link: string, outcome: Outcome)
    | Stop

  predicate Environment(e: Event) {
    e.NewLab? || e.DeleteLab? || e.DeleteLan? || e.EditLan? || e.DeleteNad?
  }

  // ---- owners ----

  function LabRef(key: Key, lab: Lab): Owner { Owner("Lab", key.name, lab.uid, true) }

  predicate SameReferent(a: Owner, b: Owner) { a.kind == b.kind && a.name == b.name }

  /** metav1.GetControllerOf. */
  function ControllerOf(owners: seq<Owner>): Option<Owner> {
    if owners == [] then None
    else if owners[0].controller then Some(owners[0])
    else ControllerOf(owners[1..])
  }

  function Upsert(owners: seq<Owner>, ref: Owner): seq<Owner> {
    if owners == [] then [ref]
    else if SameReferent(owners[0], ref) then [ref] + owners[1..]
    else [owners[0]] + Upsert(owners[1..], ref)
  }

  /** SetControllerReference: an object another owner controls is refused; the comparison ignores UIDs. */
  function SetController(owners: seq<Owner>, ref: Owner): Option<seq<Owner>> {
    match ControllerOf(owners)
    case Some(c) => if SameReferent(c, ref) then Some(Upsert(owners, ref)) else None
    case None => Some(Upsert(owners, ref))
  }

  /** IsOwnedbyLab compares UIDs only. */
  predicate OwnedBy(owners: seq<Owner>, uid: nat) {
    exists i | 0 <= i < |owners| :: owners[i].uid == uid
  }

  // ---- names and numbers of a lab's objects ----

  function LanKey(lab: Key, link: string): Key { Key(lab.ns, LanName(lab.name, link)) }

  function Spokes(vni: nat, n: nat): seq<string> { seq(n, (i: nat) => SpokeName(vni, i)) }

  ghost function LinkNames(lab: Lab): seq<string> { Sorted(lab.links.Keys) }

  ghost function CurrentLink(lab: Lab, used: seq<nat>): string
    requires |used| < |lab.links|
  {
    LinkNames(lab)[|used|]
  }

  function UsedVnis(lans: map<Key, Lan>): set<nat> { set k | k in lans :: lans[k].vni }

  function LabelIndex(nad: Nad): Option<nat> {
    if nad.index.None? then None
    else match Atoi(nad.index.value)
      case Some(i) => if i >= 0 then Some(i) else None
      case None => None
  }

  /** Some bridge index label is not a number: listing the indexes fails. */
  predicate BadLabel(nads: map<Key, Nad>) {
    exists k | k in nads :: nads[k].index.Some? && LabelIndex(nads[k]).None?
  }

  function UsedIndexes(nads: map<Key, Nad>): set<nat> {
    set k | k in nads && LabelIndex(nads[k]).Some? :: LabelIndex(nads[k]).value
  }

  /** The bridges SRVM.Ensure wants for a router: none when the chassis is integrated, a fabric
      otherwise, and a data fabric besides for a MAG-c. */
  function BridgePlan(lab: Key, node: string, model: string, indexes: seq<nat>): seq<Bridge>
    requires |indexes| == BridgeCount(node)
  {
    if IsIntegrated(model) then []
    else [Bridge(Key(lab.ns, FabricName(lab.name, node)), indexes[0])]
         + if VmTypeOf(node) == MAGC
           then [Bridge(Key(lab.ns, DataFabricName(lab.name, node)), indexes[1])] else []
  }

  function BridgeCount(node: string): nat { if VmTypeOf(node) == MAGC then 2 else 1 }

  // ---- what the API server does with writes ----

  /** An object marked for deletion goes away with its last finalizer. */
  function StoreLab(labs: map<Key, Lab>, key: Key, lab: Lab): map<Key, Lab> {
    if lab.deleting && lab.finalizers == {} then labs - {key} else labs[key := lab]
  }

  function StoreLan(lans: map<Key, Lan>, key: Key, lan: Lan): map<Key, Lan> {
    if lan.deleting && lan.finalizers == {} then lans - {key} else lans[key := lan]
  }

  /** Update is refused when the object changed since it was read. */
  function TryUpdateLab(api: Api, key: Key, read: Lab, finalizers: set<string>): Option<Api> {
    if key in api.labs && api.labs[key] == read
    then Some(api.(labs := StoreLab(api.labs, key, read.(finalizers := finalizers)))) else None
  }

  function TryUpdateLan(api: Api, key: Key, read: Lan, finalizers: set<string>): Option<Api> {
    if key in api.lans && api.lans[key] == read
    then Some(api.(lans := StoreLan(api.lans, key, read.(finalizers := finalizers)))) else None
  }

  /** Create is refused when the name is taken, and for an object that was read from the server. */
  function TryCreateLan(api: Api, key: Key, lan: Lan, stored: bool): Option<Api> {
    if stored || key in api.lans then None
    else Some(api.(lans := api.lans[key := lan.(uid := api.nextUid)], nextUid := api.nextUid + 1))
  }

  function TryCreateNad(api: Api, key: Key, nad: Nad): Option<Api> {
    if key in api.nads then None else Some(api.(nads := api.nads[key := nad]))
  }

  // ---- steps ----

  function EnvironmentStep(api: Api, e: Event): Api
    requires Environment(e)
  {
    match e
    case NewLab(key, links, nodes) =>
      if key in api.labs then api
      else api.(labs := api.labs[key := Lab(api.nextUid, {}, false, links, nodes)], nextUid := api.nextUid + 1)
    case DeleteLab(key) =>
      if key in api.labs
      then api.(labs := StoreLab(api.labs, key, api.labs[key].(deleting := true))) else api
    case DeleteLan(key) =>
      if key in api.lans
      then api.(lans := StoreLan(api.lans, key, api.lans[key].(deleting := true))) else api
    case EditLan(key, finalizers) =>
      if key in api.lans && (FinalizerName in finalizers <==> FinalizerName in api.lans[key].finalizers)
      then api.(lans := StoreLan(api.lans, key, api.lans[key].(finalizers := finalizers))) else api
    case DeleteNad(key) => api.(nads := api.nads - {key})
  }

  /** Reconcile reads the lab and decides what to do with it. */
  ghost function Begin(api: Api, key: Key): Pc {
    if key !in api.labs then Idle
    else
      var lab := api.labs[key];
      if !lab.deleting then
        if FinalizerName !in lab.finalizers then AddFinalizer(key, lab) else ListVnis(key, lab)
      else if FinalizerName in lab.finalizers then NextLink(key, lab, lab.links.Keys)
      else Idle
  }

  /** The reconcile goes on with the lab it read, or has returned. */
  predicate Continues(pc: Pc, pc': Pc) {
    pc'.Idle? || (!pc.Idle? && pc'.key == pc.key && pc'.lab == pc.lab)
  }

  ghost function NextLink(key: Key, lab: Lab, todo: set<string>): (pc': Pc)
    ensures !pc'.Idle? && pc'.key == key && pc'.lab == lab
  {
    if todo == {} then DropFinalizer(key, lab) else PickLink(key, lab, todo)
  }

  /** After the links listed in `used`: the next link, or the nodes. */
  ghost function Linked(key: Key, lab: Lab, vnis: seq<nat>, used: seq<nat>): (pc': Pc)
    ensures !pc'.Idle? && pc'.key == key && pc'.lab == lab
  {
    if |used| < |lab.links| then GetLan(key, lab, vnis, used) else PickNode(key, lab, used, lab.nodes.Keys)
  }

  ghost function Bridged(key: Key, lab: Lab, used: seq<nat>, nodes: set<string>, plan: seq<Bridge>): (pc': Pc)
    ensures !pc'.Idle? && pc'.key == key && pc'.lab == lab
  {
    if plan == [] then PickNode(key, lab, used, nodes) else PutNad(key, lab, used, nodes, plan)
  }

  /** The LAN EnsureLinks works on for a link: the stored one, or a new one, with the link's spokes
      appended in memory and the lab set as its controller. */
  ghost function LocalLan(api: Api, key: Key, lab: Lab, link: string, vni: nat): Option<(Lan, bool)>
    requires link in lab.links
  {
    var stored := LanKey(key, link) in api.lans;
    var lan := if stored then api.lans[LanKey(key, link)] else Lan(0, [], vni, [], {FinalizerName}, false);
    match SetController(lan.owners, LabRef(key, lab))
    case None => None
    case Some(owners) =>
      Some((lan.(owners := owners, spokes := lan.spokes + Spokes(lan.vni, |lab.links[link]|)), stored))
  }

  /** The state after a write that ends in `after` when it takes effect, and in `pc` when the caller sees success. */
  ghost function Written(api: Api, o: Outcome, after: Option<Api>, pc: Pc): State {
    if o.Failed? || after.None? then State(api, Idle)
    else if o.Lost? then State(after.value, Idle)
    else State(after.value, pc)
  }

  ghost function AddFinalizerCall(api: Api, pc: Pc, o: Outcome): State
    requires pc.AddFinalizer?
  {
    var finalizers := pc.lab.finalizers + {FinalizerName};
    Written(api, o, TryUpdateLab(api, pc.key, pc.lab, finalizers), ListVnis(pc.key, pc.lab.(finalizers := finalizers)))
  }

  ghost function ListVnisCall(api: Api, pc: Pc, o: Outcome): (pc': Pc)
    requires pc.ListVnis?
    ensures Continues(pc, pc')
  {
    match Allocate(UsedVnis(api.lans), |pc.lab.links|)
    case Some(vnis) => if o.Done? then Linked(pc.key, pc.lab, vnis, []) else Idle
    case None => Idle
  }

  ghost function GetLanCall(api: Api, pc: Pc, o: Outcome): (pc': Pc)
    requires pc.GetLan?
    ensures Continues(pc, pc')
  {
    if !o.Done? || |pc.used| >= |pc.lab.links| || |pc.used| >= |pc.vnis| then Idle
    else match LocalLan(api, pc.key, pc.lab, CurrentLink(pc.lab, pc.used), pc.vnis[|pc.used|])
      case Some((lan, stored)) => PutLan(pc.key, pc.lab, pc.vnis, pc.used, lan, stored)
      case None => Idle
  }

  ghost function PutLanCall(api: Api, pc: Pc, o: Outcome): (pc': Pc)
    requires pc.PutLan?
    ensures Continues(pc, pc')
  {
    if !o.Done? || |pc.used| >= |pc.lab.links| then Idle
    else
      var k := LanKey(pc.key, CurrentLink(pc.lab, pc.used));
      if k !in api.lans then CreateLan(pc.key, pc.lab, pc.vnis, pc.used, pc.lan, pc.stored)
      else if OwnedBy(api.lans[k].owners, pc.lab.uid) then Linked(pc.key, pc.lab, pc.vnis, pc.used + [pc.lan.vni])
      else Idle
  }

  ghost function CreateLanCall(api: Api, pc: Pc, o: Outcome): (s': State)
    requires pc.CreateLan?
    ensures Continues(pc, s'.pc)
  {
    if |pc.used| >= |pc.lab.links| then State(api, Idle)
    else Written(api, o, TryCreateLan(api, LanKey(pc.key, CurrentLink(pc.lab, pc.used)), pc.lan, pc.stored),
                 Linked(pc.key, pc.lab, pc.vnis, pc.used + [pc.lan.vni]))
  }

  ghost function PutNadCall(api: Api, pc: Pc, o: Outcome): (pc': Pc)
    requires pc.PutNad?
    ensures Continues(pc, pc')
  {
    if !o.Done? || pc.plan == [] then Idle
    else if pc.plan[0].key !in api.nads then CreateNad(pc.key, pc.lab, pc.used, pc.nodes, pc.plan)
    else if OwnedBy(api.nads[pc.plan[0].key].owners, pc.lab.uid)
    then Bridged(pc.key, pc.lab, pc.used, pc.nodes, pc.plan[1..])
    else Idle
  }

  ghost function CreateNadCall(api: Api, pc: Pc, o: Outcome): (s': State)
    requires pc.CreateNad?
    ensures Continues(pc, s'.pc)
  {
    if pc.plan == [] then State(api, Idle)
    else Written(api, o, TryCreateNad(api, pc.plan[0].key, NewNad(pc.key, pc.lab, pc.plan[0].index)),
                 Bridged(pc.key, pc.lab, pc.used, pc.nodes, pc.plan[1..]))
  }

  /** NewFBBridgeNetworkDef with the lab as its controller. */
  function NewNad(key: Key, lab: Lab, index: nat): Nad { Nad([LabRef(key, lab)], Some(Itoa(index))) }

  /** A LAN that was not found is updated all the same, as an object without a name, which fails. */
  ghost function UpdateLanCall(api: Api, pc: Pc, o: Outcome): (s': State)
    requires pc.UpdateLan?
    ensures Continues(pc, s'.pc)
  {
    if pc.found.None? then State(api, Idle)
    else Written(api, o,
                 TryUpdateLan(api, LanKey(pc.key, pc.link), pc.found.value, pc.found.value.finalizers - {FinalizerName}),
                 NextLink(pc.key, pc.lab, pc.todo - {pc.link}))
  }

  ghost function DropFinalizerCall(api: Api, pc: Pc, o: Outcome): (s': State)
    requires pc.DropFinalizer?
    ensures Continues(pc, s'.pc)
  {
    Written(api, o, TryUpdateLab(api, pc.key, pc.lab, pc.lab.finalizers - {FinalizerName}), Idle)
  }

  ghost function CallStep(s: State, o: Outcome): (s': State)
    ensures Continues(s.pc, s'.pc) || s.pc.AddFinalizer?
  {
    if s.pc.AddFinalizer? then AddFinalizerCall(s.api, s.pc, o)
    else if s.pc.ListVnis? then State(s.api, ListVnisCall(s.api, s.pc, o))
    else if s.pc.GetLan? then State(s.api, GetLanCall(s.api, s.pc, o))
    else if s.pc.PutLan? then State(s.api, PutLanCall(s.api, s.pc, o))
    else if s.pc.CreateLan? then CreateLanCall(s.api, s.pc, o)
    else if s.pc.PutNad? then State(s.api, PutNadCall(s.api, s.pc, o))
    else if s.pc.CreateNad? then CreateNadCall(s.api, s.pc, o)
    else if s.pc.UpdateLan? then UpdateLanCall(s.api, s.pc, o)
    else if s.pc.DropFinalizer? then DropFinalizerCall(s.api, s.pc, o)
    else s
  }

  /** SRVM.Ensure up to the list of free bridge indexes; other node types have no bridges. */
  ghost function NodeCall(api: Api, pc: Pc, node: string, o: Outcome): (pc': Pc)
    requires pc.PickNode? && node in pc.nodes && node in pc.lab.nodes
    ensures Continues(pc, pc')
  {
    var rest := pc.nodes - {node};
    match pc.lab.nodes[node]
    case OtherNode => PickNode(pc.key, pc.lab, pc.used, rest)
    case Router(model) =>
      if !o.Done? || BadLabel(api.nads) then Idle
      else match Allocate(UsedIndexes(api.nads), BridgeCount(node))
        case None => Idle
        case Some(indexes) =>
          AllocateExact(UsedIndexes(api.nads), BridgeCount(node));
          Bridged(pc.key, pc.lab, pc.used, rest, BridgePlan(pc.key, node, model, indexes))
  }

  /** deleteExternalResources looks up the LAN of the next link, in whatever order the map yields them. */
  ghost function LinkCall(api: Api, pc: Pc, link: string, o: Outcome): (pc': Pc)
    requires pc.PickLink?
    ensures Continues(pc, pc')
  {
    if !o.Done? then Idle
    else
      var k := LanKey(pc.key, link);
      UpdateLan(pc.key, pc.lab, pc.todo, link, if k in api.lans then Some(api.lans[k]) else None)
  }

  ghost function Next(s: State, e: Event): State {
    if Environment(e) then State(EnvironmentStep(s.api, e), s.pc)
    else match e
      case Start(key) => if s.pc.Idle? then State(s.api, Begin(s.api, key)) else s
      case Call(o) => CallStep(s, o)
      case ForNode(node, o) =>
        if s.pc.PickNode? && node in s.pc.nodes && node in s.pc.lab.nodes
        then State(s.api, NodeCall(s.api, s.pc, node, o)) else s
      case ForLink(link, o) =>
        if s.pc.PickLink? && link in s.pc.todo then State(s.api, LinkCall(s.api, s.pc, link, o)) else s
      case Stop => State(s.api, Idle)
  }

  /** A whole run: any sequence of events. */
  ghost function Run(s: State, es: seq<Event>): State
    decreases |es|
  {
    if es == [] then s else Next(Run(s, es[..|es| - 1]), es[|es| - 1])
  }

  lemma {:induction false} RunConcat(s: State, es: seq<Event>, fs: seq<Event>)
    ensures Run(s, es + fs) == Run(Run(s, es), fs)
    decreases |fs|
  {
    if fs == [] {
      assert es + fs == es;
    } else {
      assert (es + fs)[..|es + fs| - 1] == es + fs[..|fs| - 1];
      RunConcat(s, es, fs[..|fs| - 1]);
    }
  }

  /** Where a history starts: no labs, no reconcile; LANs and bridges of others may exist, with VNIs and
      bridge indexes of their own, none carrying the lab finalizer. */
  ghost predicate Init(s: State) {
    && s.pc.Idle? && s.api.labs == map[]
    && (forall k | k in s.api.lans ::
          s.api.lans[k].uid < s.api.nextUid && FinalizerName !in s.api.lans[k].finalizers)
    && (forall k | k in s.api.lans :: forall i | 0 <= i < |s.api.lans[k].owners| :: s.api.lans[k].owners[i].uid < s.api.nextUid)
    && (forall k | k in s.api.nads :: forall i | 0 <= i < |s.api.nads[k].owners| :: s.api.nads[k].owners[i].uid < s.api.nextUid)
    && (forall j, k | j in s.api.lans && k in s.api.lans && j != k ::
          s.api.lans[j].vni != s.api.lans[k].vni && s.api.lans[j].uid != s.api.lans[k].uid)
    && (forall j, k | j in s.api.nads && k in s.api.nads && j != k ::
          LabelIndex(s.api.nads[j]).Some? ==> LabelIndex(s.api.nads[j]) != LabelIndex(s.api.nads[k]))
  }
}
