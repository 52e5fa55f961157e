/** The API server as the controller sees it. Before every call others may act, and the call may fail, with or without
    effect; what will happen around each call is laid down in a script the controller does not see. A ghost history records
    the run of the cluster state machine so far, turn by turn of the script; `pc` is the controller's position in it. */
module Server {
  import opened Wrappers
  import opened Cluster

  datatype Reply<+T> = Reply(value: T) | Error

  function Lookup<K, V>(m: map<K, V>, k: K): Option<V> { if k in m then Some(m[k]) else None }

  // ---- what happens around the calls ----

  /** An action of somebody else. */
  type Action = e: Event | Environment(e) witness DeleteNad(Key("", ""))

  /** One call: first others act, then the call has its outcome. */
  datatype Turn = Turn(others: seq<Action>, outcome: Outcome)

  /** The turns of the controller's calls, in order; beyond the end every call fails. */
  type Script = seq<Turn>

  function TurnAt(script: Script, n: nat): Turn { if n < |script| then script[n] else Turn([], Failed) }

  /** From call number `from` up to call number `to` nobody else acts and no call fails. */
  ghost predicate Smooth(script: Script, from: nat, to: nat) {
    forall n | from <= n < to :: TurnAt(script, n) == Turn([], Done)
  }

  lemma SmoothParts(script: Script, from: nat, mid: nat, to: nat)
    requires from <= mid <= to
    ensures Smooth(script, from, to) ==> Smooth(script, from, mid) && Smooth(script, mid, to)
  {
  }

  // ---- histories ----

  /** How far a history has come: the events so far, and the number of calls made. */
  datatype Log = Log(trace: seq<Event>, calls: nat)

  /** From history a to history b only others acted. */
  ghost predicate Interfered(a: seq<Event>, b: seq<Event>) {
    a <= b && forall i | |a| <= i < |b| :: Environment(b[i])
  }

  /** From a to b the reconcile was neither begun nor given up. */
  ghost predicate WentOn(a: Log, b: Log) {
    a.trace <= b.trace && a.calls <= b.calls && forall i | |a.trace| <= i < |b.trace| :: !b.trace[i].Start? && !b.trace[i].Stop?
  }

  /** What a write with outcome o leaves stored, when `after` is the state it leads to, if it is accepted. */
  ghost predicate Wrote(before: Api, o: Outcome, after: Option<Api>, now: Api, ok: bool) {
    && now == (if o.Failed? || after.None? then before else after.value)
    && ok == (o.Done? && after.Some?)
  }

  /** A moment of a run: the state, the number of calls recorded, and how many others have acted before the next one. */
  datatype Moment = Moment(state: State, calls: nat, acted: nat)

  /** The event stands for a call of the controller: all of its events do but beginning and giving up a reconcile, and
      passing a node that has no bridges. */
  predicate Asks(pc: Pc, e: Event) {
    || e.Call? || e.ForLink?
    || (e.ForNode? && !(pc.PickNode? && e.node in pc.lab.nodes && pc.lab.nodes[e.node].OtherNode?))
  }

  /** The event is the one the script has next: somebody's action, or a call with its outcome. */
  ghost predicate Follows(script: Script, a: Moment, e: Event, b: Moment) {
    var turn := TurnAt(script, a.calls);
    if Environment(e) then a.acted < |turn.others| && turn.others[a.acted] == e && b.calls == a.calls && b.acted == a.acted + 1
    else if Asks(a.state.pc, e) then a.acted == |turn.others| && e.outcome == turn.outcome && b.calls == a.calls + 1 && b.acted == 0
    else b.calls == a.calls && b.acted == a.acted
  }

  ghost predicate StepAt(script: Script, history: seq<Moment>, trace: seq<Event>, i: nat)
    requires i < |trace| && |history| == |trace| + 1
  {
    Next(history[i].state, trace[i]) == history[i + 1].state && Follows(script, history[i], trace[i], history[i + 1])
  }

  /** The moments a run goes through. */
  ghost predicate IsRun(script: Script, start: State, trace: seq<Event>, history: seq<Moment>) {
    && |history| == |trace| + 1 && history[0] == Moment(start, 0, 0)
    && forall i | 0 <= i < |trace| :: StepAt(script, history, trace, i)
  }

  lemma {:induction false} IsRunReaches(script: Script, start: State, trace: seq<Event>, history: seq<Moment>)
    requires IsRun(script, start, trace, history)
    ensures Run(start, trace) == history[|trace|].state
    decreases |trace|
  {
    if trace != [] {
      var n := |trace| - 1;
      assert StepAt(script, history, trace, n);
      var trace', history' := trace[..n], history[..n + 1];
      forall i | 0 <= i < |trace'|
        ensures StepAt(script, history', trace', i)
      {
        assert StepAt(script, history, trace, i);
      }
      IsRunReaches(script, start, trace', history');
    }
  }

  lemma RunGrows(script: Script, start: State, trace: seq<Event>, history: seq<Moment>, e: Event, m: Moment)
    requires IsRun(script, start, trace, history)
    requires Next(history[|trace|].state, e) == m.state && Follows(script, history[|trace|], e, m)
    ensures IsRun(script, start, trace + [e], history + [m])
  {
    var trace', history' := trace + [e], history + [m];
    forall i | 0 <= i < |trace'|
      ensures StepAt(script, history', trace', i)
    {
      assert i < |trace| ==> StepAt(script, history, trace, i);
    }
  }

  class ApiServer {
    var labs: map<Key, Lab>
    var lans: map<Key, Lan>
    var nads: map<Key, Nad>
    var nextUid: nat
    var calls: nat
    const script: Script
    ghost const start: State
    ghost var trace: seq<Event>
    ghost var history: seq<Moment>
    ghost var pc: Pc

    function Stored(): Api
      reads this
    {
      Api(labs, lans, nads, nextUid)
    }

    ghost function Past(): Log
      reads this
    {
      Log(trace, calls)
    }

    /** The history leads to `before`, with this many calls recorded, and others having acted before the next. */
    ghost predicate Pending(before: Api, recorded: nat, acted: nat)
      reads this
    {
      IsRun(script, start, trace, history) && history[|trace|] == Moment(State(before, pc), recorded, acted)
    }

    /** The history leads to what is stored, and shows every call. */
    ghost predicate Valid()
      reads this
    {
      Pending(Stored(), calls, 0)
    }

    /** A call was made with outcome o, in state `before`, that the history does not show yet. */
    ghost predicate Asked(before: Api, o: Outcome)
      reads this
    {
      && calls > 0 && o == TurnAt(script, calls - 1).outcome
      && Pending(before, calls - 1, |TurnAt(script, calls - 1).others|)
    }

    /** Since the first n calls nobody else acted and no call failed. */
    ghost predicate SmoothSince(n: nat)
      reads this
    {
      Smooth(script, n, calls)
    }

    constructor (api: Api, script: Script)
      ensures Valid() && Stored() == api && pc.Idle? && trace == [] && calls == 0
      ensures start == State(api, Idle) && this.script == script
    {
      labs, lans, nads, nextUid, calls := api.labs, api.lans, api.nads, api.nextUid, 0;
      this.script, start, trace, history, pc := script, State(api, Idle), [], [Moment(State(api, Idle), 0, 0)], Idle;
    }

    ghost method Extend(before: Api, recorded: nat, acted: nat, e: Event, m: Moment)
      requires Pending(before, recorded, acted)
      requires m.state == Next(State(before, pc), e) && Follows(script, Moment(State(before, pc), recorded, acted), e, m)
      modifies this`trace, this`history, this`pc
      ensures IsRun(script, start, trace, history) && history[|trace|] == m
      ensures trace == old(trace) + [e] && history == old(history) + [m] && pc == m.state.pc
    {
      RunGrows(script, start, trace, history, e, m);
      pc := m.state.pc;
      trace, history := trace + [e], history + [m];
    }

    /** Records the call just made, with the outcome it had. */
    ghost method Record(before: Api, e: Event)
      requires !Environment(e) && Asks(pc, e) && Asked(before, e.outcome) && Next(State(before, pc), e).api == Stored()
      modifies this`trace, this`history, this`pc
      ensures Valid() && trace == old(trace) + [e] && pc == Next(State(before, old(pc)), e).pc
    {
      Extend(before, calls - 1, |TurnAt(script, calls - 1).others|, e, Moment(Next(State(before, pc), e), calls, 0));
    }

    /** Records an event of the controller that is no call: the begin or end of a reconcile, or a node without bridges. */
    ghost method Note(e: Event)
      requires !Environment(e) && !Asks(pc, e) && Valid() && Next(State(Stored(), pc), e).api == Stored()
      modifies this`trace, this`history, this`pc
      ensures Valid() && trace == old(trace) + [e] && pc == Next(State(Stored(), old(pc)), e).pc
      ensures history == old(history) + [Moment(State(Stored(), pc), calls, 0)]
    {
      Extend(Stored(), calls, 0, e, Moment(Next(State(Stored(), pc), e), calls, 0));
    }

    lemma Reaches(before: Api, recorded: nat, acted: nat)
      requires Pending(before, recorded, acted)
      ensures Run(start, trace) == State(before, pc)
    {
      IsRunReaches(script, start, trace, history);
    }

    /** The stored state and the controller's position are those the recorded run leads to. */
    lemma IsReached()
      requires Valid()
      ensures Run(start, trace) == State(Stored(), pc)
    {
      IsRunReaches(script, start, trace, history);
    }

    method Store(api: Api)
      modifies this`labs, this`lans, this`nads, this`nextUid
      ensures Stored() == api
    {
      labs, lans, nads, nextUid := api.labs, api.lans, api.nads, api.nextUid;
    }

    /** Users, the garbage collector and other controllers act, as the script has it before the next call. */
    method Interfere()
      requires Valid()
      modifies this`labs, this`lans, this`nads, this`nextUid, this`trace, this`history, this`pc
      ensures Pending(Stored(), calls, |TurnAt(script, calls).others|) && pc == old(pc)
      ensures trace == old(trace) + TurnAt(script, calls).others
      ensures TurnAt(script, calls).others == [] ==> Stored() == old(Stored())
    {
      var others := TurnAt(script, calls).others;
      for i := 0 to |others|
        invariant Pending(Stored(), calls, i) && pc == old(pc) && trace == old(trace) + others[..i]
        invariant i == 0 ==> Stored() == old(Stored())
      {
        ghost var before := Stored();
        Store(EnvironmentStep(Stored(), others[i]));
        Extend(before, calls, i, others[i], Moment(State(Stored(), pc), calls, i + 1));
      }
    }

    lemma AreActions(a: seq<Event>, others: seq<Action>)
      ensures Interfered(a, a + others)
    {
    }

    /** The outcome of the next call. */
    method Answer() returns (o: Outcome)
      requires Valid()
      modifies this
      ensures Asked(Stored(), o) && pc == old(pc) && calls == old(calls) + 1 && Interfered(old(trace), trace)
      ensures SmoothSince(old(calls)) ==> o.Done? && Stored() == old(Stored())
    {
      Interfere();
      AreActions(old(trace), TurnAt(script, calls).others);
      o := TurnAt(script, calls).outcome;
      calls := calls + 1;
    }

    // ---- reads ----

    method GetLab(k: Key) returns (reply: Reply<Option<Lab>>, ghost o: Outcome)
      requires Valid()
      modifies this
      ensures Asked(Stored(), o) && pc == old(pc) && calls == old(calls) + 1 && Interfered(old(trace), trace)
      ensures SmoothSince(old(calls)) ==> o.Done? && Stored() == old(Stored())
      ensures reply == if o.Done? then Reply(Lookup(labs, k)) else Error
    {
      var outcome := Answer();
      o := outcome;
      reply := if outcome.Done? then Reply(Lookup(labs, k)) else Error;
    }

    method GetLan(k: Key) returns (reply: Reply<Option<Lan>>, ghost o: Outcome)
      requires Valid()
      modifies this
      ensures Asked(Stored(), o) && pc == old(pc) && calls == old(calls) + 1 && Interfered(old(trace), trace)
      ensures SmoothSince(old(calls)) ==> o.Done? && Stored() == old(Stored())
      ensures reply == if o.Done? then Reply(Lookup(lans, k)) else Error
    {
      var outcome := Answer();
      o := outcome;
      reply := if outcome.Done? then Reply(Lookup(lans, k)) else Error;
    }

    method GetNad(k: Key) returns (reply: Reply<Option<Nad>>, ghost o: Outcome)
      requires Valid()
      modifies this
      ensures Asked(Stored(), o) && pc == old(pc) && calls == old(calls) + 1 && Interfered(old(trace), trace)
      ensures SmoothSince(old(calls)) ==> o.Done? && Stored() == old(Stored())
      ensures reply == if o.Done? then Reply(Lookup(nads, k)) else Error
    {
      var outcome := Answer();
      o := outcome;
      reply := if outcome.Done? then Reply(Lookup(nads, k)) else Error;
    }

    method ListLans() returns (reply: Reply<map<Key, Lan>>, ghost o: Outcome)
      requires Valid()
      modifies this
      ensures Asked(Stored(), o) && pc == old(pc) && calls == old(calls) + 1 && Interfered(old(trace), trace)
      ensures SmoothSince(old(calls)) ==> o.Done? && Stored() == old(Stored())
      ensures reply == if o.Done? then Reply(lans) else Error
    {
      var outcome := Answer();
      o := outcome;
      reply := if outcome.Done? then Reply(lans) else Error;
    }

    method ListNads() returns (reply: Reply<map<Key, Nad>>, ghost o: Outcome)
      requires Valid()
      modifies this
      ensures Asked(Stored(), o) && pc == old(pc) && calls == old(calls) + 1 && Interfered(old(trace), trace)
      ensures SmoothSince(old(calls)) ==> o.Done? && Stored() == old(Stored())
      ensures reply == if o.Done? then Reply(nads) else Error
    {
      var outcome := Answer();
      o := outcome;
      reply := if outcome.Done? then Reply(nads) else Error;
    }

    // ---- writes ----

    /** The write takes effect, or not, as the outcome says. */
    method Write(after: Option<Api>, outcome: Outcome, ghost before: Api) returns (ok: bool)
      requires Asked(before, outcome) && before == Stored()
      modifies this`labs, this`lans, this`nads, this`nextUid
      ensures Asked(before, outcome) && Wrote(before, outcome, after, Stored(), ok)
    {
      ok := outcome.Done? && after.Some?;
      if !outcome.Failed? && after.Some? {
        Store(after.value);
      }
    }

    method UpdateLab(k: Key, read: Lab, finalizers: set<string>) returns (ok: bool, ghost before: Api, ghost o: Outcome)
      requires Valid()
      modifies this
      ensures Asked(before, o) && pc == old(pc) && calls == old(calls) + 1 && Interfered(old(trace), trace)
      ensures SmoothSince(old(calls)) ==> o.Done? && before == old(Stored())
      ensures Wrote(before, o, TryUpdateLab(before, k, read, finalizers), Stored(), ok)
    {
      var outcome := Answer();
      o, before := outcome, Stored();
      ok := Write(TryUpdateLab(Stored(), k, read, finalizers), outcome, before);
    }

    /** An object that was never read has no name, and its update is refused. */
    method UpdateLan(k: Key, read: Option<Lan>, finalizers: set<string>) returns (ok: bool, ghost before: Api, ghost o: Outcome)
      requires Valid()
      modifies this
      ensures Asked(before, o) && pc == old(pc) && calls == old(calls) + 1 && Interfered(old(trace), trace)
      ensures SmoothSince(old(calls)) ==> o.Done? && before == old(Stored())
      ensures Wrote(before, o, if read.Some? then TryUpdateLan(before, k, read.value, finalizers) else None, Stored(), ok)
    {
      var outcome := Answer();
      o, before := outcome, Stored();
      ok := Write(if read.Some? then TryUpdateLan(Stored(), k, read.value, finalizers) else None, outcome, before);
    }

    method CreateLan(k: Key, lan: Lan, stored: bool) returns (ok: bool, ghost before: Api, ghost o: Outcome)
      requires Valid()
      modifies this
      ensures Asked(before, o) && pc == old(pc) && calls == old(calls) + 1 && Interfered(old(trace), trace)
      ensures SmoothSince(old(calls)) ==> o.Done? && before == old(Stored())
      ensures Wrote(before, o, TryCreateLan(before, k, lan, stored), Stored(), ok)
    {
      var outcome := Answer();
      o, before := outcome, Stored();
      ok := Write(TryCreateLan(Stored(), k, lan, stored), outcome, before);
    }

    method CreateNad(k: Key, nad: Nad) returns (ok: bool, ghost before: Api, ghost o: Outcome)
      requires Valid()
      modifies this
      ensures Asked(before, o) && pc == old(pc) && calls == old(calls) + 1 && Interfered(old(trace), trace)
      ensures SmoothSince(old(calls)) ==> o.Done? && before == old(Stored())
      ensures Wrote(before, o, TryCreateNad(before, k, nad), Stored(), ok)
    {
      var outcome := Answer();
      o, before := outcome, Stored();
      ok := Write(TryCreateNad(Stored(), k, nad), outcome, before);
    }
  }
}
