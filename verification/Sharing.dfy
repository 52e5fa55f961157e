/** Cards are shared between labs through the configuration: each field of a card is written at most once. */
module Sharing {
  import opened Text
  import opened Chassis
  import opened LabSpec
  import opened NodePasses
  import opened Defaulting
  import opened Admission

  /** The global configuration. Get copies the struct, not what its pointers and maps refer to. */
  class Config {
    var defaults: OneOf
    var generation: int

    constructor (defaults: OneOf)
      ensures this.defaults == defaults && generation == -1
    {
      this.defaults, generation := defaults, -1;
    }

    method Get() returns (copy: OneOf)
      ensures copy == defaults
    {
      copy := defaults;
    }

    /** A configuration of the generation already stored is not taken over. */
    method Set(defaults: OneOf, generation: int) returns (changed: bool)
      modifies this
      ensures changed == (old(this.generation) != generation)
      ensures this.generation == generation
      ensures this.defaults == if changed then defaults else old(this.defaults)
    {
      if this.generation != generation {
        this.defaults, this.generation := defaults, generation;
        return true;
      }
      return false;
    }
  }

  /** What the operator is asked to do: default a lab, or take over a configuration. */
  datatype Request = Admit(lab: LabObject) | Configure(defaults: OneOf, generation: int)

  ghost predicate RequestWithin(r: Request, cards: set<Card>)
    reads if r.Admit? then {r.lab} else {}
  {
    match r
    case Admit(lab) => Within(lab.nodes, cards)
    case Configure(defaults, _) => OneWithin(defaults, cards)
  }

  /** Over any sequence of labs and configurations, whatever the outcomes, a field of a card goes from nothing to a value at
      most once and never changes after. */
  method Serve(requests: seq<Request>, config: Config, ghost cards: set<Card>)
    requires forall i, j | 0 <= i < j < |requests| && requests[i].Admit? && requests[j].Admit? :: requests[i].lab != requests[j].lab
    requires OneWithin(config.defaults, cards) && forall i | 0 <= i < |requests| :: RequestWithin(requests[i], cards)
    modifies config, cards, set i | 0 <= i < |requests| && requests[i].Admit? :: requests[i].lab
    ensures Stayed(old(Snapshot(cards)), Snapshot(cards))
  {
    for i := 0 to |requests|
      invariant OneWithin(config.defaults, cards) && forall j | i <= j < |requests| :: RequestWithin(requests[j], cards)
      invariant Stayed(old(Snapshot(cards)), Snapshot(cards))
    {
      ghost var before := Snapshot(cards);
      assert RequestWithin(requests[i], cards);
      match requests[i]
      case Configure(defaults, generation) =>
        var changed := config.Set(defaults, generation);
      case Admit(lab) =>
        var defaults := config.Get();
        AdmitOne(lab, defaults, cards);
        StayedThen(old(Snapshot(cards)), before, Snapshot(cards));
    }
  }

  method AdmitOne(lab: LabObject, defaults: OneOf, ghost cards: set<Card>)
    requires Within(lab.nodes, cards) && OneWithin(defaults, cards)
    modifies lab, cards
    ensures Stayed(old(Snapshot(cards)), Snapshot(cards))
  {
    ghost var before, prepared := Snapshot(cards), PreparedNodes(lab.nodes, lab.links, defaults);
    ghost var starts, after;
    var r;
    r, starts, after := Default(lab, defaults, cards);
    AllLabJustifiedStayed(prepared, before, after);
  }

  lemma StayedThen(a: map<Card, Fields>, b: map<Card, Fields>, d: map<Card, Fields>)
    requires Stayed(a, b) && Stayed(b, d)
    ensures Stayed(a, d)
  {
  }
}
