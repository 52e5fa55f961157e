/** The maps a successful EnsureLinks has built agree with what is stored, and a rerun builds the same maps. */
module Agreement {
  import opened Text
  import opened Names
  import opened Cluster
  import opened ClusterInvariant
  import opened ClusterSteps
  import opened Collisions
  import opened Noted
  import S = Spokes

  /** The maps EnsureLinks has built once it has passed all links, with the VNIs it noted. */
  ghost function Built(lab: Lab, used: seq<nat>): S.Maps
    requires |used| == |LinkNames(lab)|
  {
    assert forall n | n in LinkNames(lab) :: n in Elems(LinkNames(lab));
    S.AddLinks(lab.links, LinkNames(lab), used)
  }

  /** The VNIs of a lab's links differ. */
  lemma UsedDistinct(s: State, key: Key, uid: nat, used: seq<nat>)
    requires Inv(s) && Present(s) && Ensured(s, key, uid, used)
    ensures |used| == |LinkNames(s.pc.lab)| && S.Distinct(used) && S.Distinct(LinkNames(s.pc.lab))
  {
    LinkNamesDistinct(s.pc.lab);
    var names := LinkNames(s.pc.lab);
    forall i, j | 0 <= i < j < |used|
      ensures used[i] != used[j]
    {
      EnsuredLan(s, key, uid, used, i);
      EnsuredLan(s, key, uid, used, j);
      if LanKey(key, names[i]) == LanKey(key, names[j]) {
        LanKeyInjective(key, names[i], names[j]);
      }
    }
  }

  /** Once all links are passed, every spoke leads back to its own connector and link: no entry of the maps has been
      overwritten, whatever names collide and whatever is deleted meanwhile. */
  lemma MapsLeadBack(s: State, j: nat, i: nat)
    requires Inv(s) && NotedApart(s) && Networking(s.pc)
    requires j < |LinkNames(s.pc.lab)| && LinkNames(s.pc.lab)[j] in s.pc.lab.links
    requires i < |s.pc.lab.links[LinkNames(s.pc.lab)[j]]|
    ensures |s.pc.used| == |LinkNames(s.pc.lab)|
    ensures var link := LinkNames(s.pc.lab)[j];
            S.Leads(Built(s.pc.lab, s.pc.used), SpokeName(s.pc.used[j], i), s.pc.lab.links[link][i], link)
  {
    LinkNamesDistinct(s.pc.lab);
    S.SpokeLeadsBack(s.pc.lab.links, LinkNames(s.pc.lab), s.pc.used, j, i);
  }

  /** Every connector's spoke stands at its place in the stored spoke list of its link's LAN, and the maps lead from
      that spoke back to the connector and the link: no entry has been overwritten. */
  lemma MapsAgreeWithStoredSpokes(s: State, key: Key, uid: nat, used: seq<nat>, j: nat, i: nat)
    requires Inv(s) && Present(s) && Ensured(s, key, uid, used)
    requires j < |LinkNames(s.pc.lab)| && LinkNames(s.pc.lab)[j] in s.pc.lab.links
    requires i < |s.pc.lab.links[LinkNames(s.pc.lab)[j]]|
    ensures |used| == |LinkNames(s.pc.lab)|
    ensures var link := LinkNames(s.pc.lab)[j];
            var k := LanKey(key, link);
            && k in s.api.lans && i < |s.api.lans[k].spokes| == |s.pc.lab.links[link]|
            && S.Leads(Built(s.pc.lab, used), s.api.lans[k].spokes[i], s.pc.lab.links[link][i], link)
  {
    UsedDistinct(s, key, uid, used);
    EnsuredLan(s, key, uid, used, j);
    var k := LanKey(key, LinkNames(s.pc.lab)[j]);
    LinkSpokes(s.api, key, k, LinkNames(s.pc.lab)[j]);
    S.SpokeLeadsBack(s.pc.lab.links, LinkNames(s.pc.lab), used, j, i);
  }

  lemma LinkSpokes(api: Api, key: Key, k: Key, link: string)
    requires OwnedLans(api) && k in api.lans && key in api.labs && OwnedBy(api.lans[k].owners, api.labs[key].uid)
    requires k == LanKey(key, link) && link in api.labs[key].links
    ensures api.lans[k].spokes == Spokes(api.lans[k].vni, |api.labs[key].links[link]|)
  {
    assert IsLanOf(key, api.labs[key], k, api.lans[k]);
    var other :| other in api.labs[key].links && k == LanKey(key, other)
                 && api.lans[k].spokes == Spokes(api.lans[k].vni, |api.labs[key].links[other]|);
    LanKeyInjective(key, link, other);
  }

  /** Whenever EnsureLinks succeeds again, its maps are the same, although it drew a fresh list of VNIs. */
  lemma RerunRebuildsMaps(s: State, es: seq<Event>, key: Key, uid: nat, first: seq<nat>, again: seq<nat>)
    requires Inv(s) && Guarded(s.api) && Present(s) && CollisionFree(s, es)
    requires Ensured(s, key, uid, first) && Ensured(Run(s, es), key, uid, again)
    requires |first| == |LinkNames(s.pc.lab)| && |again| == |LinkNames(Run(s, es).pc.lab)|
    ensures Built(Run(s, es).pc.lab, again) == Built(s.pc.lab, first)
  {
    RerunFindsSameVnis(s, es, key, uid, first, again);
  }
}
