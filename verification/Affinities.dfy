/** Pod affinity and anti-affinity terms, built from a list of requirements and preferences. */
module Affinities {

  const DEFAULT_WEIGHT := 1  // corev1.DefaultHardPodAffinitySymmetricWeight
  const HOSTNAME_KEY := "kubernetes.io/hostname"

  type Labels = map<string, string>

  datatype PodAffinity = PodAffinity(required: bool, anti: bool, weight: int, labels: Labels)

  datatype AffinityTerm = AffinityTerm(matchLabels: Labels, topologyKey: string)

  datatype WeightedTerm = WeightedTerm(weight: int, term: AffinityTerm)

  datatype Affinity = Affinity(
    require: seq<AffinityTerm>, prefer: seq<WeightedTerm>,
    antiRequire: seq<AffinityTerm>, antiPrefer: seq<WeightedTerm>)

  // The terms one requirement or preference stands for.
  function RequiredTerm(pa: PodAffinity): AffinityTerm {
    AffinityTerm(pa.labels, "")
  }

  function PreferredTerm(pa: PodAffinity): WeightedTerm {
    WeightedTerm(if pa.weight == 0 then DEFAULT_WEIGHT else pa.weight, AffinityTerm(pa.labels, HOSTNAME_KEY))
  }

  // Which of the four lists it belongs to.
  datatype Class = Class(required: bool, anti: bool)

  function ClassOf(pa: PodAffinity): Class {
    Class(pa.required, pa.anti)
  }

  // The members of one class, in their order.
  function Select(pas: seq<PodAffinity>, c: Class): (chosen: seq<PodAffinity>)
    ensures |chosen| <= |pas|
  {
    if pas == [] then []
    else
      var n := |pas| - 1;
      Select(pas[..n], c) + if ClassOf(pas[n]) == c then [pas[n]] else []
  }

  function RequiredTerms(pas: seq<PodAffinity>): (terms: seq<AffinityTerm>)
    ensures |terms| == |pas|
    ensures forall i :: 0 <= i < |pas| ==> terms[i] == RequiredTerm(pas[i])
  {
    seq(|pas|, i requires 0 <= i < |pas| => RequiredTerm(pas[i]))
  }

  function PreferredTerms(pas: seq<PodAffinity>): (terms: seq<WeightedTerm>)
    ensures |terms| == |pas|
    ensures forall i :: 0 <= i < |pas| ==> terms[i] == PreferredTerm(pas[i])
  {
    seq(|pas|, i requires 0 <= i < |pas| => PreferredTerm(pas[i]))
  }

  function Partition(pas: seq<PodAffinity>): Affinity {
    Affinity(
      RequiredTerms(Select(pas, Class(true, false))), PreferredTerms(Select(pas, Class(false, false))),
      RequiredTerms(Select(pas, Class(true, true))), PreferredTerms(Select(pas, Class(false, true))))
  }

  class AffinityBuilder {
    var podAffinity: seq<PodAffinity>

    constructor (pas: seq<PodAffinity>)
      ensures podAffinity == pas
    {
      podAffinity := pas;
    }

    method AddPodAffinity(pa: PodAffinity)
      modifies this
      ensures podAffinity == old(podAffinity) + [pa]
    {
      podAffinity := podAffinity + [pa];
    }

    /** Each element is appended to the one list of its class; the builder itself does not change. */
    method Build() returns (a: Affinity)
      ensures a == Partition(podAffinity)
    {
      var preferTerms, requireTerms, antiPreferTerms, antiRequireTerms := [], [], [], [];
      for i := 0 to |podAffinity|
        invariant Affinity(requireTerms, preferTerms, antiRequireTerms, antiPreferTerms) == Partition(podAffinity[..i])
      {
        var pa := podAffinity[i];
        AddedGoesLast(podAffinity[..i], pa);
        assert podAffinity[..i + 1] == podAffinity[..i] + [pa];
        if pa.required {
          var term := AffinityTerm(pa.labels, "");
          if pa.anti {
            antiRequireTerms := antiRequireTerms + [term];
          } else {
            requireTerms := requireTerms + [term];
          }
        } else {
          var weight := pa.weight;
          if weight == 0 {
            weight := DEFAULT_WEIGHT;
          }
          var weighted := WeightedTerm(weight, AffinityTerm(pa.labels, HOSTNAME_KEY));
          if pa.anti {
            antiPreferTerms := antiPreferTerms + [weighted];
          } else {
            preferTerms := preferTerms + [weighted];
          }
        }
      }
      assert podAffinity[..|podAffinity|] == podAffinity;
      return Affinity(requireTerms, preferTerms, antiRequireTerms, antiPreferTerms);
    }
  }

  /** Adding one element extends exactly one of the four lists, by one term at its end. */
  lemma AddedGoesLast(pas: seq<PodAffinity>, pa: PodAffinity)
    ensures var (a, b) := (Partition(pas), Partition(pas + [pa]));
            match ClassOf(pa)
            case Class(true, false) => b == a.(require := a.require + [RequiredTerm(pa)])
            case Class(false, false) => b == a.(prefer := a.prefer + [PreferredTerm(pa)])
            case Class(true, true) => b == a.(antiRequire := a.antiRequire + [RequiredTerm(pa)])
            case Class(false, true) => b == a.(antiPrefer := a.antiPrefer + [PreferredTerm(pa)])
  {
    assert (pas + [pa])[..|pas|] == pas;
    forall c ensures Select(pas + [pa], c) == Select(pas, c) + if ClassOf(pa) == c then [pa] else [] {}
  }

  // ----- what the four lists hold, without reference to how they are built -----

  function CountIn(pas: seq<PodAffinity>, c: Class): nat {
    if pas == [] then 0
    else CountIn(pas[..|pas| - 1], c) + if ClassOf(pas[|pas| - 1]) == c then 1 else 0
  }

  /** The partition is stable: the element at i stands in its own list after exactly the elements of
      its class that came before it. */
  lemma {:induction false} StandsInOrder(pas: seq<PodAffinity>, i: nat)
    requires i < |pas|
    ensures var (chosen, k) := (Select(pas, ClassOf(pas[i])), CountIn(pas[..i], ClassOf(pas[i])));
            k < |chosen| && chosen[k] == pas[i]
  {
    var n := |pas| - 1;
    var c := ClassOf(pas[i]);
    if i == n {
      SelectHasCount(pas[..n], c);
    } else {
      StandsInOrder(pas[..n], i);
      assert pas[..n][..i] == pas[..i];
    }
  }

  lemma {:induction false} SelectHasCount(pas: seq<PodAffinity>, c: Class)
    ensures |Select(pas, c)| == CountIn(pas, c)
  {
    if pas != [] { SelectHasCount(pas[..|pas| - 1], c); }
  }

  lemma {:induction false} CountsAddUp(pas: seq<PodAffinity>)
    ensures CountIn(pas, Class(true, false)) + CountIn(pas, Class(false, false))
            + CountIn(pas, Class(true, true)) + CountIn(pas, Class(false, true)) == |pas|
  {
    if pas != [] { CountsAddUp(pas[..|pas| - 1]); }
  }

  /** The four lists hold every element once: each element's term stands in the list of its class, at
      its rank in that class, and the lists are no longer than that. */
  lemma PartitionIsStable(pas: seq<PodAffinity>)
    ensures var a := Partition(pas);
            |a.require| + |a.prefer| + |a.antiRequire| + |a.antiPrefer| == |pas|
    ensures forall i :: 0 <= i < |pas| ==>
              var a := Partition(pas);
              var k := CountIn(pas[..i], ClassOf(pas[i]));
              if pas[i].required then
                var list := if pas[i].anti then a.antiRequire else a.require;
                k < |list| && list[k].matchLabels == pas[i].labels
              else
                var list := if pas[i].anti then a.antiPrefer else a.prefer;
                k < |list| && list[k].term.matchLabels == pas[i].labels
                && list[k].weight == (if pas[i].weight == 0 then 1 else pas[i].weight)
  {
    forall c { SelectHasCount(pas, c); }
    CountsAddUp(pas);
    forall i | 0 <= i < |pas|
      ensures var (chosen, k) := (Select(pas, ClassOf(pas[i])), CountIn(pas[..i], ClassOf(pas[i])));
              k < |chosen| && chosen[k] == pas[i]
    {
      StandsInOrder(pas, i);
    }
  }

  /** No preferred term has weight 0, and only preferred terms name a topology. */
  lemma WeightsAreSet(pas: seq<PodAffinity>)
    ensures var a := Partition(pas);
            && (forall t :: t in a.prefer + a.antiPrefer ==> t.weight != 0 && t.term.topologyKey == HOSTNAME_KEY)
            && (forall t :: t in a.require + a.antiRequire ==> t.topologyKey == "")
  {
    var a := Partition(pas);
    assert forall i :: 0 <= i < |a.prefer| ==> a.prefer[i] == PreferredTerm(Select(pas, Class(false, false))[i]);
    assert forall i :: 0 <= i < |a.antiPrefer| ==> a.antiPrefer[i] == PreferredTerm(Select(pas, Class(false, true))[i]);
  }
}
