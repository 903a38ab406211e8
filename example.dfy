/**
 * The "spot the typosquatted domain" exercise (`InteractiveExample`): the fetched
 * domain list is cut into adjacent pairs, each pair takes one final selection,
 * and feedback says whether the legitimate domain was picked.
 * A selected domain is identified by its slot (0 or 1) within its pair.
 */
module Example {
  import opened Wrappers
  import opened Schema

  type Slot = s: int | 0 <= s < 2

  datatype DomainPair = DomainPair(id: int, first: ExampleDomain, second: ExampleDomain, answered: bool, selected: Option<Slot>)
  {
    function Domain(s: Slot): ExampleDomain
    {
      if s == 0 then first else second
    }
  }

  datatype Feedback = Correct | Incorrect(explanation: Option<Text>)

  /** How a domain tile is highlighted. */
  datatype Highlight = Selectable | Legitimate | WrongPick | Plain

  /** Pair `k` as the pairing loop builds it from positions 2k and 2k + 1. */
  function FreshPair(domains: seq<ExampleDomain>, k: int): DomainPair
    requires 0 <= k && 2 * k + 1 < |domains|
  {
    DomainPair(k + 1, domains[2 * k], domains[2 * k + 1], false, None)
  }

  /** `pairs` holds one fresh pair per two adjacent domains, a trailing odd domain dropped. */
  ghost predicate PairedFrom(domains: seq<ExampleDomain>, pairs: seq<DomainPair>)
  {
    && |pairs| == |domains| / 2
    && forall k :: 0 <= k < |pairs| ==> pairs[k] == FreshPair(domains, k)
  }

  /** The pairing loop of the fetch callback. */
  method BuildPairs(domains: seq<ExampleDomain>) returns (pairs: seq<DomainPair>)
    ensures PairedFrom(domains, pairs)
  {
    pairs := [];
    var i := 0;
    while i < |domains|
      invariant 0 <= i <= |domains| + 1 && i % 2 == 0
      invariant |pairs| == (if i <= |domains| then i else |domains|) / 2
      invariant forall k :: 0 <= k < |pairs| ==> pairs[k] == FreshPair(domains, k)
    {
      if i + 1 < |domains| {
        pairs := pairs + [DomainPair(i / 2 + 1, domains[i], domains[i + 1], false, None)];
      }
      i := i + 2;
    }
  }

  /**
   * Position j of the domain list lands in pair j / 2 at slot j % 2; the only
   * position left out is the last one of an odd-length list.
   */
  lemma PairingCoversPositions(domains: seq<ExampleDomain>, pairs: seq<DomainPair>, j: int)
    requires PairedFrom(domains, pairs) && 0 <= j < |domains|
    ensures j / 2 < |pairs| <==> !(|domains| % 2 == 1 && j == |domains| - 1)
    ensures j / 2 < |pairs| ==> pairs[j / 2].Domain(j % 2) == domains[j]
  {
  }

  /** The domains of the pairs, two per pair, in pair order. */
  function Flatten(pairs: seq<DomainPair>): (r: seq<ExampleDomain>)
    ensures |r| == 2 * |pairs|
  {
    if pairs == [] then []
    else Flatten(pairs[..|pairs| - 1]) + [pairs[|pairs| - 1].first, pairs[|pairs| - 1].second]
  }

  /**
   * Read pair by pair, the pairs hold exactly the domains they were built from,
   * in list order, so every domain but a trailing odd one is in exactly one pair.
   */
  lemma PairsFlatten(domains: seq<ExampleDomain>, pairs: seq<DomainPair>)
    requires PairedFrom(domains, pairs)
    ensures Flatten(pairs) == domains[..2 * |pairs|]
  {
    FlattenPrefix(domains, pairs, |pairs|);
    assert pairs[..|pairs|] == pairs;
  }

  /** The first `m` fresh pairs hold exactly the first `2m` domains, in order. */
  lemma {:induction false} FlattenPrefix(domains: seq<ExampleDomain>, pairs: seq<DomainPair>, m: nat)
    requires PairedFrom(domains, pairs) && m <= |pairs|
    ensures Flatten(pairs[..m]) == domains[..2 * m]
  {
    if m > 0 {
      FlattenPrefix(domains, pairs, m - 1);
      assert pairs[..m][..m - 1] == pairs[..m - 1];
      assert domains[..2 * m] == domains[..2 * (m - 1)] + [domains[2 * m - 2], domains[2 * m - 1]];
    }
  }

  /** Freshly built pairs are numbered from 1 and all unanswered. */
  lemma FreshPairsUnanswered(domains: seq<ExampleDomain>, pairs: seq<DomainPair>)
    requires PairedFrom(domains, pairs)
    ensures forall k :: 0 <= k < |pairs| ==> pairs[k].id == k + 1 && !pairs[k].answered && pairs[k].selected == None
  {
  }

  /** `pairs.every(pair => pair.answered)`. */
  function EveryAnswered(pairs: seq<DomainPair>): (b: bool)
    ensures b <==> forall k :: 0 <= k < |pairs| ==> pairs[k].answered
  {
    if pairs == [] then true
    else pairs[0].answered && EveryAnswered(pairs[1..])
  }

  /** The slot `pair.domains.find(d => d.isLegitimate)` stops at. */
  function FirstLegitimate(p: DomainPair): (r: Option<Slot>)
    ensures r.None? <==> !p.first.isLegitimate && !p.second.isLegitimate
    ensures r.Some? ==> p.Domain(r.value).isLegitimate && (r.value == 1 ==> !p.first.isLegitimate)
  {
    if p.first.isLegitimate then Some(0)
    else if p.second.isLegitimate then Some(1)
    else None
  }

  /** `pair.domains.find(d => d.isLegitimate)?.explanation`. */
  function LegitimateExplanation(p: DomainPair): (r: Option<Text>)
    ensures p.first.isLegitimate ==> r == p.first.explanation
    ensures !p.first.isLegitimate && p.second.isLegitimate ==> r == p.second.explanation
    ensures !p.first.isLegitimate && !p.second.isLegitimate ==> r == None
  {
    match FirstLegitimate(p)
    case Some(s) => p.Domain(s).explanation
    case None => None
  }

  /** The feedback panel of a pair: shown once answered, "correct" exactly for a legitimate pick. */
  function FeedbackFor(p: DomainPair): (f: Option<Feedback>)
    ensures f.Some? <==> p.answered
    ensures f == Some(Correct) <==> p.answered && p.selected.Some? && p.Domain(p.selected.value).isLegitimate
    ensures f.Some? && f.value.Incorrect? ==> f.value.explanation == LegitimateExplanation(p)
  {
    if !p.answered then None
    else if p.selected.Some? && p.Domain(p.selected.value).isLegitimate then Some(Correct)
    else Some(Incorrect(LegitimateExplanation(p)))
  }

  /**
   * For a pair with exactly one legitimate domain, picking it is "correct" and
   * picking the other one shows the legitimate domain's explanation.
   */
  lemma FeedbackOfOneLegitimatePair(p: DomainPair, s: Slot)
    requires p.first.isLegitimate != p.second.isLegitimate
    requires p.answered && p.selected == Some(s)
    ensures p.Domain(s).isLegitimate ==> FeedbackFor(p) == Some(Correct)
    ensures !p.Domain(s).isLegitimate ==> FeedbackFor(p) == Some(Incorrect(p.Domain(1 - s).explanation))
  {
  }

  /** The tile highlight: the legitimate domain of an answered pair, the wrong pick, or neither. */
  function HighlightOf(p: DomainPair, s: Slot): (h: Highlight)
    ensures h == Selectable <==> !p.answered
    ensures h == Legitimate <==> p.answered && p.Domain(s).isLegitimate
    ensures h == WrongPick <==> p.answered && !p.Domain(s).isLegitimate && p.selected == Some(s)
  {
    if !p.answered then Selectable
    else if p.Domain(s).isLegitimate then Legitimate
    else if p.selected == Some(s) then WrongPick
    else Plain
  }

  /**
   * For an answered pair with one legitimate domain, the tiles agree with the
   * feedback panel: exactly one tile is marked legitimate, and a tile is marked
   * as the wrong pick exactly when the panel says "incorrect".
   */
  lemma HighlightAgreesWithFeedback(p: DomainPair, s: Slot)
    requires p.first.isLegitimate != p.second.isLegitimate
    requires p.answered && p.selected == Some(s)
    ensures (HighlightOf(p, 0) == WrongPick || HighlightOf(p, 1) == WrongPick) <==> FeedbackFor(p).value.Incorrect?
    ensures (HighlightOf(p, 0) == Legitimate) != (HighlightOf(p, 1) == Legitimate)
  {
  }

  class InteractiveExample {
    var examplePairs: seq<DomainPair>
    var allAnswered: bool

    constructor ()
      ensures examplePairs == [] && !allAnswered
    {
      examplePairs := [];
      allAnswered := false;
    }

    /** The fetch callback: `data?.domains || []`, cut into pairs. */
    method OnDomainsLoaded(fetched: Option<seq<ExampleDomain>>)
      modifies this`examplePairs
      ensures PairedFrom(if fetched.Some? then fetched.value else [], examplePairs)
      ensures StartQuizDisabled() <==> |(if fetched.Some? then fetched.value else [])| < 2
    {
      var domains := if fetched.Some? then fetched.value else [];
      examplePairs := BuildPairs(domains);
    }

    /** `handleDomainSelect`: mark one pair answered with the chosen slot, recompute `allAnswered`. */
    method HandleDomainSelect(pairIndex: int, s: Slot)
      requires 0 <= pairIndex < |examplePairs|
      modifies this
      ensures examplePairs == old(examplePairs)[pairIndex := old(examplePairs)[pairIndex].(answered := true, selected := Some(s))]
      ensures allAnswered <==> forall k :: 0 <= k < |examplePairs| ==> examplePairs[k].answered
      ensures StartQuizDisabled() == old(StartQuizDisabled())
    {
      var updatedPairs := examplePairs;
      updatedPairs := updatedPairs[pairIndex := updatedPairs[pairIndex].(answered := true, selected := Some(s))];
      examplePairs := updatedPairs;
      allAnswered := EveryAnswered(updatedPairs);
    }

    /** A click on a tile: ignored once its pair is answered, so the first selection is final. */
    method OnTileClick(pairIndex: int, s: Slot)
      requires 0 <= pairIndex < |examplePairs|
      modifies this
      ensures old(examplePairs[pairIndex].answered) ==> examplePairs == old(examplePairs) && allAnswered == old(allAnswered)
      ensures !old(examplePairs[pairIndex].answered) ==>
                && examplePairs == old(examplePairs)[pairIndex := old(examplePairs)[pairIndex].(answered := true, selected := Some(s))]
                && (allAnswered <==> forall k :: 0 <= k < |examplePairs| ==> examplePairs[k].answered)
      ensures StartQuizDisabled() == old(StartQuizDisabled())
    {
      if !examplePairs[pairIndex].answered {
        HandleDomainSelect(pairIndex, s);
      }
    }

    /** The Start Quiz button is disabled exactly while there are no pairs, answered or not. */
    function StartQuizDisabled(): (disabled: bool)
      reads this
      ensures disabled <==> |examplePairs| == 0
    {
      |examplePairs| == 0
    }
  }
}
