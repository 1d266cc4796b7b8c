/**
 * The three-step lookup chain that contexts/BirdHistoryContext.tsx,
 * app/bird-details.tsx and components/shared/WikipediaInfo.tsx each write out:
 * the common name, then the scientific name (through the suffixed search),
 * then the suffixed search on the common name.
 */
module WikipediaFallback {
  import opened Common
  import opened WikipediaService

  /** The scientific-name step runs: the first lookup failed and a (non-empty) scientific name is known. */
  predicate TriesScientificName(net: Network, species: string, scientificName: Option<string>) {
    HasError(FetchBirdWikipediaInfo(net, species)) && Truthy(scientificName)
  }

  /** The result held after the first two steps. */
  function AfterScientificStep(net: Network, species: string, scientificName: Option<string>): BirdWikiInfo {
    if TriesScientificName(net, species, scientificName) then SearchBirdWikipedia(net, scientificName.value)
    else FetchBirdWikipediaInfo(net, species)
  }

  /** The value of `wikiResult` (or `result`) once the chain has run. */
  function FallbackChain(net: Network, species: string, scientificName: Option<string>): (r: BirdWikiInfo)
    // a success at the first step is kept
    ensures !HasError(FetchBirdWikipediaInfo(net, species)) ==> r == FetchBirdWikipediaInfo(net, species)
    // a success at the scientific-name step is kept
    ensures (TriesScientificName(net, species, scientificName)
             && !HasError(SearchBirdWikipedia(net, scientificName.value))) ==>
      r == SearchBirdWikipedia(net, scientificName.value)
    // when both earlier steps failed or were skipped, the suffixed search on the common name decides
    ensures HasError(AfterScientificStep(net, species, scientificName)) ==> r == SearchBirdWikipedia(net, species)
    // the chain fails only when every step it ran failed
    ensures HasError(r) <==>
      && HasError(FetchBirdWikipediaInfo(net, species))
      && (Truthy(scientificName) ==> HasError(SearchBirdWikipedia(net, scientificName.value)))
      && HasError(SearchBirdWikipedia(net, species))
  {
    var afterScientific := AfterScientificStep(net, species, scientificName);
    if HasError(afterScientific) then SearchBirdWikipedia(net, species) else afterScientific
  }

  /** The chain as the source runs it: one local result, reassigned step by step. */
  method LookupForBird(net: Network, species: string, scientificName: Option<string>) returns (wikiResult: BirdWikiInfo)
    ensures wikiResult == FallbackChain(net, species, scientificName)
  {
    wikiResult := FetchBirdWikipediaInfo(net, species);
    if HasError(wikiResult) && Truthy(scientificName) {
      wikiResult := SearchBirdWikipedia(net, scientificName.value);
    }
    if HasError(wikiResult) {
      wikiResult := SearchBirdWikipedia(net, species);
    }
  }

  /**
   * The chain's result is always one of the three lookups, and the
   * scientific name is consulted only when the first lookup failed.
   */
  lemma ChainResultIsAStep(net: Network, species: string, scientificName: Option<string>)
    ensures var r := FallbackChain(net, species, scientificName);
      || r == FetchBirdWikipediaInfo(net, species)
      || (Truthy(scientificName) && r == SearchBirdWikipedia(net, scientificName.value))
      || r == SearchBirdWikipedia(net, species)
    ensures !Truthy(scientificName) ==>
      FallbackChain(net, species, scientificName) == FallbackChain(net, species, None)
  {
  }

  /**
   * The chain depends only on the answers for the titles it may request:
   * the common name, the scientific name and each of them with " bird".
   */
  lemma ChainRequests(net1: Network, net2: Network, species: string, scientificName: Option<string>)
    requires net1(species) == net2(species)
    requires net1(species + SearchSuffix) == net2(species + SearchSuffix)
    requires scientificName.Some? ==> net1(scientificName.value) == net2(scientificName.value)
    requires scientificName.Some? ==>
      net1(scientificName.value + SearchSuffix) == net2(scientificName.value + SearchSuffix)
    ensures FallbackChain(net1, species, scientificName) == FallbackChain(net2, species, scientificName)
  {
  }

  /**
   * A common name with no page (404) and a scientific name whose lookup
   * succeeds: the chain returns the scientific-name result.
   */
  lemma NotFoundThenScientificName(net: Network, species: string, scientific: string)
    requires net(species).Response? && net(species).status == 404
    requires scientific != ""
    requires !HasError(SearchBirdWikipedia(net, scientific))
    ensures FallbackChain(net, species, Some(scientific)) == SearchBirdWikipedia(net, scientific)
  {
  }
}
