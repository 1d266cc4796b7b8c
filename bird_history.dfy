/**
 * The identification history of contexts/BirdHistoryContext.tsx: an
 * in-memory list, most recent first, that gains an entry when an
 * identification is added, may later have that entry's Wikipedia image set,
 * and is emptied as a whole.
 *
 * The background enrichment of the source is asynchronous; here it is a
 * separate method that may be called after any other calls on the store.
 */
module BirdHistory {
  import opened Common
  import opened WikipediaService
  import opened WikipediaFallback

  /** `Omit<BirdIdentification, "id" | "timestamp">`: the fields a caller supplies. */
  datatype BirdInput = BirdInput(
    species: string,
    scientificName: Option<string>,
    confidence: real,
    audioUri: Option<string>,
    imageUrl: Option<string>,
    wikipediaImageUrl: Option<string>,
    habitat: Option<string>,
    diet: Option<string>,
    size: Option<string>,
    wingspan: Option<string>,
    description: Option<string>,
    conservationStatus: Option<string>)

  /** One history entry. */
  datatype BirdIdentification = BirdIdentification(
    id: string,
    species: string,
    scientificName: Option<string>,
    confidence: real,
    timestamp: Timestamp,
    audioUri: Option<string>,
    imageUrl: Option<string>,
    wikipediaImageUrl: Option<string>,
    habitat: Option<string>,
    diet: Option<string>,
    size: Option<string>,
    wingspan: Option<string>,
    description: Option<string>,
    conservationStatus: Option<string>)

  /** The caller-supplied part of an entry: everything but `id` and `timestamp`. */
  function CallerFields(b: BirdIdentification): BirdInput {
    BirdInput(b.species, b.scientificName, b.confidence, b.audioUri, b.imageUrl, b.wikipediaImageUrl,
              b.habitat, b.diet, b.size, b.wingspan, b.description, b.conservationStatus)
  }

  /** `{ ...bird, id, timestamp }` */
  function NewIdentification(bird: BirdInput, id: string, now: Timestamp): (b: BirdIdentification)
    ensures b.id == id && b.timestamp == now
    ensures CallerFields(b) == bird
  {
    BirdIdentification(id, bird.species, bird.scientificName, bird.confidence, now, bird.audioUri,
                       bird.imageUrl, bird.wikipediaImageUrl, bird.habitat, bird.diet, bird.size,
                       bird.wingspan, bird.description, bird.conservationStatus)
  }

  /** An entry is determined by its id, its timestamp and its caller fields. */
  lemma IdentificationRoundTrip(b: BirdIdentification)
    ensures NewIdentification(CallerFields(b), b.id, b.timestamp) == b
  {
  }

  predicate HasId(history: seq<BirdIdentification>, id: string) {
    exists k :: 0 <= k < |history| && history[k].id == id
  }

  ghost predicate DistinctIds(history: seq<BirdIdentification>) {
    forall j, k :: 0 <= j < k < |history| ==> history[j].id != history[k].id
  }

  /** `[newBird, ...prevHistory]` */
  function Prepend(newBird: BirdIdentification, history: seq<BirdIdentification>): (r: seq<BirdIdentification>)
    ensures |r| == |history| + 1
    ensures r[0] == newBird
    ensures forall k :: 0 <= k < |history| ==> r[k + 1] == history[k]
  {
    [newBird] + history
  }

  /** One step of the map: the entry with the matching id gets the image, every other entry is returned as it is. */
  function EnrichEntry(b: BirdIdentification, id: string, imageUrl: string): BirdIdentification {
    if b.id == id then b.(wikipediaImageUrl := Some(imageUrl)) else b
  }

  /** `prevHistory.map(b => b.id === id ? { ...b, wikipediaImageUrl } : b)` */
  function EnrichById(history: seq<BirdIdentification>, id: string, imageUrl: string): (r: seq<BirdIdentification>)
    ensures |r| == |history|
    ensures forall k :: 0 <= k < |history| && history[k].id != id ==> r[k] == history[k]
    ensures forall k :: 0 <= k < |history| && history[k].id == id ==>
      r[k] == history[k].(wikipediaImageUrl := Some(imageUrl))
  {
    if history == [] then [] else [EnrichEntry(history[0], id, imageUrl)] + EnrichById(history[1..], id, imageUrl)
  }

  /** Enrichment never inserts or removes: the ids, in order, are those of the list it was given. */
  lemma EnrichKeepsIds(history: seq<BirdIdentification>, id: string, imageUrl: string)
    ensures var r := EnrichById(history, id, imageUrl);
      forall k :: 0 <= k < |r| ==> r[k].id == history[k].id
    ensures HasId(EnrichById(history, id, imageUrl), id) <==> HasId(history, id)
  {
  }

  /** Enriching a list that lacks the id (in particular a cleared, empty list) changes nothing. */
  lemma EnrichAbsentIsNoop(history: seq<BirdIdentification>, id: string, imageUrl: string)
    requires !HasId(history, id)
    ensures EnrichById(history, id, imageUrl) == history
  {
  }

  /** Enriching twice with the same image is the same as enriching once. */
  lemma EnrichIdempotent(history: seq<BirdIdentification>, id: string, imageUrl: string)
    ensures EnrichById(EnrichById(history, id, imageUrl), id, imageUrl) == EnrichById(history, id, imageUrl)
  {
  }

  /** With distinct ids, enrichment changes at most one entry. */
  lemma EnrichChangesAtMostOne(history: seq<BirdIdentification>, id: string, imageUrl: string, j: int, k: int)
    requires DistinctIds(history)
    requires 0 <= j < |history| && 0 <= k < |history|
    requires EnrichById(history, id, imageUrl)[j] != history[j]
    requires EnrichById(history, id, imageUrl)[k] != history[k]
    ensures j == k
  {
  }

  /**
   * Enrichment applied right after the insert of a fresh entry sets the
   * image on that entry alone, at the head, and leaves the older entries as
   * they were.
   */
  lemma EnrichAfterPrepend(newBird: BirdIdentification, history: seq<BirdIdentification>, imageUrl: string)
    requires !HasId(history, newBird.id)
    ensures EnrichById(Prepend(newBird, history), newBird.id, imageUrl)
         == Prepend(newBird.(wikipediaImageUrl := Some(imageUrl)), history)
  {
  }

  /** The enrichment guard: `!wikiResult.error && wikiResult.thumbnailUrl`. */
  predicate ProvidesImage(wikiResult: BirdWikiInfo) {
    !HasError(wikiResult) && Truthy(wikiResult.thumbnailUrl)
  }

  /** The history after the background update for `id` with the given lookup result. */
  function AfterEnrichment(history: seq<BirdIdentification>, id: string, wikiResult: BirdWikiInfo): (r: seq<BirdIdentification>)
    ensures !ProvidesImage(wikiResult) ==> r == history
    ensures ProvidesImage(wikiResult) ==> r == EnrichById(history, id, wikiResult.thumbnailUrl.value)
  {
    if ProvidesImage(wikiResult) then EnrichById(history, id, wikiResult.thumbnailUrl.value) else history
  }

  class BirdHistoryStore {
    var history: seq<BirdIdentification>
    var isHistoryVisible: bool

    /** Ids handed out by the caller are fresh, so no two entries share one. */
    ghost predicate Valid()
      reads this
    {
      DistinctIds(history)
    }

    constructor ()
      ensures Valid()
      ensures history == [] && !isHistoryVisible
    {
      history := [];
      isHistoryVisible := false;
    }

    /** The synchronous part of addBirdToHistory: build the entry and put it at the head. */
    method InsertIdentification(bird: BirdInput, freshId: string, now: Timestamp) returns (newBird: BirdIdentification)
      requires Valid()
      requires !HasId(history, freshId)
      modifies this
      ensures Valid()
      ensures newBird.id == freshId && newBird.timestamp == now && CallerFields(newBird) == bird
      ensures history == Prepend(newBird, old(history))
      ensures isHistoryVisible == old(isHistoryVisible)
    {
      newBird := NewIdentification(bird, freshId, now);
      history := Prepend(newBird, history);
    }

    /**
     * The background update of addBirdToHistory, applied to whatever list the
     * store holds when the lookup completes.
     */
    method ApplyWikipediaResult(id: string, wikiResult: BirdWikiInfo)
      requires Valid()
      modifies this
      ensures Valid()
      ensures history == AfterEnrichment(old(history), id, wikiResult)
      ensures |history| == |old(history)|
      ensures isHistoryVisible == old(isHistoryVisible)
    {
      if ProvidesImage(wikiResult) {
        history := EnrichById(history, id, wikiResult.thumbnailUrl.value);
      }
    }

    /**
     * addBirdToHistory with nothing happening in between: insert, run the
     * lookup chain on the species and scientific name, then enrich.
     */
    method AddBirdToHistory(net: Network, bird: BirdInput, freshId: string, now: Timestamp)
      returns (newBird: BirdIdentification)
      requires Valid()
      requires !HasId(history, freshId)
      modifies this
      ensures Valid()
      ensures newBird == NewIdentification(bird, freshId, now)
      ensures var wikiResult := FallbackChain(net, bird.species, bird.scientificName);
        history == if ProvidesImage(wikiResult)
                   then Prepend(newBird.(wikipediaImageUrl := wikiResult.thumbnailUrl), old(history))
                   else Prepend(newBird, old(history))
      ensures isHistoryVisible == old(isHistoryVisible)
    {
      newBird := InsertIdentification(bird, freshId, now);
      var wikiResult := LookupForBird(net, bird.species, bird.scientificName);
      if ProvidesImage(wikiResult) {
        EnrichAfterPrepend(newBird, old(history), wikiResult.thumbnailUrl.value);
      }
      ApplyWikipediaResult(newBird.id, wikiResult);
    }

    method ClearHistory()
      modifies this
      ensures Valid()
      ensures history == []
      ensures isHistoryVisible == old(isHistoryVisible)
    {
      history := [];
    }

    method SetHistoryVisible(visible: bool)
      modifies this
      ensures isHistoryVisible == visible
      ensures history == old(history)
    {
      isHistoryVisible := visible;
    }
  }

  /**
   * An enrichment that completes after the history was cleared does not
   * bring the entry back: the history stays empty.
   */
  method EnrichmentAfterClear(net: Network, bird: BirdInput, freshId: string, now: Timestamp)
    returns (finalHistory: seq<BirdIdentification>)
    ensures finalHistory == []
  {
    var store := new BirdHistoryStore();
    var newBird := store.InsertIdentification(bird, freshId, now);
    var wikiResult := LookupForBird(net, bird.species, bird.scientificName);
    store.ClearHistory();
    store.ApplyWikipediaResult(newBird.id, wikiResult);
    finalHistory := store.history;
  }

  /** `useBirdHistory`: the store of the enclosing provider, or the error thrown outside one. */
  function UseBirdHistory(context: Option<BirdHistoryStore>): (r: Result<BirdHistoryStore, string>)
    ensures context.Some? <==> r.Success?
    ensures context.Some? ==> r.value == context.value
    ensures context.None? ==> r.error == "useBirdHistory must be used within a BirdHistoryProvider"
  {
    match context
    case Some(store) => Success(store)
    case None => Failure("useBirdHistory must be used within a BirdHistoryProvider")
  }
}
