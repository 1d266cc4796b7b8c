/**
 * The Wikipedia summary lookup of lib/wikipediaService.ts.
 *
 * The network is an oracle: a function from the requested page title to what
 * the HTTP request produced.  Percent-encoding of the title, request headers
 * and JSON decoding are not modelled; a body either has the shape of a
 * summary page or reading it throws.
 */
module WikipediaService {
  import opened Common
  import opened Strings

  /** The fields of a page-summary body that the lookup reads. */
  datatype WikipediaPage = WikipediaPage(
    title: string,
    extract: string,
    thumbnailSource: Option<string>,   // `thumbnail?.source`
    desktopPageUrl: string)            // `content_urls.desktop.page`

  /** The body of a response: a summary page, or the value thrown while reading it. */
  datatype Body = Parsed(page: WikipediaPage) | Unparsable(failure: Thrown)

  /** What one request produced: a response with its status line and body, or a thrown network failure. */
  datatype HttpOutcome =
    | Response(status: nat, statusText: string, body: Body)
    | NetworkFailure(failure: Thrown)

  /** The summary endpoint, keyed by the (unencoded) page title requested. */
  type Network = string -> HttpOutcome

  /** The record handed back to callers; `error` is present exactly on a failed lookup. */
  datatype BirdWikiInfo = BirdWikiInfo(
    title: string,
    description: string,
    thumbnailUrl: Option<string>,
    pageUrl: string,
    error: Option<string>)

  const DisambiguationMarker := "may refer to:"
  const SearchSuffix := " bird"
  const ApiErrorPrefix := "Wikipedia API error: "
  const FallbackFailureMessage := "Failed to fetch bird information from Wikipedia"

  /** `response.ok`: a status in the range 200 to 299. */
  predicate IsOk(status: nat) {
    200 <= status <= 299
  }

  /** `if (result.error)` as callers write it: an error that is present and non-empty. */
  predicate HasError(info: BirdWikiInfo) {
    Truthy(info.error)
  }

  function NotFoundMessage(name: string): string {
    "No Wikipedia page found for \"" + name + "\""
  }

  function ApiErrorMessage(status: nat, statusText: string): string {
    ApiErrorPrefix + Decimal(status) + " " + statusText
  }

  function AmbiguousMessage(name: string): string {
    "\"" + name + "\" is ambiguous. Please be more specific."
  }

  /** The record built from a summary page on success. */
  function PageInfo(page: WikipediaPage): BirdWikiInfo {
    BirdWikiInfo(page.title, page.extract, page.thumbnailSource, page.desktopPageUrl, None)
  }

  /** The record returned from the catch clause. */
  function FailureInfo(name: string, message: string): BirdWikiInfo {
    BirdWikiInfo(name, "", None, "", Some(message))
  }

  /**
   * The try block of fetchBirdWikipediaInfo: the record it returns, or the
   * value it throws (its own errors are `Error` objects).
   */
  function SummaryAttempt(name: string, outcome: HttpOutcome): Result<BirdWikiInfo, Thrown> {
    match outcome
    case NetworkFailure(t) => Failure(t)
    case Response(status, statusText, body) =>
      if !IsOk(status) then
        if status == 404 then Failure(ErrorValue(NotFoundMessage(name)))
        else Failure(ErrorValue(ApiErrorMessage(status, statusText)))
      else
        match body
        case Unparsable(t) => Failure(t)
        case Parsed(page) =>
          if Contains(page.extract, DisambiguationMarker) then Failure(ErrorValue(AmbiguousMessage(name)))
          else Success(PageInfo(page))
  }

  /** The outcome is a usable summary: an OK status, a readable body, and not a disambiguation page. */
  predicate IsUsableSummary(outcome: HttpOutcome) {
    && outcome.Response?
    && IsOk(outcome.status)
    && outcome.body.Parsed?
    && !Contains(outcome.body.page.extract, DisambiguationMarker)
  }

  /**
   * fetchBirdWikipediaInfo: look up the page titled `name`; every failure is
   * turned into a record carrying `error`.
   */
  function FetchBirdWikipediaInfo(net: Network, name: string): (r: BirdWikiInfo)
    // success exactly when the page is usable, and then its fields are copied
    ensures r.error.None? <==> IsUsableSummary(net(name))
    ensures r.error.None? ==>
      && r.title == net(name).body.page.title
      && r.description == net(name).body.page.extract
      && r.pageUrl == net(name).body.page.desktopPageUrl
      && r.thumbnailUrl == net(name).body.page.thumbnailSource
    // every failure has the same shape
    ensures r.error.Some? ==> r.title == name && r.description == "" && r.pageUrl == "" && r.thumbnailUrl.None?
    // the error messages
    ensures net(name).Response? && net(name).status == 404 ==> r.error == Some(NotFoundMessage(name))
    ensures net(name).Response? && !IsOk(net(name).status) && net(name).status != 404 ==>
      r.error == Some(ApiErrorMessage(net(name).status, net(name).statusText))
    ensures (net(name).Response? && IsOk(net(name).status) && net(name).body.Parsed?
             && Contains(net(name).body.page.extract, DisambiguationMarker)) ==>
      r.error == Some(AmbiguousMessage(name))
    ensures net(name).NetworkFailure? ==> r.error == Some(MessageOf(net(name).failure, FallbackFailureMessage))
    ensures net(name).Response? && IsOk(net(name).status) && net(name).body.Unparsable? ==>
      r.error == Some(MessageOf(net(name).body.failure, FallbackFailureMessage))
  {
    match SummaryAttempt(name, net(name))
    case Success(info) => info
    case Failure(t) => FailureInfo(name, MessageOf(t, FallbackFailureMessage))
  }

  /**
   * searchBirdWikipedia: look up `name + " bird"`; an OK, readable answer is
   * returned as it is (no disambiguation check), anything else falls back to
   * the plain lookup of `name`.
   */
  function SearchBirdWikipedia(net: Network, name: string): (r: BirdWikiInfo)
    ensures var o := net(name + SearchSuffix);
      if o.Response? && IsOk(o.status) && o.body.Parsed? then
        && r.error.None?
        && r.title == o.body.page.title
        && r.description == o.body.page.extract
        && r.pageUrl == o.body.page.desktopPageUrl
        && r.thumbnailUrl == o.body.page.thumbnailSource
      else
        r == FetchBirdWikipediaInfo(net, name)
  {
    var o := net(name + SearchSuffix);
    if o.Response? && IsOk(o.status) && o.body.Parsed? then PageInfo(o.body.page)
    else FetchBirdWikipediaInfo(net, name)
  }

  /** The direct lookup asks for `name` and nothing else. */
  lemma FetchRequestsName(net1: Network, net2: Network, name: string)
    requires net1(name) == net2(name)
    ensures FetchBirdWikipediaInfo(net1, name) == FetchBirdWikipediaInfo(net2, name)
  {
  }

  /** The search asks for `name + " bird"` and, on fallback, for `name`; nothing else. */
  lemma SearchRequestsSuffixedThenName(net1: Network, net2: Network, name: string)
    requires net1(name + SearchSuffix) == net2(name + SearchSuffix)
    requires net1(name) == net2(name)
    ensures SearchBirdWikipedia(net1, name) == SearchBirdWikipedia(net2, name)
  {
    FetchRequestsName(net1, net2, name);
  }

  /**
   * A failed lookup always carries a non-empty message, unless the request
   * or the reading of an OK body threw an Error with an empty message.
   */
  lemma FailureIsSeen(net: Network, name: string)
    requires FetchBirdWikipediaInfo(net, name).error.Some?
    requires !(net(name).NetworkFailure? && net(name).failure == ErrorValue(""))
    requires !(net(name).Response? && IsOk(net(name).status) && net(name).body == Unparsable(ErrorValue("")))
    ensures HasError(FetchBirdWikipediaInfo(net, name))
  {
  }

  /**
   * The same holds for the suffixed search: it fails only through its
   * fallback to the plain lookup of `name`.
   */
  lemma SearchFailureIsSeen(net: Network, name: string)
    requires SearchBirdWikipedia(net, name).error.Some?
    requires !(net(name).NetworkFailure? && net(name).failure == ErrorValue(""))
    requires !(net(name).Response? && IsOk(net(name).status) && net(name).body == Unparsable(ErrorValue("")))
    ensures HasError(SearchBirdWikipedia(net, name))
  {
    FailureIsSeen(net, name);
  }

  /** A 404 and any other failing status give different messages. */
  lemma NotFoundDistinctFromApiError(name: string, status: nat, statusText: string)
    ensures NotFoundMessage(name) != ApiErrorMessage(status, statusText)
  {
    assert NotFoundMessage(name)[0] == 'N';
    assert ApiErrorMessage(status, statusText)[0] == 'W';
  }

  /** The 404 message names the page that was asked for. */
  lemma NotFoundNamesPage(name: string)
    ensures Contains(NotFoundMessage(name), name)
  {
    ContainedInContext("No Wikipedia page found for \"", name, "\"");
  }

  /** The status code can be read back from a non-404 error message. */
  lemma ApiErrorCarriesStatus(status: nat, statusText: string)
    ensures var m := ApiErrorMessage(status, statusText);
      var digits := m[|ApiErrorPrefix|..|ApiErrorPrefix| + |Decimal(status)|];
      (forall k :: 0 <= k < |digits| ==> IsDigit(digits[k])) && DecimalValue(digits) == status
  {
    var m := ApiErrorMessage(status, statusText);
    assert m[|ApiErrorPrefix|..|ApiErrorPrefix| + |Decimal(status)|] == Decimal(status);
    DecimalRoundTrip(status);
  }

  /**
   * The suffixed search performs no disambiguation check: an OK answer for
   * `name + " bird"` whose extract contains the marker is returned as a success.
   */
  lemma SearchKeepsDisambiguationPage(net: Network, name: string)
    requires net(name + SearchSuffix).Response? && IsOk(net(name + SearchSuffix).status)
    requires net(name + SearchSuffix).body.Parsed?
    requires Contains(net(name + SearchSuffix).body.page.extract, DisambiguationMarker)
    ensures !HasError(SearchBirdWikipedia(net, name))
    ensures Contains(SearchBirdWikipedia(net, name).description, DisambiguationMarker)
  {
  }
}
