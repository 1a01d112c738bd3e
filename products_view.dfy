/**
 * The catalog controller of the products page: the resolver that turns the
 * search text into request parameters, the page arithmetic, the handlers of
 * the pagination and search controls, and the mapping of a fetch outcome
 * into the page's state.
 */
module ProductsView {
  import opened Wrappers

  // ---------------------------------------------------------------------------
  // Catalog entities
  // ---------------------------------------------------------------------------

  datatype Product = Product(name: string, price: int, stock: int, images: seq<string>)

  /** A seller and its products, as the listing endpoint reports them. */
  datatype Shop = Shop(products: seq<Product>)

  // ---------------------------------------------------------------------------
  // Request parameters
  // ---------------------------------------------------------------------------

  /** The keys a parameter object can carry. */
  datatype Key = Limit | Page | Price | Stock | ProductName

  /** The parameter object sent with the listing request; an absent key is `None`. */
  datatype SearchParams = SearchParams(
    limit: int,
    page: int,
    price: Option<int>,
    stock: Option<int>,
    productName: Option<string>)
  {
    /** The keys present in the object. */
    function Keys(): set<Key> {
      {Limit, Page}
      + (if price.Some? then {Price} else {})
      + (if stock.Some? then {Stock} else {})
      + (if productName.Some? then {ProductName} else {})
    }

    /** The keys that say what the query is about. */
    function Discriminators(): set<Key> {
      Keys() - {Limit, Page}
    }
  }

  /**
   * JavaScript's `Number(s)` where it is not NaN: `None` stands for NaN. The
   * resolver is stated for every such parser.
   */
  type NumberParser = string -> Option<int>

  /** Prices are told from stock counts by this threshold. */
  const PriceThreshold := 1000

  /**
   * Builds the parameters for one query: `limit` and `page` from the
   * pagination state, then `price` for a number above the threshold, `stock`
   * for any other number, and `productName` for text that is not a number.
   */
  function GetSearchParams(query: string, itemsPerPage: int, currentPage: int, number: NumberParser): (r: SearchParams)
    ensures r.limit == itemsPerPage && r.page == currentPage
    ensures query == "" ==> r.Keys() == {Limit, Page}
    ensures query != "" && number(query).Some? && number(query).value > PriceThreshold ==>
              r.Keys() == {Limit, Page, Price} && r.price == number(query)
    ensures query != "" && number(query).Some? && number(query).value <= PriceThreshold ==>
              r.Keys() == {Limit, Page, Stock} && r.stock == number(query)
    ensures query != "" && number(query).None? ==>
              r.Keys() == {Limit, Page, ProductName} && r.productName == Some(query)
  {
    var base := SearchParams(itemsPerPage, currentPage, None, None, None);
    if query == "" then base
    else
      match number(query)
      case Some(v) => if v > PriceThreshold then base.(price := Some(v)) else base.(stock := Some(v))
      case None => base.(productName := Some(query))
  }

  /** At most one discriminator is ever set, and one is set exactly when there is a query. */
  lemma AtMostOneDiscriminator(query: string, itemsPerPage: int, currentPage: int, number: NumberParser)
    ensures var r := GetSearchParams(query, itemsPerPage, currentPage, number);
            |r.Discriminators()| <= 1
            && !(r.price.Some? && r.stock.Some?)
            && (r.Discriminators() == {} <==> query == "")
  {
    var r := GetSearchParams(query, itemsPerPage, currentPage, number);
    if query == "" {
      assert r.Discriminators() == {};
    } else if number(query).None? {
      assert r.Discriminators() == {ProductName};
    } else if number(query).value > PriceThreshold {
      assert r.Discriminators() == {Price};
    } else {
      assert r.Discriminators() == {Stock};
    }
  }

  /** A decimal digit character. */
  predicate IsDigit(c: char) {
    '0' <= c <= '9'
  }

  predicate AllDigits(s: string) {
    forall i :: 0 <= i < |s| ==> IsDigit(s[i])
  }

  /** The decimal value of a string of digits, most significant first. */
  function DecimalValue(s: string): (n: nat)
    requires AllDigits(s)
    decreases |s|
  {
    if s == [] then 0
    else DecimalValue(s[..|s| - 1]) * 10 + (s[|s| - 1] as int - '0' as int)
  }

  /**
   * `Number(s)` on the strings made of decimal digits only; every other
   * string is treated as NaN. Used to state the resolver's scenarios.
   */
  function ParseDecimal(s: string): (r: Option<int>)
    ensures r.Some? <==> s != "" && AllDigits(s)
    ensures r.Some? ==> r.value == DecimalValue(s) && r.value >= 0
  {
    if s != "" && AllDigits(s) then Some(DecimalValue(s)) else None
  }

  /** A leading zero does not change a digit string's value. */
  lemma {:induction false} LeadingZeroIgnored(s: string)
    requires AllDigits(s)
    ensures AllDigits("0" + s) && DecimalValue("0" + s) == DecimalValue(s)
    decreases |s|
  {
    var t := "0" + s;
    assert AllDigits(t) by {
      forall i | 0 <= i < |t| ensures IsDigit(t[i]) {
        if i > 0 { assert t[i] == s[i - 1]; }
      }
    }
    if s == [] {
      assert t[..0] == [];
    } else {
      var init := s[..|s| - 1];
      assert AllDigits(init) by {
        forall i | 0 <= i < |init| ensures IsDigit(init[i]) { assert init[i] == s[i]; }
      }
      LeadingZeroIgnored(init);
      assert t[..|t| - 1] == "0" + init;
      assert t[|t| - 1] == s[|s| - 1];
    }
  }

  /** "0015" is read as 15, just as "15" is. */
  lemma LeadingZerosScenario()
    ensures ParseDecimal("0015") == ParseDecimal("15") == Some(15)
  {
    assert "15"[..1] == "1" && "1"[..0] == "";
    assert DecimalValue("15") == 15;
    assert AllDigits("15");
    LeadingZeroIgnored("15");
    assert "0" + "15" == "015";
    LeadingZeroIgnored("015");
    assert "0" + "015" == "0015";
  }

  /** "15000" asks for products priced 15000. */
  lemma PriceScenario()
    ensures GetSearchParams("15000", 10, 1, ParseDecimal)
            == SearchParams(10, 1, Some(15000), None, None)
  {
    assert "15000"[..4] == "1500" && "1500"[..3] == "150" && "150"[..2] == "15";
    assert "15"[..1] == "1" && "1"[..0] == "";
    assert DecimalValue("15000") == 15000;
  }

  /** "15" asks for products with 15 in stock. */
  lemma StockScenario()
    ensures GetSearchParams("15", 20, 3, ParseDecimal)
            == SearchParams(20, 3, None, Some(15), None)
  {
    assert "15"[..1] == "1" && "1"[..0] == "";
    assert DecimalValue("15") == 15;
  }

  /** "chair" asks for products by name, verbatim. */
  lemma ProductNameScenario()
    ensures GetSearchParams("chair", 10, 2, ParseDecimal)
            == SearchParams(10, 2, None, None, Some("chair"))
  {
    assert !IsDigit("chair"[0]);
  }

  // ---------------------------------------------------------------------------
  // Pagination
  // ---------------------------------------------------------------------------

  /** The page sizes the page-size selector offers. */
  const PageSizeOptions: set<int> := {5, 10, 20, 50, 100}

  const InitialItemsPerPage := 10

  /** `ceil(totalItems / itemsPerPage)`: the fewest pages of that size that hold every item. */
  function TotalPages(totalItems: nat, itemsPerPage: int): (r: nat)
    requires itemsPerPage > 0
    ensures totalItems <= r * itemsPerPage
    ensures r == 0 || (r - 1) * itemsPerPage < totalItems
    ensures r == 0 <==> totalItems == 0
  {
    (totalItems + itemsPerPage - 1) / itemsPerPage
  }

  /** The page after Previous: one back, but never below page 1. */
  function PrevPage(page: int): (r: int)
    ensures r >= 1
    ensures page > 1 ==> r == page - 1
    ensures page <= 1 ==> r == 1
  {
    if page - 1 > 1 then page - 1 else 1
  }

  /**
   * The page after Next: one on, but never beyond the last page. There is no
   * lower clamp: with no pages at all the result is page 0.
   */
  function NextPage(page: int, totalPages: nat): (r: int)
    ensures r <= totalPages
    ensures page < totalPages ==> r == page + 1
    ensures page >= totalPages ==> r == totalPages
  {
    if page + 1 < totalPages then page + 1 else totalPages
  }

  /** The Previous button is disabled on page 1 only. */
  predicate PreviousDisabled(page: int) {
    page == 1
  }

  /** Previous is disabled exactly where, among real pages, pressing it would not move. */
  lemma PreviousDisabledExactlyAtFixpoint(page: int)
    requires page >= 1
    ensures PreviousDisabled(page) <==> PrevPage(page) == page
  {
  }

  /** The Next button is disabled exactly on the last page. */
  predicate NextDisabled(page: int, totalPages: nat) {
    page == totalPages
  }

  /** When there are no items, Next is enabled on page 1 and takes the page to 0. */
  lemma NextWithoutItemsReachesZero(itemsPerPage: int)
    requires itemsPerPage > 0
    ensures var total := TotalPages(0, itemsPerPage);
            !NextDisabled(1, total) && NextPage(1, total) == 0
  {
  }

  /** Pressing Previous `k` times from `page`. */
  function PrevTimes(page: int, k: nat): int
    decreases k
  {
    if k == 0 then page else PrevTimes(PrevPage(page), k - 1)
  }

  /** Pressing Next `k` times from `page`. */
  function NextTimes(page: int, totalPages: nat, k: nat): int
    decreases k
  {
    if k == 0 then page else NextTimes(NextPage(page, totalPages), totalPages, k - 1)
  }

  /** Any number of Previous presses ends at `max(page - k, 1)`, so never below 1. */
  lemma {:induction false} PrevTimesClamps(page: int, k: nat)
    requires k >= 1
    decreases k
    ensures PrevTimes(page, k) == if page - k > 1 then page - k else 1
    ensures PrevTimes(page, k) >= 1
  {
    if k > 1 {
      PrevTimesClamps(PrevPage(page), k - 1);
    }
  }

  /** Any number of Next presses ends at `min(page + k, totalPages)`, so never beyond the last page. */
  lemma {:induction false} NextTimesClamps(page: int, totalPages: nat, k: nat)
    requires k >= 1
    decreases k
    ensures NextTimes(page, totalPages, k) == if page + k < totalPages then page + k else totalPages
    ensures NextTimes(page, totalPages, k) <= totalPages
  {
    if k > 1 {
      NextTimesClamps(NextPage(page, totalPages), totalPages, k - 1);
    }
  }

  // ---------------------------------------------------------------------------
  // Fetch outcomes
  // ---------------------------------------------------------------------------

  /**
   * How one listing request ended.
   * - `Answered`: a 2xx response. `shops` is `None` when the body has no
   *   `data` object and `totalRow` is `None` when it has no `pagination`
   *   object; reading through the missing object throws.
   * - `Rejected`: an error response with its status and the body's `message`.
   * - `NoResponse`: the request was sent and nothing came back.
   * - `LocalFailure`: the request could not be made.
   */
  datatype FetchOutcome =
    | Answered(isSuccess: bool, shops: Option<seq<Shop>>, totalRow: Option<nat>)
    | Rejected(status: int, message: Option<string>)
    | NoResponse
    | LocalFailure

  /** The part of the page's state that a fetch outcome decides. */
  datatype Results = Results(shops: seq<Shop>, totalItems: nat, error: Option<string>)

  const NotFoundStatus := 404
  const ServerErrorPrefix := "Server Error: "
  const UnknownErrorText := "Unknown error occurred"
  const NoResponseText := "No response from server. Please check your connection."
  const ProcessingErrorText := "An error occurred while processing your request."

  /** The error shown for a non-404 error response; an empty message counts as none. */
  function ServerErrorText(message: Option<string>): (r: string)
    ensures |r| > |ServerErrorPrefix| && r[..|ServerErrorPrefix|] == ServerErrorPrefix
    ensures message.Some? && message.value != "" ==> r[|ServerErrorPrefix|..] == message.value
    ensures !(message.Some? && message.value != "") ==> r[|ServerErrorPrefix|..] == UnknownErrorText
  {
    ServerErrorPrefix + (if message.Some? && message.value != "" then message.value else UnknownErrorText)
  }

  /** The outcomes that clear the list without an error: an unsuccessful answer, or a 404. */
  predicate ClearsResults(o: FetchOutcome) {
    (o.Answered? && !o.isSuccess) || (o.Rejected? && o.status == NotFoundStatus)
  }

  /** The outcomes that set an error before touching the list. */
  predicate FailsUntouched(o: FetchOutcome) {
    (o.Rejected? && o.status != NotFoundStatus) || o.NoResponse? || o.LocalFailure?
    || (o.Answered? && o.isSuccess && o.shops.None?)
  }

  /** The error each failing outcome shows. */
  function FailureText(o: FetchOutcome): string {
    if o.Rejected? then ServerErrorText(o.message)
    else if o.NoResponse? then NoResponseText
    else ProcessingErrorText
  }

  /** The results after `o` arrives, from the results before it. */
  function Settle(o: FetchOutcome, prior: Results): (r: Results)
    ensures o.Answered? && o.isSuccess && o.shops.Some? && o.totalRow.Some? ==>
              r == prior.(shops := o.shops.value, totalItems := o.totalRow.value)
    ensures ClearsResults(o) ==> r == prior.(shops := [], totalItems := 0)
    ensures FailsUntouched(o) ==> r == prior.(error := Some(FailureText(o)))
    ensures o.Answered? && o.isSuccess && o.shops.Some? && o.totalRow.None? ==>
              r == prior.(shops := o.shops.value, error := Some(ProcessingErrorText))
  {
    match o
    case Answered(isSuccess, shops, totalRow) =>
      if !isSuccess then prior.(shops := [], totalItems := 0)
      else if shops.None? then prior.(error := Some(ProcessingErrorText))
      else if totalRow.None? then prior.(shops := shops.value, error := Some(ProcessingErrorText))
      else prior.(shops := shops.value, totalItems := totalRow.value)
    case Rejected(status, message) =>
      if status == NotFoundStatus then prior.(shops := [], totalItems := 0)
      else prior.(error := Some(ServerErrorText(message)))
    case NoResponse => prior.(error := Some(NoResponseText))
    case LocalFailure => prior.(error := Some(ProcessingErrorText))
  }

  /**
   * Starting from a cleared error, as every fetch does, an outcome either
   * shows an error and keeps the item count, or shows none and replaces list
   * and count together.
   */
  lemma SettleSetsErrorOrReplaces(o: FetchOutcome, shops: seq<Shop>, totalItems: nat)
    ensures var r := Settle(o, Results(shops, totalItems, None));
            (r.error.Some? ==> r.totalItems == totalItems)
            && (r.error.None? ==>
                  (r.shops == [] && r.totalItems == 0)
                  || (o.Answered? && o.shops == Some(r.shops) && o.totalRow == Some(r.totalItems)))
  {
  }

  /** The three transport failures set their fixed messages and keep list and count. */
  lemma TransportErrorsKeepResults(o: FetchOutcome, prior: Results)
    requires (o.Rejected? && o.status != NotFoundStatus) || o.NoResponse? || o.LocalFailure?
    ensures var r := Settle(o, prior);
            r.shops == prior.shops && r.totalItems == prior.totalItems
            && (o.NoResponse? ==> r.error == Some(NoResponseText))
            && (o.LocalFailure? ==> r.error == Some(ProcessingErrorText))
            && (o.Rejected? ==> r.error == Some(ServerErrorText(o.message)))
  {
  }

  /** A 404 empties the list and the count and shows no error. */
  lemma NotFoundScenario(shops: seq<Shop>, totalItems: nat, message: Option<string>)
    ensures Settle(Rejected(404, message), Results(shops, totalItems, None)) == Results([], 0, None)
  {
  }

  // ---------------------------------------------------------------------------
  // The page's state and its handlers
  // ---------------------------------------------------------------------------

  /** The products page: its state fields, updated by the handlers below. */
  class View {
    var shops: seq<Shop>
    var error: Option<string>
    var loading: bool
    var searchQuery: string
    var localSearchQuery: string
    var totalItems: nat
    var currentPage: int
    var itemsPerPage: int

    /** The page size always comes from the selector; the page is never negative. */
    ghost predicate Valid()
      reads this
    {
      itemsPerPage in PageSizeOptions && currentPage >= 0
    }

    /** The fields a fetch outcome decides. */
    function CurrentResults(): Results
      reads this
    {
      Results(shops, totalItems, error)
    }

    /** The page count shown and used by Next. */
    function CurrentTotalPages(): nat
      reads this
      requires Valid()
    {
      TotalPages(totalItems, itemsPerPage)
    }

    constructor ()
      ensures Valid()
      ensures shops == [] && error == None && loading
      ensures searchQuery == "" && localSearchQuery == ""
      ensures totalItems == 0 && currentPage == 1 && itemsPerPage == InitialItemsPerPage
    {
      shops := [];
      error := None;
      loading := true;
      searchQuery := "";
      localSearchQuery := "";
      totalItems := 0;
      currentPage := 1;
      itemsPerPage := InitialItemsPerPage;
    }

    /** The start of a fetch: loading on, error cleared, parameters built from the state. */
    method StartFetch(number: NumberParser) returns (params: SearchParams)
      requires Valid()
      modifies this`loading, this`error
      ensures Valid()
      ensures loading && error == None
      ensures params == GetSearchParams(searchQuery, itemsPerPage, currentPage, number)
    {
      loading := true;
      error := None;
      params := GetSearchParams(searchQuery, itemsPerPage, currentPage, number);
    }

    /** The end of a fetch: the outcome is applied and loading is switched off. */
    method SettleFetch(outcome: FetchOutcome)
      requires Valid()
      modifies this`shops, this`totalItems, this`error, this`loading
      ensures Valid()
      ensures CurrentResults() == Settle(outcome, old(CurrentResults()))
      ensures !loading
    {
      match outcome {
      case Answered(isSuccess, data, totalRow) =>
        if isSuccess {
          if data.None? {
            error := Some(ProcessingErrorText);
          } else {
            shops := data.value;
            if totalRow.None? {
              error := Some(ProcessingErrorText);
            } else {
              totalItems := totalRow.value;
            }
          }
        } else {
          shops := [];
          totalItems := 0;
        }
      case Rejected(status, message) =>
        if status == NotFoundStatus {
          shops := [];
          totalItems := 0;
        } else {
          error := Some(ServerErrorText(message));
        }
      case NoResponse =>
        error := Some(NoResponseText);
      case LocalFailure =>
        error := Some(ProcessingErrorText);
      }
      loading := false;
    }

    /**
     * One fetch from start to end. The parameters come from the current query,
     * page size and page; the results are those of the outcome applied to the
     * previous list and count with the error cleared.
     */
    method FetchShops(number: NumberParser, outcome: FetchOutcome) returns (params: SearchParams)
      requires Valid()
      modifies this`shops, this`totalItems, this`error, this`loading
      ensures Valid()
      ensures params == GetSearchParams(searchQuery, itemsPerPage, currentPage, number)
      ensures CurrentResults() == Settle(outcome, Results(old(shops), old(totalItems), None))
      ensures !loading
    {
      params := StartFetch(number);
      SettleFetch(outcome);
    }

    method HandlePreviousPage()
      requires Valid()
      modifies this`currentPage
      ensures Valid()
      ensures currentPage == PrevPage(old(currentPage))
    {
      currentPage := PrevPage(currentPage);
    }

    method HandleNextPage()
      requires Valid()
      modifies this`currentPage
      ensures Valid()
      ensures currentPage == NextPage(old(currentPage), CurrentTotalPages())
    {
      currentPage := NextPage(currentPage, TotalPages(totalItems, itemsPerPage));
    }

    /** A new page size from the selector; the page goes back to 1. */
    method HandleItemsPerPageChange(size: int)
      requires Valid()
      requires size in PageSizeOptions
      modifies this`itemsPerPage, this`currentPage
      ensures Valid()
      ensures itemsPerPage == size && currentPage == 1
    {
      itemsPerPage := size;
      currentPage := 1;
    }

    /** Typing in the search box changes only the local query. */
    method HandleSearchInput(text: string)
      modifies this`localSearchQuery
      ensures localSearchQuery == text
    {
      localSearchQuery := text;
    }

    /** Submitting the search copies the local query; the page is kept. */
    method HandleSubmit()
      requires Valid()
      modifies this`searchQuery
      ensures Valid()
      ensures searchQuery == localSearchQuery
    {
      searchQuery := localSearchQuery;
    }
  }

  /**
   * A session on the page: 25 items arrive, Next moves to page 2, then a
   * search for "chair" is submitted. The next request keeps page 2.
   */
  method SubmitKeepsPageScenario() returns (params: SearchParams)
    ensures params == SearchParams(10, 2, None, None, Some("chair"))
  {
    var view := new View();
    view.SettleFetch(Answered(true, Some([]), Some(25)));
    assert view.CurrentTotalPages() == 3;
    view.HandleNextPage();
    view.HandleSearchInput("chair");
    view.HandleSubmit();
    params := view.StartFetch(ParseDecimal);
    ProductNameScenario();
  }
}
