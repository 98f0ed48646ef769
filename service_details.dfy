/** The service detail page: the fetch of one service, the view chosen from its state, and the price label. */
module ServiceDetails {
  import opened Wrappers
  import opened JsString
  import opened JsNumber
  import opened Fetch

  /** A service as the API returns it; `price` is `null` or an integral number of euros. */
  datatype Service = Service(
    id: string,
    name: string,
    description: string,
    price: Option<int>,
    isFree: bool,
    location: string,
    startDate: string,
    endDate: string,
    numberOfRooms: int,
    photoPaths: seq<string>)

  const FetchFailedMessage := "Error fetching service"
  const FreeLabel := "Gratis"
  const PricePrefix := "Vanaf \U{20AC}"
  const OnRequestLabel := "Prijs op aanvraag"

  /** JS truthiness of `price`: `null` and `0` are falsy. */
  predicate HasPrice(s: Service) {
    s.price.Some? && s.price.value != 0
  }

  /** The text under "Prijs". */
  function PriceLabel(s: Service): string {
    if s.isFree then FreeLabel
    else if HasPrice(s) then PricePrefix + NumberToString(s.price.value)
    else OnRequestLabel
  }

  /** A free service is "Gratis" whatever its price. */
  lemma FreeWhateverPrice(s: Service, price: Option<int>)
    requires s.isFree
    ensures PriceLabel(s) == FreeLabel && PriceLabel(s.(price := price)) == FreeLabel
  {
  }

  /** A non-free service with a non-zero price shows that price after "Vanaf €", and parsing the label back after the prefix gives the price. */
  lemma PricedLabelReadsBack(s: Service)
    requires !s.isFree && s.price.Some? && s.price.value != 0
    ensures |PriceLabel(s)| > |PricePrefix|
    ensures PriceLabel(s)[..|PricePrefix|] == PricePrefix
    ensures ParseInt(PriceLabel(s)[|PricePrefix|..]) == s.price
  {
    var p := s.price.value;
    DigitsShape(if p < 0 then -p else p);
    assert PriceLabel(s)[|PricePrefix|..] == NumberToString(p);
    ParseIntRoundTrip(p);
  }

  /** A non-free service with no price or a price of 0 is "Prijs op aanvraag". */
  lemma NoPriceOnRequest(s: Service)
    requires !s.isFree && (s.price == None || s.price == Some(0))
    ensures PriceLabel(s) == OnRequestLabel
  {
  }

  /** The label tells the three cases apart: each label occurs exactly in its own case. */
  lemma PriceLabelIff(s: Service)
    ensures PriceLabel(s) == FreeLabel <==> s.isFree
    ensures PriceLabel(s) == OnRequestLabel <==> !s.isFree && !HasPrice(s)
    ensures (|PriceLabel(s)| >= |PricePrefix| && PriceLabel(s)[..|PricePrefix|] == PricePrefix) <==> !s.isFree && HasPrice(s)
  {
    if !s.isFree && HasPrice(s) {
      var l := PriceLabel(s);
      assert l[0] == 'V';
      assert FreeLabel[0] == 'G' && OnRequestLabel[0] == 'P';
    } else {
      assert FreeLabel[0] == 'G' && OnRequestLabel[0] == 'P';
      assert OnRequestLabel[0] != PricePrefix[0];
    }
  }

  /** What the page draws. */
  datatype View = LoadingView | ErrorView(message: string) | NotFoundView | DetailView(service: Service)

  /** The early returns of the component, in order. */
  function SelectView(loading: bool, error: Option<string>, serviceData: Option<Service>): View {
    if loading then LoadingView
    else if Truthy(error) then ErrorView(error.value)
    else if serviceData.None? then NotFoundView
    else DetailView(serviceData.value)
  }

  /**
   * Loading hides everything; then a non-empty error hides the data; then
   * missing data gives "No service found."; only then are the details drawn.
   */
  lemma ViewPrecedence(loading: bool, error: Option<string>, serviceData: Option<Service>)
    ensures SelectView(loading, error, serviceData) == LoadingView <==> loading
    ensures SelectView(loading, error, serviceData).ErrorView? <==> !loading && Truthy(error)
    ensures SelectView(loading, error, serviceData) == NotFoundView <==> !loading && !Truthy(error) && serviceData.None?
    ensures SelectView(loading, error, serviceData).DetailView? <==> !loading && !Truthy(error) && serviceData.Some?
    ensures SelectView(loading, error, serviceData).DetailView? ==> SelectView(loading, error, serviceData).service == serviceData.value
  {
  }

  /** The state of the page for the route's `serviceId`. */
  class ServiceDetailsPage {
    const serviceId: Option<string>
    var serviceData: Option<Service>
    var loading: bool
    var error: Option<string>

    constructor (serviceId: Option<string>)
      ensures this.serviceId == serviceId
      ensures serviceData == None && loading && error == None
    {
      this.serviceId := serviceId;
      serviceData := None;
      loading := true;
      error := None;
    }

    /**
     * The fetch effect after its request: a body (possibly `null`) replaces
     * the data; a non-2xx status or a thrown error sets the fixed message and
     * keeps the data. Nothing clears an earlier error, and loading is false
     * afterwards either way.
     */
    method CompleteFetch(outcome: Outcome<Option<Service>>)
      modifies this
      ensures !loading
      ensures outcome.Ok? ==> serviceData == outcome.body && error == old(error)
      ensures !outcome.Ok? ==> serviceData == old(serviceData) && error == Some(FetchFailedMessage)
      ensures !outcome.Ok? ==> View() == ErrorView(FetchFailedMessage)
      ensures outcome.Ok? && !Truthy(old(error)) ==>
                View() == if outcome.body.Some? then DetailView(outcome.body.value) else NotFoundView
    {
      if outcome.Ok? {
        serviceData := outcome.body;
      } else {
        error := Some(FetchFailedMessage);
      }
      loading := false;
    }

    /** What is drawn now. */
    function View(): View
      reads this
    {
      SelectView(loading, error, serviceData)
    }
  }

  /** After the first fetch fails the error view is drawn with the fixed message, whatever the data. */
  lemma FailedFetchShowsError(serviceData: Option<Service>)
    ensures SelectView(false, Some(FetchFailedMessage), serviceData) == ErrorView(FetchFailedMessage)
  {
  }
}
