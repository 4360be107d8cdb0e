/**
 * The Endpoints page: a searchable, sortable table of deployed model
 * endpoints with status toggling, deletion, a details view and generated
 * client snippets. The confirmation dialog's answer is a parameter.
 */
module Endpoints {
  import opened Wrappers
  import opened Text
  import opened Lists
  import opened TableSort

  /** The model behind an endpoint; its accuracy (a float) is not modelled. */
  datatype ModelSummary = ModelSummary(id: string, name: string, modelType: string)

  datatype Endpoint = Endpoint(
    id: string,
    name: string,
    description: string,
    model: ModelSummary,
    status: string,
    url: string,
    dateCreated: int,
    requestsToday: int,
    requestsTotal: int)

  /** The search box keeps an endpoint whose name or description contains the term, ignoring case. */
  predicate Matches(e: Endpoint, term: string) {
    var t := ToLower(term);
    Includes(ToLower(e.name), t) || Includes(ToLower(e.description), t)
  }

  /** `filteredEndpoints`: the matching endpoints, in their original order. */
  function FilterEndpoints(eps: seq<Endpoint>, term: string): (r: seq<Endpoint>)
    ensures forall i :: 0 <= i < |r| ==> Matches(r[i], term)
    ensures forall e :: multiset(r)[e] == if Matches(e, term) then multiset(eps)[e] else 0
    ensures IsSubsequence(r, eps)
  {
    Filter(eps, e => Matches(e, term))
  }

  /** What the comparator compares for each sortable column. */
  function EndpointKey(sortBy: string): Endpoint -> SortKey {
    (e: Endpoint) =>
      if sortBy == "name" then TextKey(e.name)
      else if sortBy == "dateCreated" then NumberKey(e.dateCreated)
      else if sortBy == "requestsTotal" then NumberKey(e.requestsTotal)
      else if sortBy == "status" then TextKey(e.status)
      else NoKey
  }

  /**
   * `sortedEndpoints`: a permutation of the filtered list, ordered by the
   * chosen column in the chosen direction; an unknown column keeps the order.
   */
  function SortEndpoints(eps: seq<Endpoint>, sortBy: string, dir: Direction): (r: seq<Endpoint>)
    ensures |r| == |eps| && multiset(r) == multiset(eps)
    ensures forall i, j :: 0 <= i < j < |r| ==> Ordered(dir, EndpointKey(sortBy)(r[i]), EndpointKey(sortBy)(r[j]))
    ensures sortBy !in ["name", "dateCreated", "requestsTotal", "status"] ==> r == eps
    ensures forall z :: TiedWith(r, Comparator(EndpointKey(sortBy), dir), z) == TiedWith(eps, Comparator(EndpointKey(sortBy), dir), z)
  {
    SortRows(eps, EndpointKey(sortBy), dir)
  }

  /** The status a toggle gives: 'active' becomes 'inactive', anything else (even 'deploying') 'active'. */
  function ToggledStatus(status: string): (r: string)
    ensures r == "active" || r == "inactive"
    ensures r == "inactive" <==> status == "active"
  {
    if status == "active" then "inactive" else "active"
  }

  /** `toggleEndpointStatus`'s new list: only the endpoints with this id change, and only their status. */
  function ToggleStatus(eps: seq<Endpoint>, id: string): (r: seq<Endpoint>)
    ensures |r| == |eps|
    ensures forall i :: 0 <= i < |eps| && eps[i].id != id ==> r[i] == eps[i]
    ensures forall i :: 0 <= i < |eps| && eps[i].id == id ==>
              r[i] == eps[i].(status := ToggledStatus(eps[i].status))
  {
    if eps == [] then []
    else
      var e := eps[0];
      [if e.id == id then e.(status := ToggledStatus(e.status)) else e] + ToggleStatus(eps[1..], id)
  }

  /** Toggling twice restores every endpoint that was active or inactive. */
  lemma {:induction false} ToggleStatusTwice(eps: seq<Endpoint>, id: string)
    requires forall i :: 0 <= i < |eps| && eps[i].id == id ==> eps[i].status in {"active", "inactive"}
    ensures ToggleStatus(ToggleStatus(eps, id), id) == eps
  {
    if eps != [] {
      ToggleStatusTwice(eps[1..], id);
      assert ToggleStatus(eps, id)[1..] == ToggleStatus(eps[1..], id);
    }
  }

  /** `deleteEndpoint`'s new list: the endpoints with this id go, the rest stay in order. */
  function RemoveById(eps: seq<Endpoint>, id: string): (r: seq<Endpoint>)
    ensures forall i :: 0 <= i < |r| ==> r[i].id != id
    ensures forall e :: multiset(r)[e] == if e.id == id then 0 else multiset(eps)[e]
    ensures IsSubsequence(r, eps)
  {
    Filter(eps, (e: Endpoint) => e.id != id)
  }

  /** `getStatusBadgeClass`: unknown statuses look inactive. */
  function StatusBadgeClass(status: string): (c: string)
    ensures c in {"status-badge-active", "status-badge-inactive", "status-badge-deploying"}
    ensures c == "status-badge-active" <==> status == "active"
    ensures c == "status-badge-deploying" <==> status == "deploying"
  {
    match status
    case "active" => "status-badge-active"
    case "inactive" => "status-badge-inactive"
    case "deploying" => "status-badge-deploying"
    case _ => "status-badge-inactive"
  }

  /** `getModelTypeIcon`: one icon per model type, a robot for the rest. */
  function ModelTypeIcon(modelType: string): (icon: string)
    ensures modelType !in {"classifier", "predictor", "cluster"} <==> icon == "\U{1F916}"
  {
    match modelType
    case "classifier" => "\U{1F50D}"
    case "predictor" => "\U{1F4C8}"
    case "cluster" => "\U{1F504}"
    case _ => "\U{1F916}"
  }

  /** Each known model type has an icon of its own: two types share one only when neither is known. */
  lemma ModelTypeIconsDistinct(a: string, b: string)
    ensures ModelTypeIcon(a) == ModelTypeIcon(b) && a != b
            ==> a !in {"classifier", "predictor", "cluster"} && b !in {"classifier", "predictor", "cluster"}
  {
  }

  // ---------------------------------------------------------------- snippets

  const CurlHead: string := "curl -X POST "

  /** `generateCurlCommand`: a cURL call posting sample features to the endpoint's URL. */
  function CurlCommand(e: Endpoint): (text: string)
    ensures CurlHead <= text
    ensures OccursAt(text, e.url, |CurlHead|)
    ensures Includes(text, e.url)
  {
    var before := CurlHead;
    var after := " \\\n  -H \"Content-Type: application/json\" \\\n  -H \"Authorization: Bearer YOUR_API_KEY\" \\\n  -d '{\n    \"features\": {\n      \"feature1\": \"value1\",\n      \"feature2\": \"value2\",\n      // Add more features as needed\n    }\n  }'";
    Embedded(before, e.url, after);
    before + e.url + after
  }

  const PythonHead: string := "import requests\nimport json\n\nurl = \""

  /** `generatePythonExample`: a `requests` script posting sample features to the endpoint's URL. */
  function PythonExample(e: Endpoint): (text: string)
    ensures PythonHead <= text
    ensures OccursAt(text, e.url, |PythonHead|)
    ensures Includes(text, e.url)
  {
    var before := PythonHead;
    var after := "\"\nheaders = {\n    \"Content-Type\": \"application/json\",\n    \"Authorization\": \"Bearer YOUR_API_KEY\"\n}\ndata = {\n    \"features\": {\n        \"feature1\": \"value1\",\n        \"feature2\": \"value2\",\n        # Add more features as needed\n    }\n}\n\nresponse = requests.post(url, headers=headers, json=data)\nprediction = response.json()\n\nprint(prediction)";
    Embedded(before, e.url, after);
    before + e.url + after
  }

  const FetchHead: string := "fetch('"

  /** `generateJavaScriptExample`: a `fetch` call posting sample features to the endpoint's URL. */
  function JavaScriptExample(e: Endpoint): (text: string)
    ensures FetchHead <= text
    ensures OccursAt(text, e.url, |FetchHead|)
    ensures Includes(text, e.url)
  {
    var before := FetchHead;
    var after := "', {\n  method: 'POST',\n  headers: {\n    'Content-Type': 'application/json',\n    'Authorization': 'Bearer YOUR_API_KEY'\n  },\n  body: JSON.stringify({\n    features: {\n      feature1: 'value1',\n      feature2: 'value2',\n      // Add more features as needed\n    }\n  })\n})\n.then(response => response.json())\n.then(prediction => {\n  console.log(prediction);\n})\n.catch(error => {\n  console.error('Error:', error);\n});";
    Embedded(before, e.url, after);
    before + e.url + after
  }

  /** A string placed between two others occurs in the result, right after the first. */
  lemma Embedded(before: string, s: string, after: string)
    ensures before <= before + s + after
    ensures OccursAt(before + s + after, s, |before|)
    ensures Includes(before + s + after, s)
  {
    var t := before + s + after;
    assert t[|before|..|before| + |s|] == s;
    assert OccursAt(t, s, |before|);
  }

  // ---------------------------------------------------------------- the page

  datatype PageState = PageState(
    endpoints: seq<Endpoint>,
    loading: bool,
    error: string,
    searchTerm: string,
    sortBy: string,
    sortDirection: Direction,
    selectedEndpoint: Option<Endpoint>)

  class EndpointsPage {
    var endpoints: seq<Endpoint>
    var loading: bool
    var error: string
    var searchTerm: string
    var sortBy: string
    var sortDirection: Direction
    var selectedEndpoint: Option<Endpoint>

    function State(): PageState
      reads this
    {
      PageState(endpoints, loading, error, searchTerm, sortBy, sortDirection, selectedEndpoint)
    }

    /** `filteredEndpoints`. */
    function FilteredEndpoints(): seq<Endpoint>
      reads this
    {
      FilterEndpoints(endpoints, searchTerm)
    }

    /** `sortedEndpoints`: the rows the table shows. */
    function SortedEndpoints(): seq<Endpoint>
      reads this
    {
      SortEndpoints(FilteredEndpoints(), sortBy, sortDirection)
    }

    constructor ()
      ensures State() == PageState([], true, "", "", "dateCreated", Desc, None)
    {
      endpoints, loading, error := [], true, "";
      searchTerm, sortBy, sortDirection := "", "dateCreated", Desc;
      selectedEndpoint := None;
    }

    /** The load effect's delayed callback, with the list it delivers. */
    method FinishLoading(items: seq<Endpoint>)
      modifies this
      ensures State() == old(State()).(endpoints := items, loading := false)
    {
      endpoints := items;
      loading := false;
    }

    method SetSearchTerm(term: string)
      modifies this
      ensures State() == old(State()).(searchTerm := term)
    {
      searchTerm := term;
    }

    /** `handleSortChange`. */
    method HandleSortChange(column: string)
      modifies this
      ensures var next := NextSort(SortState(old(sortBy), old(sortDirection)), column);
              State() == old(State()).(sortBy := next.sortBy, sortDirection := next.direction)
    {
      if sortBy == column {
        sortDirection := sortDirection.Flip();
      } else {
        sortBy := column;
        sortDirection := Asc;
      }
    }

    /** `toggleEndpointStatus`. */
    method ToggleEndpointStatus(id: string)
      modifies this
      ensures State() == old(State()).(endpoints := ToggleStatus(old(endpoints), id))
    {
      endpoints := ToggleStatus(endpoints, id);
    }

    /** `deleteEndpoint`, with the confirmation dialog's answer. */
    method DeleteEndpoint(id: string, confirmed: bool)
      modifies this
      ensures !confirmed ==> State() == old(State())
      ensures confirmed ==> State() == old(State()).(endpoints := RemoveById(old(endpoints), id))
    {
      if confirmed {
        endpoints := RemoveById(endpoints, id);
      }
    }

    /** `viewEndpointDetails`: the details view shows a copy taken now. */
    method ViewEndpointDetails(e: Endpoint)
      modifies this
      ensures State() == old(State()).(selectedEndpoint := Some(e))
    {
      selectedEndpoint := Some(e);
    }

    method CloseEndpointDetails()
      modifies this
      ensures State() == old(State()).(selectedEndpoint := None)
    {
      selectedEndpoint := None;
    }
  }
}
