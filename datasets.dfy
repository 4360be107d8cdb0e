/**
 * The Datasets page: a searchable, sortable table of datasets with row
 * selection, bulk delete and single delete. The confirmation dialog's
 * answer is a parameter of the delete handlers.
 */
module Datasets {
  import opened Text
  import opened Lists
  import opened TableSort

  /**
   * One dataset row. `sizeKey` stands for `parseFloat(size)` (the leading
   * number of a size label such as "2.4 MB"), abstracted to an integer key.
   */
  datatype Dataset = Dataset(
    id: string,
    name: string,
    description: string,
    dateCreated: int,
    size: string,
    sizeKey: int,
    rows: int,
    tags: seq<string>)

  /** The search box keeps a dataset whose name, description or some tag contains the term, ignoring case. */
  predicate Matches(d: Dataset, term: string) {
    var t := ToLower(term);
    || Includes(ToLower(d.name), t)
    || Includes(ToLower(d.description), t)
    || exists i :: 0 <= i < |d.tags| && Includes(ToLower(d.tags[i]), t)
  }

  /** `filteredDatasets`: the matching datasets, in their original order. */
  function FilterDatasets(ds: seq<Dataset>, term: string): (r: seq<Dataset>)
    ensures forall i :: 0 <= i < |r| ==> Matches(r[i], term)
    ensures forall d :: multiset(r)[d] == if Matches(d, term) then multiset(ds)[d] else 0
    ensures IsSubsequence(r, ds)
  {
    Filter(ds, d => Matches(d, term))
  }

  /** An empty search keeps every dataset. */
  lemma EmptySearchKeepsAll(ds: seq<Dataset>)
    ensures FilterDatasets(ds, "") == ds
  {
    forall i | 0 <= i < |ds| ensures Matches(ds[i], "") {
      IncludesTrivially(ToLower(ds[i].name));
    }
    FilterAll(ds, d => Matches(d, ""));
  }

  /** What the comparator compares for each sortable column. */
  function DatasetKey(sortBy: string): Dataset -> SortKey {
    (d: Dataset) =>
      if sortBy == "name" then TextKey(d.name)
      else if sortBy == "dateCreated" then NumberKey(d.dateCreated)
      else if sortBy == "size" then NumberKey(d.sizeKey)
      else if sortBy == "rows" then NumberKey(d.rows)
      else NoKey
  }

  /**
   * `sortedDatasets`: a permutation of the filtered list, ordered by the
   * chosen column in the chosen direction; an unknown column keeps the order.
   */
  function SortDatasets(ds: seq<Dataset>, sortBy: string, dir: Direction): (r: seq<Dataset>)
    ensures |r| == |ds| && multiset(r) == multiset(ds)
    ensures forall i, j :: 0 <= i < j < |r| ==> Ordered(dir, DatasetKey(sortBy)(r[i]), DatasetKey(sortBy)(r[j]))
    ensures sortBy !in ["name", "dateCreated", "size", "rows"] ==> r == ds
    ensures forall z :: TiedWith(r, Comparator(DatasetKey(sortBy), dir), z) == TiedWith(ds, Comparator(DatasetKey(sortBy), dir), z)
  {
    SortRows(ds, DatasetKey(sortBy), dir)
  }

  /** Sorting by rows in ascending order puts fewer rows first (and the other columns likewise). */
  lemma SortByRowsAscending(ds: seq<Dataset>)
    ensures var r := SortDatasets(ds, "rows", Asc);
            forall i, j :: 0 <= i < j < |r| ==> r[i].rows <= r[j].rows
  {
    var r := SortDatasets(ds, "rows", Asc);
    forall i, j | 0 <= i < j < |r| ensures r[i].rows <= r[j].rows {
      assert Ordered(Asc, DatasetKey("rows")(r[i]), DatasetKey("rows")(r[j]));
    }
  }

  function Ids(ds: seq<Dataset>): (ids: seq<string>)
    ensures |ids| == |ds|
    ensures forall i :: 0 <= i < |ds| ==> ids[i] == ds[i].id
  {
    if ds == [] then [] else [ds[0].id] + Ids(ds[1..])
  }

  /**
   * `selectAllDatasets`: clears the selection when it is as long as the
   * filtered list, and otherwise selects every filtered dataset. It compares
   * lengths, not the ids themselves.
   */
  function SelectAll(selected: seq<string>, filtered: seq<Dataset>): (r: seq<string>)
    ensures |selected| == |filtered| ==> r == []
    ensures |selected| != |filtered| ==> r == Ids(filtered)
  {
    if |selected| == |filtered| then [] else Ids(filtered)
  }

  /** From a partial selection, select-all selects exactly the filtered ids and a second click clears them. */
  lemma SelectAllTwice(selected: seq<string>, filtered: seq<Dataset>)
    requires |selected| != |filtered|
    ensures forall id :: id in SelectAll(selected, filtered) <==> exists d :: d in filtered && d.id == id
    ensures SelectAll(SelectAll(selected, filtered), filtered) == []
  {
    var r := SelectAll(selected, filtered);
    forall id ensures id in r <==> exists d :: d in filtered && d.id == id {
      if id in r {
        var k :| 0 <= k < |r| && r[k] == id;
        assert filtered[k] in filtered;
      }
    }
  }

  /** Because only lengths are compared, a selection of other ids still clears on select-all. */
  lemma SelectAllComparesLengths()
    ensures var shown := [Dataset("ds2", "Sales", "", 0, "4.1 MB", 4, 8200, [])];
            "ds2" !in ["ds1"] && SelectAll(["ds1"], shown) == []
  {
  }

  /** The bulk delete: every dataset whose id is selected goes, the rest stay in order. */
  function RemoveSelected(ds: seq<Dataset>, selected: seq<string>): (r: seq<Dataset>)
    ensures forall i :: 0 <= i < |r| ==> r[i].id !in selected
    ensures forall d :: multiset(r)[d] == if d.id in selected then 0 else multiset(ds)[d]
    ensures IsSubsequence(r, ds)
  {
    Filter(ds, (d: Dataset) => d.id !in selected)
  }

  /** The row delete: only datasets with this id go. */
  function RemoveById(ds: seq<Dataset>, id: string): (r: seq<Dataset>)
    ensures forall i :: 0 <= i < |r| ==> r[i].id != id
    ensures forall d :: multiset(r)[d] == if d.id == id then 0 else multiset(ds)[d]
    ensures IsSubsequence(r, ds)
  {
    Filter(ds, (d: Dataset) => d.id != id)
  }

  datatype PageState = PageState(
    datasets: seq<Dataset>,
    loading: bool,
    error: string,
    searchTerm: string,
    sortBy: string,
    sortDirection: Direction,
    selectedDatasets: seq<string>)

  class DatasetsPage {
    var datasets: seq<Dataset>
    var loading: bool
    var error: string
    var searchTerm: string
    var sortBy: string
    var sortDirection: Direction
    var selectedDatasets: seq<string>

    function State(): PageState
      reads this
    {
      PageState(datasets, loading, error, searchTerm, sortBy, sortDirection, selectedDatasets)
    }

    /** `filteredDatasets`. */
    function FilteredDatasets(): seq<Dataset>
      reads this
    {
      FilterDatasets(datasets, searchTerm)
    }

    /** `sortedDatasets`: the rows the table shows. */
    function SortedDatasets(): seq<Dataset>
      reads this
    {
      SortDatasets(FilteredDatasets(), sortBy, sortDirection)
    }

    constructor ()
      ensures State() == PageState([], true, "", "", "dateCreated", Desc, [])
    {
      datasets, loading, error := [], true, "";
      searchTerm, sortBy, sortDirection := "", "dateCreated", Desc;
      selectedDatasets := [];
    }

    /** The load effect's delayed callback, with the list it delivers. */
    method FinishLoading(items: seq<Dataset>)
      modifies this
      ensures State() == old(State()).(datasets := items, loading := false)
    {
      datasets := items;
      loading := false;
    }

    method SetSearchTerm(term: string)
      modifies this
      ensures State() == old(State()).(searchTerm := term)
    {
      searchTerm := term;
    }

    /** `handleSortChange`. */
    method HandleSortChange(column: string)
      modifies this
      ensures var next := NextSort(SortState(old(sortBy), old(sortDirection)), column);
              State() == old(State()).(sortBy := next.sortBy, sortDirection := next.direction)
    {
      if sortBy == column {
        sortDirection := sortDirection.Flip();
      } else {
        sortBy := column;
        sortDirection := Asc;
      }
    }

    /** `toggleDatasetSelection`: only this id's membership changes. */
    method ToggleDatasetSelection(id: string)
      modifies this
      ensures State() == old(State()).(selectedDatasets := Toggle(old(selectedDatasets), id))
      ensures id in selectedDatasets <==> id !in old(selectedDatasets)
      ensures forall other :: other != id ==> (other in selectedDatasets <==> other in old(selectedDatasets))
    {
      selectedDatasets := Toggle(selectedDatasets, id);
    }

    /** `selectAllDatasets`. */
    method SelectAllDatasets()
      modifies this
      ensures State() == old(State()).(selectedDatasets := SelectAll(old(selectedDatasets), old(FilteredDatasets())))
    {
      var filtered := FilteredDatasets();
      if |selectedDatasets| == |filtered| {
        selectedDatasets := [];
      } else {
        selectedDatasets := Ids(filtered);
      }
    }

    /** `deleteSelectedDatasets`, with the confirmation dialog's answer. */
    method DeleteSelectedDatasets(confirmed: bool)
      modifies this
      ensures !confirmed ==> State() == old(State())
      ensures confirmed ==> State() == old(State()).(datasets := RemoveSelected(old(datasets), old(selectedDatasets)),
                                                     selectedDatasets := [])
    {
      if confirmed {
        datasets := RemoveSelected(datasets, selectedDatasets);
        selectedDatasets := [];
      }
    }

    /** A row's delete button: removes that dataset only and leaves the selection as it is. */
    method DeleteDataset(id: string, confirmed: bool)
      modifies this
      ensures !confirmed ==> State() == old(State())
      ensures confirmed ==> State() == old(State()).(datasets := RemoveById(old(datasets), id))
    {
      if confirmed {
        datasets := RemoveById(datasets, id);
      }
    }
  }
}
