/**
 * The sortable tables of the Datasets and Endpoints pages: the
 * `sortBy`/`sortDirection` pair, what a header click does to it, and the
 * comparators the pages pass to `sort`.
 */
module TableSort {
  import opened Text
  import opened Lists

  /** `sortDirection`: 'asc' or 'desc'; any value but 'asc' sorts descending. */
  datatype Direction = Asc | Desc {
    function Flip(): Direction {
      if Asc? then Desc else Asc
    }
  }

  datatype SortState = SortState(sortBy: string, direction: Direction)

  /**
   * `handleSortChange(column)`: clicking the current column flips the
   * direction; clicking another column selects it in ascending order.
   */
  function NextSort(s: SortState, column: string): (r: SortState)
    ensures r.sortBy == column
    ensures s.sortBy == column ==> r.direction != s.direction
    ensures s.sortBy != column ==> r.direction == Asc
  {
    if s.sortBy == column then SortState(column, s.direction.Flip())
    else SortState(column, Asc)
  }

  /** Two clicks on the current column restore the state; on a new column they leave it descending. */
  lemma ClickTwice(s: SortState, column: string)
    ensures NextSort(NextSort(s, column), column)
            == if s.sortBy == column then s else SortState(column, Desc)
  {
  }

  /**
   * What a comparator compares for the chosen column: text (via
   * `localeCompare`), a number (via subtraction), or nothing (an unknown
   * column, where the comparator returns 0).
   */
  datatype SortKey = TextKey(text: string) | NumberKey(number: int) | NoKey

  /** The comparator's answer for two keys of one column is <= 0. */
  predicate KeyLe(a: SortKey, b: SortKey) {
    match (a, b)
    case (TextKey(x), TextKey(y)) => StrLe(x, y)
    case (NumberKey(x), NumberKey(y)) => x <= y
    case _ => true
  }

  /** `a` may precede `b` in the chosen direction. */
  predicate Ordered(dir: Direction, a: SortKey, b: SortKey) {
    if dir == Asc then KeyLe(a, b) else KeyLe(b, a)
  }

  /** The relation "the page's comparator returns at most 0" for a key function and a direction. */
  function Comparator<T>(key: T -> SortKey, dir: Direction): (T, T) -> bool {
    (a: T, b: T) => Ordered(dir, key(a), key(b))
  }

  /** Every row yields the same kind of key (one column is compared at a time). */
  ghost predicate UniformKeys<T(!new)>(key: T -> SortKey) {
    || (forall a :: key(a).TextKey?)
    || (forall a :: key(a).NumberKey?)
    || (forall a :: key(a).NoKey?)
  }

  lemma ComparatorIsPreorder<T(!new)>(key: T -> SortKey, dir: Direction)
    requires UniformKeys(key)
    ensures TotalPreorder(Comparator(key, dir))
  {
    var le := Comparator(key, dir);
    forall a, b ensures le(a, b) || le(b, a) {
      if key(a).TextKey? && key(b).TextKey? {
        StrLeTotal(key(a).text, key(b).text);
      }
    }
    forall a, b, c | le(a, b) && le(b, c) ensures le(a, c) {
      if key(a).TextKey? && key(b).TextKey? && key(c).TextKey? {
        if dir == Asc {
          StrLeTransitive(key(a).text, key(b).text, key(c).text);
        } else {
          StrLeTransitive(key(c).text, key(b).text, key(a).text);
        }
      }
    }
  }

  /**
   * `[...rows].sort(compare)` by a column: a permutation of `rows` in the
   * chosen order, rows the comparator ties keeping their relative order
   * (JavaScript's sort is stable); with no key for the column the order is kept.
   */
  function SortRows<T(!new)>(rows: seq<T>, key: T -> SortKey, dir: Direction): (r: seq<T>)
    requires UniformKeys(key)
    ensures |r| == |rows| && multiset(r) == multiset(rows)
    ensures forall i, j :: 0 <= i < j < |r| ==> Ordered(dir, key(r[i]), key(r[j]))
    ensures (forall a :: key(a).NoKey?) ==> r == rows
    ensures forall z :: TiedWith(r, Comparator(key, dir), z) == TiedWith(rows, Comparator(key, dir), z)
  {
    ComparatorIsPreorder(key, dir);
    forall z ensures TiedWith(SortBy(rows, Comparator(key, dir)), Comparator(key, dir), z) == TiedWith(rows, Comparator(key, dir), z) {
      SortStable(rows, Comparator(key, dir), z);
    }
    SortSorted(rows, Comparator(key, dir));
    SortUnchanged(rows, Comparator(key, dir));
    SortBy(rows, Comparator(key, dir))
  }
}
