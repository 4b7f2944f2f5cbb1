/** The `DataSource` trait of src/source/mod.rs as one concrete stateful
    source: an `Iterator` over a fixed list of items with a cursor, whose
    `len` counts the items not yet taken. */
module Source {
  import opened Outcomes

  class DataSource<T> {
    var items: seq<T>
    var cursor: nat

    predicate Valid()
      reads this
    {
      cursor <= |items|
    }

    constructor (items: seq<T>)
      ensures Valid() && this.items == items && cursor == 0
    {
      this.items := items;
      cursor := 0;
    }

    /** `DataSource::len`: the items still to come. */
    function Len(): (n: nat)
      reads this
      requires Valid()
      ensures n == |items| - cursor
      ensures n == 0 <==> cursor == |items|
    {
      |items| - cursor
    }

    /** `Iterator::next`: the next item, or `None` once the items run out. */
    method Next() returns (r: Option<T>)
      requires Valid()
      modifies this
      ensures Valid() && items == old(items)
      ensures old(cursor) < |items| ==> r == Some(items[old(cursor)]) && cursor == old(cursor) + 1
      ensures old(cursor) == |items| ==> r == None && cursor == old(cursor)
      ensures Len() <= old(Len())
    {
      if cursor < |items| {
        r := Some(items[cursor]);
        cursor := cursor + 1;
      } else {
        r := None;
      }
    }
  }
}
